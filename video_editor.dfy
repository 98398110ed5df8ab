/**
 * The video element's address editor: a draft address and a flag for the open editor. Saving
 * writes the draft to the element; cancelling throws the draft away.
 */
module VideoEditing {
  import opened Wrappers
  import opened Records
  import opened Document
  import opened Reducer
  import opened ReducerFacts
  import opened Video

  /** The update the save button dispatches: only the content. */
  function SaveUpdates(url: string): Updates
  {
    Updates(Some(Str(url)), None, None, None, None)
  }

  /**
   * Applying a save to the element with that id sets its content to the draft and keeps every
   * other field, so the player shows the draft's embed address; other elements are untouched.
   */
  lemma SaveEffect(st: State, id: string, url: string, i: nat, j: nat)
    requires i < |st.sections| && j < |st.sections[i].elements|
    ensures var e := st.sections[i].elements[j];
      var e' := Apply(st, UpdateElement(id, SaveUpdates(url))).sections[i].elements[j];
      (e.id == id ==> e' == e.(content := Str(url)) && EmbedUrl(ContentString(e'.content)) == EmbedUrl(url)) &&
      (e.id != id ==> e' == e)
  {
    UpdateElementEffect(st, id, SaveUpdates(url), i, j);
  }

  class VideoEditor {
    var tempUrl: string
    var showUrlEditor: bool

    /** `useState(element.content)` and a closed editor. */
    constructor(content: string)
      ensures tempUrl == content && !showUrlEditor
    {
      tempUrl := content;
      showUrlEditor := false;
    }

    /** A double click opens the editor on the element's current address. */
    method Open(content: string)
      modifies this
      ensures showUrlEditor && tempUrl == content
    {
      showUrlEditor := true;
      tempUrl := content;
    }

    /** Typing in the address field replaces the draft. */
    method Input(value: string)
      modifies this
      ensures tempUrl == value && showUrlEditor == old(showUrlEditor)
    {
      tempUrl := value;
    }

    /** Save: dispatch `updateElement(id, {content: tempUrl})` and close. */
    method Save(id: string) returns (dispatched: Action)
      modifies this
      ensures dispatched == UpdateElement(id, SaveUpdates(old(tempUrl)))
      ensures tempUrl == old(tempUrl) && !showUrlEditor
    {
      dispatched := UpdateElement(id, SaveUpdates(tempUrl));
      showUrlEditor := false;
    }

    /** Cancel: the draft goes back to the element's address and nothing is dispatched. */
    method Cancel(content: string)
      modifies this
      ensures tempUrl == content && !showUrlEditor
    {
      tempUrl := content;
      showUrlEditor := false;
    }
  }
}
