// The download button of the PDF viewer toolbar
// (pdf/elements/viewer-download-controls.ts): whether there are edits worth
// offering, the popup announced by the button, the wait for a focused form
// field to commit its edit, and the save request each click sends.
//
// A promise is modelled by what its continuation does once it runs: a click
// whose answer is known at once acts at once, one that waits for the form
// field acts when the focus change arrives. The menu element, the events and
// the microtask queue are outside the model; the requests the element sends
// and the menu showings are recorded, in order, in `sent`.

module ViewerDownloadControls {

  import opened PdfViewer

  /** What the element sends out. */
  datatype Signal = MenuShown | SaveRequested(requestType: SaveRequestType)

  /** What `waitForEdits_` gives back: an answer at once, or a promise still pending. */
  datatype EditsAnswer = Known(hasEdits: bool) | Pending

  /** `hasEditsToSave_`; Ink2 edits count only in a build with Ink2. */
  function EditsToSave(hasEnteredAnnotationMode: bool, hasEdits: bool, ink2Build: bool,
                       hasInk2Edits: bool): (r: bool)
    ensures r <==> hasEnteredAnnotationMode || hasEdits || (ink2Build && hasInk2Edits)
    ensures !ink2Build ==> (r <==> hasEnteredAnnotationMode || hasEdits)
  {
    if ink2Build then hasEnteredAnnotationMode || hasEdits || hasInk2Edits
    else hasEnteredAnnotationMode || hasEdits
  }

  /** `computeDownloadHasPopup_`: the aria-haspopup value of the button. */
  function DownloadHasPopup(editsToSave: bool): (r: string)
    ensures r == "menu" || r == "false"
    ensures r == "menu" <==> editsToSave
  {
    if editsToSave then "menu" else "false"
  }

  /** What the click continuation sends once it knows whether there are edits. */
  function ClickSignal(hasEdits: bool): (r: Signal)
    ensures r == MenuShown <==> hasEdits
    ensures r == SaveRequested(Original) <==> !hasEdits
  {
    if hasEdits then MenuShown else SaveRequested(Original)
  }

  /** The request of the "edited" menu item. */
  function EditedRequest(hasEnteredAnnotationMode: bool): (r: SaveRequestType)
    ensures r != Original
    ensures r == Annotation <==> hasEnteredAnnotationMode
  {
    if hasEnteredAnnotationMode then Annotation else Edited
  }

  /**
   * Whenever there are edits other than Ink2 ones, the "edited" menu item
   * asks for the same document the viewer's own save picks.
   */
  lemma EditedRequestMatchesViewerSave(hasEnteredAnnotationMode: bool, hasEdits: bool)
    requires hasEnteredAnnotationMode || hasEdits
    ensures EditedRequest(hasEnteredAnnotationMode) == SaveModeFor(hasEnteredAnnotationMode, hasEdits)
  {
  }

  /** The button announces a menu exactly when a click with no form field focused shows one. */
  lemma PopupAnnouncesMenu(editsToSave: bool)
    ensures DownloadHasPopup(editsToSave) == "menu" <==> ClickSignal(editsToSave) == MenuShown
  {
  }

  class DownloadControls {
    const ink2Build: bool
    var hasEdits: bool
    var hasEnteredAnnotationMode: bool
    var hasInk2Edits: bool
    var isFormFieldFocused: bool
    var menuOpen: bool
    /** `waitForFormFocusChange_ !== null`: a click waits for the form field. */
    var waitingForFocusChange: bool
    var sent: seq<Signal>

    constructor (ink2Build: bool)
      ensures this.ink2Build == ink2Build
      ensures !hasEdits && !hasEnteredAnnotationMode && !hasInk2Edits && !isFormFieldFocused
      ensures !menuOpen && !waitingForFocusChange && sent == []
    {
      this.ink2Build := ink2Build;
      hasEdits := false;
      hasEnteredAnnotationMode := false;
      hasInk2Edits := false;
      isFormFieldFocused := false;
      menuOpen := false;
      waitingForFocusChange := false;
      sent := [];
    }

    function HasEditsToSave(): bool
      reads this
    {
      EditsToSave(hasEnteredAnnotationMode, hasEdits, ink2Build, hasInk2Edits)
    }

    /** `waitForEdits_`: known at once with edits or without a focused field; otherwise a pending resolver. */
    method WaitForEdits() returns (answer: EditsAnswer)
      modifies this`waitingForFocusChange
      ensures HasEditsToSave() ==> answer == Known(true)
      ensures !HasEditsToSave() && !isFormFieldFocused ==> answer == Known(false)
      ensures answer.Pending? <==> !HasEditsToSave() && isFormFieldFocused
      ensures waitingForFocusChange == (old(waitingForFocusChange) || answer.Pending?)
    {
      if HasEditsToSave() {
        return Known(true);
      }
      if !isFormFieldFocused {
        return Known(false);
      }
      waitingForFocusChange := true;
      answer := Pending;
    }

    /** The continuation of `onDownloadClick_`: the menu or an ORIGINAL save, never both. */
    method OnEditsKnown(edits: bool)
      modifies this`menuOpen, this`sent
      ensures sent == old(sent) + [ClickSignal(edits)]
      ensures menuOpen == (edits || old(menuOpen))
    {
      if edits {
        menuOpen := true;
        sent := sent + [MenuShown];
      } else {
        sent := sent + [SaveRequested(Original)];
      }
    }

    /** `onDownloadClick_`. */
    method OnDownloadClick()
      modifies this`waitingForFocusChange, this`menuOpen, this`sent
      ensures HasEditsToSave() ==> sent == old(sent) + [MenuShown]
      ensures !HasEditsToSave() && !isFormFieldFocused ==> sent == old(sent) + [SaveRequested(Original)]
      ensures !HasEditsToSave() && isFormFieldFocused ==> sent == old(sent) && waitingForFocusChange
    {
      var answer := WaitForEdits();
      if answer.Known? {
        OnEditsKnown(answer.hasEdits);
      }
    }

    /**
     * The `isFormFieldFocused` observer: a pending resolver is resolved with
     * `hasEdits` (not the Ink flags) once and dropped; without one nothing
     * else happens. An observer runs only when the value changes.
     */
    method OnFormFieldFocusedChanged(focused: bool)
      requires focused != isFormFieldFocused
      modifies this`isFormFieldFocused, this`waitingForFocusChange, this`menuOpen, this`sent
      ensures isFormFieldFocused == focused && !waitingForFocusChange
      ensures old(waitingForFocusChange) ==> sent == old(sent) + [ClickSignal(hasEdits)]
      ensures !old(waitingForFocusChange) ==> sent == old(sent) && menuOpen == old(menuOpen)
    {
      isFormFieldFocused := focused;
      if !waitingForFocusChange {
        return;
      }
      waitingForFocusChange := false;
      OnEditsKnown(hasEdits);
    }

    /** `onDownloadOriginalClick_`. */
    method OnDownloadOriginalClick()
      modifies this`sent, this`menuOpen
      ensures sent == old(sent) + [SaveRequested(Original)] && !menuOpen
    {
      sent := sent + [SaveRequested(Original)];
      menuOpen := false;
    }

    /** `onDownloadEditedClick_`. */
    method OnDownloadEditedClick()
      modifies this`sent, this`menuOpen
      ensures sent == old(sent) + [SaveRequested(EditedRequest(hasEnteredAnnotationMode))] && !menuOpen
    {
      sent := sent + [SaveRequested(if hasEnteredAnnotationMode then Annotation else Edited)];
      menuOpen := false;
    }
  }

  /**
   * A click that had to wait answers once, with whatever the form field
   * committed meanwhile, when the field loses focus; focusing it again sends
   * nothing more.
   */
  method WaitingClickResolvesOnce(c: DownloadControls, editCommitted: bool)
    requires !c.HasEditsToSave() && c.isFormFieldFocused
    modifies c
    ensures c.sent == old(c.sent) + [ClickSignal(editCommitted)]
    ensures !c.waitingForFocusChange
  {
    c.OnDownloadClick();
    c.hasEdits := editCommitted;
    c.OnFormFieldFocusedChanged(false);
    c.OnFormFieldFocusedChanged(true);
  }
}
