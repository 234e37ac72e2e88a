// The state-keeping parts of the PDF viewer element (pdf/pdf_viewer.ts): the
// file name shown for a URL, the save mode and the `.pdf` extension fix-up,
// the sidenav state persisted in local storage and parked during annotation
// mode, the password-dialog handshake, the edit and beep bookkeeping, and the
// rotation undo of "reset view".
//
// `decodeURIComponent` is a parameter that answers `None` where JavaScript
// throws a URIError; the params parser, the plugin and the controllers are
// left outside.

module PdfViewer {

  import opened Strings

  // ---------------------------------------------------------------------------
  // getFilenameFromURL

  predicate IsQueryOrFragmentStart(ch: char)
  {
    ch == '#' || ch == '?'
  }

  predicate IsPathSeparator(ch: char)
  {
    ch == '/' || ch == '\\'
  }

  /** `url.split(/#|\?/)[0]`: the text before the first '#' or '?'. */
  function MainUrl(url: string): (r: string)
    ensures |r| <= |url| && r == url[..|r|]
    ensures forall k :: 0 <= k < |r| ==> !IsQueryOrFragmentStart(r[k])
    ensures |r| < |url| ==> IsQueryOrFragmentStart(url[|r|])
  {
    if url == [] || IsQueryOrFragmentStart(url[0]) then []
    else [url[0]] + MainUrl(url[1..])
  }

  /** The last element of `s.split(/\/|\\/)`: the text after the last '/' or '\'. */
  function LastComponent(s: string): (r: string)
    ensures |r| <= |s| && r == s[|s| - |r|..]
    ensures forall k :: 0 <= k < |r| ==> !IsPathSeparator(r[k])
    ensures |r| < |s| ==> IsPathSeparator(s[|s| - |r| - 1])
  {
    if s == [] || IsPathSeparator(s[|s| - 1]) then []
    else LastComponent(s[..|s| - 1]) + [s[|s| - 1]]
  }

  /** The file name before decoding: the last path component of the URL without query or fragment. */
  function RawFilename(url: string): (r: string)
    ensures |r| <= |MainUrl(url)|
  {
    LastComponent(MainUrl(url))
  }

  /** `getFilenameFromURL`: the decoded file name, or the raw one when decoding throws. */
  function GetFilenameFromUrl(url: string, decodeUriComponent: string -> Option<string>): (r: string)
    ensures decodeUriComponent(RawFilename(url)).None? ==> r == RawFilename(url)
    ensures decodeUriComponent(RawFilename(url)).Some? ==> r == decodeUriComponent(RawFilename(url)).value
  {
    var filename := RawFilename(url);
    match decodeUriComponent(filename)
    case Some(decoded) => decoded
    case None => filename
  }

  /**
   * The raw file name is what remains of the URL after cutting the query or
   * fragment and the directories: `url == directories + name + rest`, and the
   * name holds neither a separator nor a '#' or '?'. (That the directories end
   * in a separator and the rest starts at a '#' or '?' is stated by
   * `LastComponent` and `MainUrl`.)
   */
  lemma {:induction false} FilenameDecomposition(url: string)
    ensures url == url[..|MainUrl(url)| - |RawFilename(url)|] + RawFilename(url) + url[|MainUrl(url)|..]
    ensures forall k :: 0 <= k < |RawFilename(url)| ==> !IsPathSeparator(RawFilename(url)[k])
    ensures forall k :: 0 <= k < |RawFilename(url)| ==> !IsQueryOrFragmentStart(RawFilename(url)[k])
  {
    var main := MainUrl(url);
    var name := RawFilename(url);
    SplitThree(url, |main| - |name|, |main|);
    assert url[|main| - |name|..|main|] == name;
    NameHasNoQueryStart(main, name);
  }

  lemma SplitThree(s: string, i: nat, j: nat)
    requires i <= j <= |s|
    ensures s == s[..i] + s[i..j] + s[j..]
  {
  }

  lemma NameHasNoQueryStart(main: string, name: string)
    requires forall k :: 0 <= k < |main| ==> !IsQueryOrFragmentStart(main[k])
    requires |name| <= |main| && name == main[|main| - |name|..]
    ensures forall k :: 0 <= k < |name| ==> !IsQueryOrFragmentStart(name[k])
  {
    forall k | 0 <= k < |name|
      ensures !IsQueryOrFragmentStart(name[k])
    {
      assert name[k] == main[|main| - |name| + k];
    }
  }

  // ---------------------------------------------------------------------------
  // Saving

  datatype SaveRequestType = Annotation | Original | Edited

  /**
   * The save mode `onSave_` picks: the annotated document once annotation mode
   * was entered, else the edited one if there are edits, else the original.
   */
  function SaveModeFor(hasEnteredAnnotationMode: bool, hasEdits: bool): (r: SaveRequestType)
    ensures r == Annotation <==> hasEnteredAnnotationMode
    ensures r == Edited <==> !hasEnteredAnnotationMode && hasEdits
    ensures r == Original <==> !hasEnteredAnnotationMode && !hasEdits
  {
    if hasEnteredAnnotationMode then Annotation else if hasEdits then Edited else Original
  }

  /** The `.pdf` check of `save_`: a case-insensitive suffix test. */
  predicate HasPdfExtension(fileName: string)
  {
    EndsWith(ToLowerAscii(fileName), ".pdf")
  }

  /** `save_`'s fix-up: a name without the extension gets exactly ".pdf" appended. */
  function EnsurePdfExtension(fileName: string): (r: string)
    ensures HasPdfExtension(r)
    ensures HasPdfExtension(fileName) ==> r == fileName
    ensures !HasPdfExtension(fileName) ==> r == fileName + ".pdf"
  {
    if HasPdfExtension(fileName) then fileName
    else
      var r := fileName + ".pdf";
      LowerOfPdfSuffix(fileName);
      r
  }

  lemma LowerOfPdfSuffix(fileName: string)
    ensures ToLowerAscii(fileName + ".pdf")[|fileName|..] == ".pdf"
  {
    var t := fileName + ".pdf";
    var n := |fileName|;
    assert t[n] == '.' && t[n + 1] == 'p' && t[n + 2] == 'd' && t[n + 3] == 'f';
    var l := ToLowerAscii(t);
    assert l[n] == '.';
    assert l[n + 1] == 'p';
    assert l[n + 2] == 'd';
    assert l[n + 3] == 'f';
    PdfSuffixAt(l, n);
  }

  lemma PdfSuffixAt(s: string, n: nat)
    requires |s| == n + 4
    requires s[n] == '.' && s[n + 1] == 'p' && s[n + 2] == 'd' && s[n + 3] == 'f'
    ensures s[n..] == ".pdf"
  {
  }

  /** Fixing a fixed name changes nothing more. */
  lemma EnsurePdfExtensionIdempotent(fileName: string)
    ensures EnsurePdfExtension(EnsurePdfExtension(fileName)) == EnsurePdfExtension(fileName)
  {
  }

  /** `save_` leaves annotation mode first only for an Ink "original" save without Ink2. */
  function ShouldExitAnnotationMode(annotationMode: bool, requestType: SaveRequestType,
                                    pdfInk2Enabled: bool): (r: bool)
    ensures r ==> annotationMode && requestType == Original
    ensures pdfInk2Enabled ==> !r
    ensures annotationMode && requestType == Original && !pdfInk2Enabled ==> r
  {
    annotationMode && requestType == Original && !pdfInk2Enabled
  }

  /** `computeAnnotationAvailable_`: annotation needs a serialisable document that had no password. */
  function AnnotationAvailable(canSerializeDocument: bool, hadPassword: bool): (r: bool)
    ensures r ==> canSerializeDocument
    ensures hadPassword ==> !r
    ensures canSerializeDocument && !hadPassword ==> r
  {
    canSerializeDocument && !hadPassword
  }

  // ---------------------------------------------------------------------------
  // The stored sidenav state

  const SidenavCollapsedKey := "sidenavCollapsed"

  /** The decimal digit value of `ch`. */
  function DigitValue(ch: char): nat
    requires '0' <= ch <= '9'
  {
    ch as int - '0' as int
  }

  /** The leading decimal digits of `s`. */
  function LeadingDigits(s: string): (r: string)
    ensures |r| <= |s| && r == s[..|r|]
    ensures forall k :: 0 <= k < |r| ==> '0' <= r[k] <= '9'
  {
    if s != [] && '0' <= s[0] <= '9' then [s[0]] + LeadingDigits(s[1..]) else []
  }

  /** The value of a run of decimal digits. */
  function DigitsValue(digits: string): nat
    requires forall k :: 0 <= k < |digits| ==> '0' <= digits[k] <= '9'
  {
    if digits == [] then 0
    else DigitsValue(digits[..|digits| - 1]) * 10 + DigitValue(digits[|digits| - 1])
  }

  /** `s` without leading white space. */
  function SkipJsWhitespace(s: string): (r: string)
    ensures |r| <= |s|
    ensures r == [] || !IsJsWhitespace(r[0])
  {
    if s != [] && IsJsWhitespace(s[0]) then SkipJsWhitespace(s[1..]) else s
  }

  /** Skipping white space leaves a suffix of the text. */
  lemma {:induction false} SkipJsWhitespaceSuffix(s: string)
    ensures SkipJsWhitespace(s) == s[|s| - |SkipJsWhitespace(s)|..]
  {
    if s != [] && IsJsWhitespace(s[0]) {
      SkipJsWhitespaceSuffix(s[1..]);
    }
  }

  /** `t` without one leading sign. */
  function UnsignedPart(t: string): (r: string)
  {
    if t != [] && (t[0] == '+' || t[0] == '-') then t[1..] else t
  }

  /** `Number.parseInt(s, 10)`, with `None` for NaN. */
  function ParseIntBase10(s: string): Option<int>
  {
    var t := SkipJsWhitespace(s);
    var digits := LeadingDigits(UnsignedPart(t));
    if digits == [] then None
    else Some(if t != [] && t[0] == '-' then -(DigitsValue(digits) as int) else DigitsValue(digits))
  }

  /** A text without any digit parses to NaN; one that starts with a digit to a non-negative number. */
  lemma ParseIntBase10Shape(s: string)
    ensures ParseIntBase10(s).Some? ==> exists k :: 0 <= k < |s| && '0' <= s[k] <= '9'
    ensures s != [] && '0' <= s[0] <= '9' ==> ParseIntBase10(s).Some? && ParseIntBase10(s).value >= 0
  {
    SkipJsWhitespaceSuffix(s);
  }

  /** `Boolean(n)`: NaN and zero are false. */
  function NumberToBoolean(n: Option<int>): bool
  {
    n.Some? && n.value != 0
  }

  /** What `localStorage.getItem` answers; a missing entry reads as the text "null". */
  function StoredText(storage: map<string, string>, key: string): string
  {
    if key in storage then storage[key] else "null"
  }

  /** The constructor's reading of the stored sidenav state. */
  function ReadSidenavCollapsed(storage: map<string, string>): bool
  {
    NumberToBoolean(ParseIntBase10(StoredText(storage, SidenavCollapsedKey)))
  }

  /** The text `onSidenavToggleClick_` stores. */
  function SidenavCollapsedText(collapsed: bool): (r: string)
    ensures r == "1" || r == "0"
  {
    if collapsed then "1" else "0"
  }

  /** A digit with nothing before it is not skipped as white space. */
  lemma SkipNothingBeforeDigit(d: char)
    requires '0' <= d <= '9'
    ensures SkipJsWhitespace([d]) == [d]
  {
    assert !IsJsWhitespace(d);
  }

  /** A lone digit is its own run of leading digits. */
  lemma LoneDigitRun(d: char)
    requires '0' <= d <= '9'
    ensures LeadingDigits([d]) == [d]
    ensures DigitsValue([d]) == DigitValue(d)
  {
    assert [d][1..] == [];
    assert [d][..0] == [];
  }

  /** A single decimal digit parses to its value. */
  lemma ParseSingleDigit(d: char)
    requires '0' <= d <= '9'
    ensures ParseIntBase10([d]) == Some(DigitValue(d))
  {
    SkipNothingBeforeDigit(d);
    assert UnsignedPart([d]) == [d];
    LoneDigitRun(d);
  }

  /** A missing entry, read as "null", parses to NaN. */
  lemma ParseNullIsNaN()
    ensures ParseIntBase10("null") == None
  {
    assert !IsJsWhitespace('n');
    assert SkipJsWhitespace("null") == "null";
    assert UnsignedPart("null") == "null";
    assert LeadingDigits("null") == [];
  }

  /** Storing the state and reading it back gives the same state; nothing stored reads as expanded. */
  lemma SidenavStorageRoundTrip(collapsed: bool, storage: map<string, string>)
    ensures ReadSidenavCollapsed(storage[SidenavCollapsedKey := SidenavCollapsedText(collapsed)]) == collapsed
    ensures SidenavCollapsedKey !in storage ==> !ReadSidenavCollapsed(storage)
  {
    ParseSingleDigit(if collapsed then '1' else '0');
    ParseNullIsNaN();
  }

  // ---------------------------------------------------------------------------
  // The viewer element

  /** What a password request does. */
  datatype PasswordRequestOutcome = PromptedForPassword | DeniedPassword

  class Viewer {
    /** `browserApi.getStreamInfo().streamUrl`. */
    const streamUrl: string
    var storage: map<string, string>
    var sidenavCollapsed: bool
    var sidenavRestoreState: bool
    var annotationMode: bool
    var hasEnteredAnnotationMode: bool
    var hasEdits: bool
    var beepCount: nat
    var showPasswordDialog: bool
    var twoUpViewEnabled: bool
    /** `viewport.getClockwiseRotations()`. */
    var clockwiseRotations: int
    var canSerializeDocument: bool
    /** `hadPassword_`: declared false and never assigned by the element. */
    var hadPassword: bool

    /** The constructor: the flags start false and the sidenav state is read from storage. */
    constructor (streamUrl: string, storage: map<string, string>)
      ensures this.streamUrl == streamUrl && this.storage == storage
      ensures sidenavCollapsed == ReadSidenavCollapsed(storage)
      ensures !annotationMode && !hasEnteredAnnotationMode && !hasEdits && !showPasswordDialog
      ensures !twoUpViewEnabled && beepCount == 0 && clockwiseRotations == 0
      ensures !canSerializeDocument && !hadPassword
    {
      var collapsed := ReadSidenavCollapsed(storage);
      this.streamUrl := streamUrl;
      this.storage := storage;
      sidenavCollapsed := collapsed;
      sidenavRestoreState := false;
      annotationMode := false;
      hasEnteredAnnotationMode := false;
      hasEdits := false;
      beepCount := 0;
      showPasswordDialog := false;
      twoUpViewEnabled := false;
      clockwiseRotations := 0;
      canSerializeDocument := false;
      hadPassword := false;
    }

    /** `annotationAvailable_`, the property computed by `computeAnnotationAvailable_`. */
    function IsAnnotationAvailable(): bool
      reads this
    {
      AnnotationAvailable(canSerializeDocument, hadPassword)
    }

    /** `setDocumentMetadata_`, as far as annotation goes: the document's serialisability is adopted. */
    method SetDocumentMetadata(canSerialize: bool)
      modifies this`canSerializeDocument
      ensures canSerializeDocument == canSerialize
    {
      canSerializeDocument := canSerialize;
    }

    /** `init`: the URL parameters decide whether the sidenav shows. */
    method Init(showSidenav: bool)
      modifies this`sidenavCollapsed
      ensures sidenavCollapsed == !showSidenav
    {
      sidenavCollapsed := !showSidenav;
    }

    /** `onSidenavToggleClick_`: flips the state and persists it. */
    method OnSidenavToggleClick()
      modifies this`sidenavCollapsed, this`storage
      ensures sidenavCollapsed == !old(sidenavCollapsed)
      ensures storage == old(storage)[SidenavCollapsedKey := SidenavCollapsedText(sidenavCollapsed)]
      ensures ReadSidenavCollapsed(storage) == sidenavCollapsed
    {
      sidenavCollapsed := !sidenavCollapsed;
      storage := storage[SidenavCollapsedKey := if sidenavCollapsed then "1" else "0"];
      SidenavStorageRoundTrip(sidenavCollapsed, old(storage));
    }

    /** Entering Ink annotation mode parks the sidenav state and collapses it. */
    method EnterAnnotationMode()
      modifies this`sidenavRestoreState, this`sidenavCollapsed, this`annotationMode,
               this`hasEnteredAnnotationMode
      ensures sidenavRestoreState == old(sidenavCollapsed) && sidenavCollapsed
      ensures annotationMode && hasEnteredAnnotationMode
    {
      sidenavRestoreState := sidenavCollapsed;
      sidenavCollapsed := true;
      annotationMode := true;
      hasEnteredAnnotationMode := true;
    }

    /** With Ink2 the toggle only records the new mode; the sidenav is left alone. */
    method ToggleAnnotationModeInk2(mode: bool)
      modifies this`annotationMode
      ensures annotationMode == mode
    {
      annotationMode := mode;
    }

    /** `restoreSidenav_`. */
    method RestoreSidenav()
      modifies this`sidenavCollapsed
      ensures sidenavCollapsed == sidenavRestoreState
    {
      sidenavCollapsed := sidenavRestoreState;
    }

    /** `exitAnnotationMode_`: outside annotation mode nothing happens; otherwise it ends and the sidenav comes back. */
    method ExitAnnotationMode()
      modifies this`annotationMode, this`sidenavCollapsed
      ensures !annotationMode
      ensures sidenavCollapsed == if old(annotationMode) then sidenavRestoreState else old(sidenavCollapsed)
    {
      if !annotationMode {
        return;
      }
      annotationMode := false;
      RestoreSidenav();
    }

    /** The `setIsEditing` message: editing can be entered, never left. */
    method SetIsEditing()
      modifies this`hasEdits
      ensures hasEdits
    {
      hasEdits := true;
    }

    /** `handleBeep_`. */
    method HandleBeep()
      modifies this`beepCount
      ensures beepCount == old(beepCount) + 1
    {
      beepCount := beepCount + 1;
    }

    /** `handlePasswordRequest_`: the first request prompts, a request while the dialog is up denies. */
    method HandlePasswordRequest() returns (outcome: PasswordRequestOutcome)
      modifies this`showPasswordDialog
      ensures showPasswordDialog
      ensures outcome == (if old(showPasswordDialog) then DeniedPassword else PromptedForPassword)
    {
      if !showPasswordDialog {
        showPasswordDialog := true;
        outcome := PromptedForPassword;
      } else {
        outcome := DeniedPassword;
      }
    }

    /** `onPasswordDialogClose_`. */
    method OnPasswordDialogClose()
      modifies this`showPasswordDialog
      ensures !showPasswordDialog
    {
      showPasswordDialog := false;
    }

    /** `onSave_`: the save mode for this viewer's stream, nothing for another stream. */
    method OnSave(requestStreamUrl: string) returns (mode: Option<SaveRequestType>)
      ensures requestStreamUrl != streamUrl ==> mode.None?
      ensures requestStreamUrl == streamUrl ==> mode == Some(SaveModeFor(hasEnteredAnnotationMode, hasEdits))
    {
      if requestStreamUrl != streamUrl {
        return None;
      }
      var saveMode;
      if hasEnteredAnnotationMode {
        saveMode := Annotation;
      } else if hasEdits {
        saveMode := Edited;
      } else {
        saveMode := Original;
      }
      mode := Some(saveMode);
    }

    /**
     * The Ink prelude of `save_`: an "original" save in annotation mode
     * without Ink2 first leaves annotation mode, so the plugin never saves
     * while annotating (the source asserts `!annotationMode_` afterwards).
     */
    method ExitAnnotationModeBeforeSave(requestType: SaveRequestType, pdfInk2Enabled: bool) returns (exited: bool)
      modifies this`annotationMode, this`sidenavCollapsed
      ensures exited == ShouldExitAnnotationMode(old(annotationMode), requestType, pdfInk2Enabled)
      ensures exited ==> !annotationMode && sidenavCollapsed == sidenavRestoreState
      ensures !exited ==> annotationMode == old(annotationMode) && sidenavCollapsed == old(sidenavCollapsed)
      ensures requestType == Original && !pdfInk2Enabled ==> !annotationMode
    {
      exited := annotationMode && requestType == Original;
      exited := exited && !pdfInk2Enabled;
      if exited {
        ExitAnnotationMode();
      }
    }

    /** `rotateClockwise`, with the viewport's count taken modulo 4 (the viewport is not part of this model). */
    method RotateClockwise()
      requires 0 <= clockwiseRotations < 4
      modifies this`clockwiseRotations
      ensures clockwiseRotations == (old(clockwiseRotations) + 1) % 4
    {
      clockwiseRotations := (clockwiseRotations + 1) % 4;
    }

    /** `rotateCounterclockwise`, with the viewport's count taken modulo 4 (the viewport is not part of this model). */
    method RotateCounterclockwise()
      requires 0 <= clockwiseRotations < 4
      modifies this`clockwiseRotations
      ensures clockwiseRotations == (old(clockwiseRotations) + 3) % 4
    {
      clockwiseRotations := (clockwiseRotations + 3) % 4;
    }

    /**
     * `onResetView_`: leaves two-up view and undoes the rotation (the viewport
     * keeps it in 0..3). The source asks the controller for `setTwoUpView(false)`
     * and reads the flag back from the viewport later (`updateUiForViewportChange`);
     * the model clears the flag at once.
     */
    method OnResetView()
      requires 0 <= clockwiseRotations < 4
      modifies this`twoUpViewEnabled, this`clockwiseRotations
      ensures !twoUpViewEnabled
      ensures clockwiseRotations == 0
    {
      if twoUpViewEnabled {
        twoUpViewEnabled := false;
      }
      var rotations := clockwiseRotations;
      if rotations == 0 {
      } else if rotations == 1 {
        RotateCounterclockwise();
      } else if rotations == 2 {
        RotateCounterclockwise();
        RotateCounterclockwise();
      } else {
        RotateClockwise();
      }
    }
  }

  /** Entering annotation mode and leaving it again gives the sidenav back its old state. */
  method AnnotationModeRoundTrip(v: Viewer)
    modifies v
    ensures v.sidenavCollapsed == old(v.sidenavCollapsed)
    ensures !v.annotationMode && v.hasEnteredAnnotationMode
  {
    v.EnterAnnotationMode();
    v.ExitAnnotationMode();
  }

  /**
   * No handler of the element sets `hadPassword_`, so once the metadata has
   * arrived annotation is offered exactly for a serialisable document, and
   * never before.
   */
  method MetadataDecidesAnnotation(streamUrl: string, storage: map<string, string>, canSerialize: bool)
    returns (before: bool, after: bool)
    ensures !before
    ensures after == canSerialize
  {
    var v := new Viewer(streamUrl, storage);
    before := v.IsAnnotationAvailable();
    v.SetDocumentMetadata(canSerialize);
    after := v.IsAnnotationAvailable();
  }
}
