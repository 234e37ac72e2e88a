// The CSS image helpers of the WebUI resources (ui/webui/resources/js/icon.ts):
// backslash escaping of a URL inside `url("...")`, the `image-set(...)` built
// for every supported scale factor, and the theme-URL switch of `getImage`.
//
// The escaping follows the "Resource Locators: the <url> type" section of CSS
// Values and Units Module Level 3: parentheses, commas, white space and both
// quote characters (and the backslash itself) are preceded by a backslash.
//
// Scale factors are JavaScript numbers; the model carries each as the text
// its `toString` gives, since that text is all the helpers use. The platform
// flags and `window.devicePixelRatio` are parameters.

module Icon {

  import opened Strings

  // ---------------------------------------------------------------------------
  // getSupportedScaleFactors

  /** `getSupportedScaleFactors`: 1 except on iOS, then 2 on desktop or the device pixel ratio elsewhere. */
  function GetSupportedScaleFactors(isIOS: bool, isAndroid: bool, devicePixelRatio: string): (r: seq<string>)
    ensures |r| >= 1
    ensures !isIOS && !isAndroid ==> r == ["1", "2"]
    ensures !isIOS && isAndroid ==> r == ["1", devicePixelRatio]
    ensures isIOS ==> r == [devicePixelRatio]
  {
    var withOne: seq<string> := if !isIOS then ["1"] else [];
    if !isIOS && !isAndroid then withOne + ["2"] else withOne + [devicePixelRatio]
  }

  // ---------------------------------------------------------------------------
  // getUrlForCss

  /** The characters the escaping regular expression matches: `( ) , ' " \` and `\s`. */
  predicate NeedsEscape(ch: char)
  {
    ch == '(' || ch == ')' || ch == ',' || ch == '\'' || ch == '"' || ch == '\\' || IsJsWhitespace(ch)
  }

  /** `s.replace(/(\(|\)|\,|\s|\'|\"|\\)/g, '\\$1')`. */
  function EscapeForCss(s: string): (r: string)
    ensures |r| == |s| + CountEscaped(s)
  {
    if s == [] then []
    else if NeedsEscape(s[0]) then ['\\', s[0]] + EscapeForCss(s[1..])
    else [s[0]] + EscapeForCss(s[1..])
  }

  /** How many characters of `s` get a backslash. */
  function CountEscaped(s: string): (r: nat)
    ensures r <= |s|
  {
    if s == [] then 0 else (if NeedsEscape(s[0]) then 1 else 0) + CountEscaped(s[1..])
  }

  /** Reading escaped text back: a backslash stands for the character after it. */
  function UnescapeCss(t: string): (r: string)
    ensures |r| <= |t|
    decreases |t|
  {
    if t == [] then []
    else if t[0] == '\\' && |t| >= 2 then [t[1]] + UnescapeCss(t[2..])
    else [t[0]] + UnescapeCss(t[1..])
  }

  /** Deleting each inserted backslash gives back the original text. */
  lemma {:induction false} UnescapeEscape(s: string)
    ensures UnescapeCss(EscapeForCss(s)) == s
  {
    if s != [] {
      UnescapeEscape(s[1..]);
      var rest := EscapeForCss(s[1..]);
      if NeedsEscape(s[0]) {
        assert EscapeForCss(s) == ['\\', s[0]] + rest;
        assert (['\\', s[0]] + rest)[2..] == rest;
      } else {
        assert EscapeForCss(s) == [s[0]] + rest;
        assert ([s[0]] + rest)[1..] == rest;
      }
    }
  }

  /** So different URLs never give the same escaped text. */
  lemma EscapeInjective(s1: string, s2: string)
    ensures EscapeForCss(s1) == EscapeForCss(s2) ==> s1 == s2
  {
    UnescapeEscape(s1);
    UnescapeEscape(s2);
  }

  /** Every special character of the escaped text is escaped: none appears outside a backslash pair. */
  predicate WellEscaped(t: string)
    decreases |t|
  {
    if t == [] then true
    else if t[0] == '\\' then |t| >= 2 && WellEscaped(t[2..])
    else !NeedsEscape(t[0]) && WellEscaped(t[1..])
  }

  lemma {:induction false} EscapeIsWellEscaped(s: string)
    ensures WellEscaped(EscapeForCss(s))
  {
    if s != [] {
      EscapeIsWellEscaped(s[1..]);
      var rest := EscapeForCss(s[1..]);
      if NeedsEscape(s[0]) {
        assert (['\\', s[0]] + rest)[2..] == rest;
      } else {
        assert ([s[0]] + rest)[1..] == rest;
      }
    }
  }

  const UrlOpen := "url(\""
  const UrlClose := "\")"

  /** `getUrlForCss`: the escaped URL inside `url("` and `")`. */
  function GetUrlForCss(s: string): (r: string)
    ensures StartsWith(r, UrlOpen) && EndsWith(r, UrlClose)
    ensures |r| == |UrlOpen| + |EscapeForCss(s)| + |UrlClose|
    ensures r[|UrlOpen|..|r| - |UrlClose|] == EscapeForCss(s)
  {
    var r := UrlOpen + EscapeForCss(s) + UrlClose;
    assert r[|UrlOpen|..|r| - |UrlClose|] == EscapeForCss(s);
    assert r[..|UrlOpen|] == UrlOpen;
    assert r[|r| - |UrlClose|..] == UrlClose;
    r
  }

  /** The text between `url("` and `")` reads back as the URL. */
  lemma UrlForCssRoundTrip(s: string)
    ensures var r := GetUrlForCss(s);
      UnescapeCss(r[|UrlOpen|..|r| - |UrlClose|]) == s
  {
    UnescapeEscape(s);
  }

  // ---------------------------------------------------------------------------
  // getImageSet

  const ScaleFactorPlaceholder := "SCALEFACTOR"

  /** `path` with the placeholder at `index` replaced by `factor` ('scalefactor' has the same length). */
  function ScaledPath(path: string, index: nat, factor: string): (r: string)
    requires OccursAt(path, ScaleFactorPlaceholder, index)
    ensures StartsWith(r, path[..index])
    ensures EndsWith(r, path[index + |ScaleFactorPlaceholder|..])
    ensures |r| == |path| - |ScaleFactorPlaceholder| + |factor|
  {
    var r := path[..index] + factor + path[index + |"scalefactor"|..];
    assert r[..index] == path[..index];
    assert r[|r| - (|path| - index - 11)..] == path[index + 11..];
    r
  }

  /** One image-set entry: the CSS URL of the scaled path and `<factor>x`. */
  function ImageSetEntry(path: string, index: nat, factor: string): (r: string)
    requires OccursAt(path, ScaleFactorPlaceholder, index)
    ensures StartsWith(r, GetUrlForCss(ScaledPath(path, index, factor)))
    ensures EndsWith(r, " " + factor + "x")
  {
    var url := GetUrlForCss(ScaledPath(path, index, factor));
    var r := url + " " + factor + "x";
    assert r[..|url|] == url;
    assert r[|r| - |" " + factor + "x"|..] == " " + factor + "x";
    r
  }

  /** The entries of the image set, one per scale factor, in order. */
  function ImageSetEntries(path: string, index: nat, factors: seq<string>): (r: seq<string>)
    requires OccursAt(path, ScaleFactorPlaceholder, index)
    ensures |r| == |factors|
    ensures forall k :: 0 <= k < |factors| ==> r[k] == ImageSetEntry(path, index, factors[k])
  {
    seq(|factors|, k requires 0 <= k < |factors| => ImageSetEntry(path, index, factors[k]))
  }

  /** The entries joined by ", ". */
  function JoinWithCommas(entries: seq<string>): string
  {
    if |entries| == 0 then []
    else if |entries| == 1 then entries[0]
    else JoinWithCommas(entries[..|entries| - 1]) + ", " + entries[|entries| - 1]
  }

  /** What `getImageSet(path)` returns for the given scale factors. */
  function ImageSetFor(path: string, factors: seq<string>): string
  {
    var index := IndexOf(path, ScaleFactorPlaceholder);
    if index < 0 then GetUrlForCss(path)
    else "image-set(" + JoinWithCommas(ImageSetEntries(path, index, factors)) + ")"
  }

  /** Without the placeholder the path becomes a plain `url()`. */
  lemma NoPlaceholderGivesPlainUrl(path: string, factors: seq<string>)
    ensures (forall j :: 0 <= j <= |path| ==> !OccursAt(path, ScaleFactorPlaceholder, j)) ==>
              ImageSetFor(path, factors) == GetUrlForCss(path)
  {
  }

  /** With the placeholder, only its first occurrence is replaced: the kept prefix holds none. */
  lemma OnlyFirstPlaceholderReplaced(path: string, factors: seq<string>, k: nat)
    requires IndexOf(path, ScaleFactorPlaceholder) >= 0 && k < |factors|
    ensures var index := IndexOf(path, ScaleFactorPlaceholder);
      var entries := ImageSetEntries(path, index, factors);
      StartsWith(ScaledPath(path, index, factors[k]), path[..index]) &&
      EndsWith(entries[k], " " + factors[k] + "x") &&
      (forall j :: 0 <= j < index ==> !OccursAt(path, ScaleFactorPlaceholder, j))
  {
  }

  /** Appending entry `i` to the text built so far gives the first i + 1 entries joined. */
  lemma ImageSetLoopStep(entries: seq<string>, i: nat, s: string)
    requires i < |entries|
    requires s == JoinWithCommas(entries[..i]) + (if 0 < i then ", " else "")
    ensures s + entries[i] == JoinWithCommas(entries[..i + 1])
  {
    if i == 0 {
      assert entries[..1] == [entries[0]];
    } else {
      var prefix := entries[..i + 1];
      assert prefix[..|prefix| - 1] == entries[..i];
    }
  }

  /** With the placeholder present, the value is the joined entries inside `image-set(...)`. */
  lemma ImageSetForUnfold(path: string, factors: seq<string>, index: int)
    requires index == IndexOf(path, ScaleFactorPlaceholder) && index >= 0
    ensures ImageSetFor(path, factors) == "image-set(" + JoinWithCommas(ImageSetEntries(path, index, factors)) + ")"
  {
  }

  /** `getImageSet`: the loop appends each entry and a ", " after all but the last. */
  method GetImageSet(path: string, factors: seq<string>) returns (r: string)
    ensures r == ImageSetFor(path, factors)
  {
    var replaceStartIndex := IndexOf(path, ScaleFactorPlaceholder);
    if replaceStartIndex < 0 {
      return GetUrlForCss(path);
    }
    ghost var entries := ImageSetEntries(path, replaceStartIndex, factors);
    var s := "";
    var i := 0;
    while i < |factors|
      invariant 0 <= i <= |factors|
      invariant s == JoinWithCommas(entries[..i]) + (if 0 < i < |factors| then ", " else "")
    {
      var scaleFactor := factors[i];
      var pathWithScaleFactor := path[..replaceStartIndex] + scaleFactor +
                                 path[replaceStartIndex + |"scalefactor"|..];
      assert pathWithScaleFactor == ScaledPath(path, replaceStartIndex, scaleFactor);
      var entry := GetUrlForCss(pathWithScaleFactor) + " " + scaleFactor + "x";
      assert entry == entries[i];
      ImageSetLoopStep(entries, i, s);
      s := s + entry;
      ghost var joined := s;
      if i != |factors| - 1 {
        s := s + ", ";
      }
      assert s == joined + (if 0 < i + 1 < |factors| then ", " else "");
      i := i + 1;
    }
    assert entries[..|factors|] == entries;
    r := "image-set(" + s + ")";
    ImageSetForUnfold(path, factors, replaceStartIndex);
  }

  // ---------------------------------------------------------------------------
  // getImage

  const ThemePrefix := "tangram://theme"

  /** `path.slice(0, n) === prefix` for the prefix's length n: a prefix test, false for shorter paths. */
  predicate IsThemeUrl(path: string)
  {
    StartsWith(path, ThemePrefix)
  }

  /** The path with `@SCALEFACTORx` appended contains the placeholder. */
  lemma ThemePathHasPlaceholder(path: string)
    ensures IndexOf(path + "@SCALEFACTORx", ScaleFactorPlaceholder) >= 0
  {
    var p := path + "@SCALEFACTORx";
    assert p[|path| + 1..|path| + 12] == ScaleFactorPlaceholder;
    assert OccursAt(p, ScaleFactorPlaceholder, |path| + 1);
  }

  /** A text built as `image-set(` + body + `)` starts with `image-set(`. */
  lemma ImageSetTextPrefix(body: string)
    ensures StartsWith("image-set(" + body + ")", "image-set(")
  {
    assert ("image-set(" + body + ")")[..10] == "image-set(";
  }

  /** With the placeholder present, the CSS value is an `image-set(...)`. */
  lemma ImageSetStartsWithImageSet(path: string, factors: seq<string>)
    requires IndexOf(path, ScaleFactorPlaceholder) >= 0
    ensures StartsWith(ImageSetFor(path, factors), "image-set(")
  {
    ImageSetTextPrefix(JoinWithCommas(ImageSetEntries(path, IndexOf(path, ScaleFactorPlaceholder), factors)));
  }

  /** A plain `url()` value is never mistaken for an image set. */
  lemma UrlForCssIsNotImageSet(path: string)
    ensures !StartsWith(GetUrlForCss(path), "image-set(")
  {
    var r := GetUrlForCss(path);
    assert r[..|UrlOpen|] == UrlOpen;
    assert r[1] == UrlOpen[1];
  }

  /** `getImage`: an image set over the scale-factor placeholder for theme resources, a plain `url()` otherwise. */
  method GetImage(path: string, factors: seq<string>) returns (r: string)
    ensures IsThemeUrl(path) ==> r == ImageSetFor(path + "@SCALEFACTORx", factors)
    ensures !IsThemeUrl(path) ==> r == GetUrlForCss(path)
    ensures IsThemeUrl(path) <==> StartsWith(r, "image-set(")
  {
    var isChromeThemeUrl := |path| >= |ThemePrefix| && path[..|ThemePrefix|] == ThemePrefix;
    if isChromeThemeUrl {
      ThemePathHasPlaceholder(path);
      r := GetImageSet(path + "@SCALEFACTORx", factors);
      ImageSetStartsWithImageSet(path + "@SCALEFACTORx", factors);
    } else {
      r := GetUrlForCss(path);
      UrlForCssIsNotImageSet(path);
    }
  }
}
