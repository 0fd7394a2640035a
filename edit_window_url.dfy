/** The native side of the secondary windows: the edit window's URL, whose
    `imagePath` query value carries the image path escaped character by
    character, and the two window commands' "already open" branches. The
    window toolkit is an object whose open windows, focus requests,
    emitted events and built windows are recorded; whether a focus, an
    emit or a build fails is an input. */
module EditWindowUrl {
  import opened Wrappers

  const EditLabel: string := "edit"
  const SettingsLabel: string := "settings"
  const EditBaseUrl: string := "index.html?window=edit"
  const ImagePathParam: string := "&imagePath="
  const SettingsUrl: string := "index.html?window=settings"
  const ImagePathChanged: string := "image-path-changed"

  /** What one path character becomes in the URL. */
  function Escape(c: char): string {
    match c
    case '\\' => "/"
    case ' ' => "%20"
    case '#' => "%23"
    case '%' => "%25"
    case '&' => "%26"
    case '+' => "%2B"
    case '=' => "%3D"
    case '?' => "%3F"
    case _ => [c]
  }

  function Encoded(path: string): string
    decreases |path|
  {
    if path == [] then [] else Escape(path[0]) + Encoded(path[1..])
  }

  /** The encoding loop of `open_edit_window`; each character's `match`
      arm is `Escape`. */
  method EncodePath(path: string) returns (encoded: string)
    ensures encoded == Encoded(path)
  {
    encoded := "";
    for i := 0 to |path|
      invariant encoded + Encoded(path[i..]) == Encoded(path)
    {
      assert path[i..][1..] == path[i + 1..];
      var c := path[i];
      ghost var before := encoded;
      encoded := encoded + Escape(c);
      assert Encoded(path[i..]) == Escape(c) + Encoded(path[i + 1..]);
      assert before + (Escape(c) + Encoded(path[i + 1..])) == (before + Escape(c)) + Encoded(path[i + 1..]);
    }
    assert path[|path|..] == [];
  }

  /** `url`: the edit window's address, with the escaped path only when a
      path is given. */
  method EditWindowUrl(imagePath: Option<string>) returns (url: string)
    ensures imagePath.None? ==> url == EditBaseUrl
    ensures imagePath.Some? ==> url == EditBaseUrl + ImagePathParam + Encoded(imagePath.value)
  {
    url := EditBaseUrl;
    if imagePath.Some? {
      var encoded := EncodePath(imagePath.value);
      url := url + ImagePathParam + encoded;
    }
  }

  // ---- What the encoding guarantees -----------------------------------------

  /** The characters that would end or split a query value. */
  predicate Unsafe(c: char) {
    c == '\\' || c == ' ' || c == '#' || c == '&' || c == '+' || c == '=' || c == '?'
  }

  predicate IsEscape(s: string) {
    s == "%20" || s == "%23" || s == "%25" || s == "%26" || s == "%2B" || s == "%3D" || s == "%3F"
  }

  lemma EscapeShape(c: char)
    ensures forall k :: 0 <= k < |Escape(c)| ==> !Unsafe(Escape(c)[k])
    ensures forall k :: 0 <= k < |Escape(c)| && Escape(c)[k] == '%' ==> k == 0 && IsEscape(Escape(c))
    ensures Escape(c) == [c] <==> !Unsafe(c) && c != '%'
  {
  }

  predicate Safe(e: string) {
    forall k :: 0 <= k < |e| ==> !Unsafe(e[k])
  }

  predicate PercentsEscaped(e: string) {
    forall k :: 0 <= k < |e| && e[k] == '%' ==> k + 3 <= |e| && IsEscape(e[k..k + 3])
  }

  /** The escaped path contains none of the unsafe characters, and every
      '%' in it starts one of the seven escapes. */
  lemma {:induction false} EncodedIsSafe(path: string)
    ensures Safe(Encoded(path)) && PercentsEscaped(Encoded(path))
    decreases |path|
  {
    if path != [] {
      EncodedIsSafe(path[1..]);
      EscapeIsSafe(path[0]);
      SafeConcat(Escape(path[0]), Encoded(path[1..]));
    }
  }

  lemma EscapeIsSafe(c: char)
    ensures Safe(Escape(c)) && PercentsEscaped(Escape(c))
  {
    EscapeShape(c);
    var h := Escape(c);
    forall k | 0 <= k < |h| && h[k] == '%'
      ensures k + 3 <= |h| && IsEscape(h[k..k + 3])
    {
      assert h[0..3] == h;
    }
  }

  /** Both guarantees survive concatenation: an escape never straddles the
      seam because each one lies wholly inside its part. */
  lemma SafeConcat(a: string, b: string)
    requires Safe(a) && PercentsEscaped(a) && Safe(b) && PercentsEscaped(b)
    ensures Safe(a + b) && PercentsEscaped(a + b)
  {
    var e := a + b;
    forall k | 0 <= k < |e| && e[k] == '%'
      ensures k + 3 <= |e| && IsEscape(e[k..k + 3])
    {
      if k < |a| {
        assert a[k] == '%';
        assert e[k..k + 3] == a[k..k + 3];
      } else {
        var j := k - |a|;
        assert b[j] == '%';
        assert e[k..k + 3] == b[j..j + 3];
      }
    }
    forall k | 0 <= k < |e|
      ensures !Unsafe(e[k])
    {
      if k >= |a| {
        assert e[k] == b[k - |a|];
      } else {
        assert e[k] == a[k];
      }
    }
  }

  // ---- Reading the value back ----------------------------------------------

  function HexValue(c: char): int {
    if '0' <= c <= '9' then c as int - '0' as int
    else if 'a' <= c <= 'f' then c as int - 'a' as int + 10
    else if 'A' <= c <= 'F' then c as int - 'A' as int + 10
    else -1
  }

  predicate IsHexPair(s: string) {
    |s| >= 3 && s[0] == '%' && HexValue(s[1]) >= 0 && HexValue(s[2]) >= 0
  }

  function PairValue(s: string): char
    requires IsHexPair(s)
  {
    (HexValue(s[1]) * 16 + HexValue(s[2])) as char
  }

  /** Form decoding as `URLSearchParams` applies it to a value: '+' is a
      space, a '%' with two hex digits is the byte they name, anything
      else is kept. */
  function FormDecode(s: string): string
    decreases |s|
  {
    if s == [] then []
    else if s[0] == '+' then " " + FormDecode(s[1..])
    else if IsHexPair(s) then [PairValue(s)] + FormDecode(s[3..])
    else [s[0]] + FormDecode(s[1..])
  }

  /** `decodeURIComponent`: `None` is the `URIError` a '%' without two hex
      digits raises. */
  function DecodeUriComponent(s: string): Option<string>
    decreases |s|
  {
    if s == [] then Some([])
    else if s[0] == '%' then
      if IsHexPair(s) then
        match DecodeUriComponent(s[3..])
        case Some(r) => Some([PairValue(s)] + r)
        case None => None
      else None
    else
      match DecodeUriComponent(s[1..])
      case Some(r) => Some([s[0]] + r)
      case None => None
  }

  function Slashed(path: string): (r: string)
    ensures |r| == |path|
  {
    seq(|path|, k requires 0 <= k < |path| => if path[k] == '\\' then '/' else path[k])
  }

  /** One form decoding undoes the escaping: the value read back is the
      path with its backslashes turned into slashes. */
  lemma {:induction false} FormDecodeInvertsEncoded(path: string)
    ensures FormDecode(Encoded(path)) == Slashed(path)
    decreases |path|
  {
    if path != [] {
      FormDecodeInvertsEncoded(path[1..]);
      FormDecodeEscape(path[0], Encoded(path[1..]));
      assert Slashed(path) == [Slashed(path)[0]] + Slashed(path[1..]);
    }
  }

  /** Form decoding reads one escaped character back, a backslash as the
      slash it was written as. */
  lemma FormDecodeEscape(c: char, rest: string)
    ensures FormDecode(Escape(c) + rest) == [if c == '\\' then '/' else c] + FormDecode(rest)
  {
    var e := Escape(c) + rest;
    if |Escape(c)| == 3 {
      assert e[3..] == rest;
      assert IsHexPair(e) && PairValue(e) == c;
    } else {
      assert e[1..] == rest;
    }
  }

  /** Where the edit window ends up after reading its own URL: no path, a
      thrown `URIError`, or the path it loads. */
  datatype PathRead = NoPath | DecodeThrows | LoadPath(path: string)

  function Backslashed(s: string): (r: string)
    ensures |r| == |s|
  {
    seq(|s|, k requires 0 <= k < |s| => if s[k] == '/' then '\\' else s[k])
  }

  /** The edit window's reading of `imagePath` as written: the query value
      (already form-decoded) is passed through `decodeURIComponent` once
      more, and slashes become backslashes. An absent or empty value loads
      nothing. This decodes the path twice, so a path whose '%' is
      followed by two hex digits comes back altered, and one whose '%' is
      not throws. */
  function ReadImagePath(pathFromUrl: Option<string>): (r: PathRead)
    ensures pathFromUrl.None? || pathFromUrl == Some("") ==> r == NoPath
  {
    if pathFromUrl.None? || pathFromUrl.value == "" then NoPath
    else match DecodeUriComponent(pathFromUrl.value)
      case None => DecodeThrows
      case Some(decoded) => LoadPath(Backslashed(decoded))
  }

  lemma {:induction false} DecodeWithoutPercent(s: string)
    requires forall k :: 0 <= k < |s| ==> s[k] != '%'
    ensures DecodeUriComponent(s) == Some(s)
    decreases |s|
  {
    if s != [] {
      assert forall k :: 0 <= k < |s[1..]| ==> s[1..][k] == s[k + 1];
      DecodeWithoutPercent(s[1..]);
      assert s == [s[0]] + s[1..];
    }
  }

  /** A path without '%' survives the trip to the edit window, with every
      slash read back as a backslash. */
  lemma PathWithoutPercentArrives(path: string)
    requires |path| > 0 && forall k :: 0 <= k < |path| ==> path[k] != '%'
    ensures ReadImagePath(Some(FormDecode(Encoded(path)))) == LoadPath(Backslashed(Slashed(path)))
  {
    FormDecodeInvertsEncoded(path);
    DecodeWithoutPercent(Slashed(path));
  }

  /** The second decoding, exhibited: the path `a%41` is loaded as `aA`. */
  lemma DoubleDecodeAltersPercent()
    ensures ReadImagePath(Some(FormDecode(Encoded("a%41")))) == LoadPath("aA")
  {
    var p := "a%41";
    FormDecodeInvertsEncoded(p);
    assert Slashed(p) == p;
    var q := "%41";
    assert HexValue(q[1]) == 4 && HexValue(q[2]) == 1;
    assert IsHexPair(q);
    assert PairValue(q) == 'A';
    assert q[3..] == [];
    assert DecodeUriComponent(q[3..]) == Some([]);
    var ch := PairValue(q);
    assert DecodeUriComponent(q) == Some([ch] + []);
    assert [ch] + [] == [ch];
    assert [ch] == "A";
    assert p[1..] == q;
    assert DecodeUriComponent(p) == Some(['a'] + "A");
    assert ['a'] + "A" == "aA";
    assert Backslashed("aA") == "aA";
  }

  /** And the path `a%` makes the edit window throw. */
  lemma DoubleDecodeThrows()
    ensures ReadImagePath(Some(FormDecode(Encoded("a%")))) == DecodeThrows
  {
    var p := "a%";
    FormDecodeInvertsEncoded(p);
    assert Slashed(p) == p;
    assert DecodeUriComponent(p) == None by {
      assert p[1..] == "%";
    }
  }

  // ---- The window commands -------------------------------------------------

  datatype Emission = Emission(window: string, event: string, payload: string)

  /** A window the builder made: label, URL and title. */
  datatype BuiltWindow = BuiltWindow(windowLabel: string, url: string, title: string)

  class Windows {
    /** Labels of the open windows. */
    var open: set<string>
    /** Windows brought to the front, oldest first. */
    var focused: seq<string>
    var emitted: seq<Emission>
    var built: seq<BuiltWindow>

    /** `open_settings_window`: an open settings window is only focused;
        otherwise one is built. A failed focus or build is returned. */
    method OpenSettingsWindow(focusError: Option<string>, buildError: Option<string>)
      returns (r: Result<(), string>)
      modifies this
      ensures emitted == old(emitted)
      ensures SettingsLabel in old(open) ==>
        && open == old(open) && built == old(built)
        && (focusError.Some? ==> r == Err(focusError.value) && focused == old(focused))
        && (focusError.None? ==> r == Ok(()) && focused == old(focused) + [SettingsLabel])
      ensures SettingsLabel !in old(open) ==>
        && focused == old(focused)
        && (buildError.Some? ==> r == Err(buildError.value) && open == old(open) && built == old(built))
        && (buildError.None? ==>
              && r == Ok(()) && open == old(open) + {SettingsLabel}
              && built == old(built) + [BuiltWindow(SettingsLabel, SettingsUrl, "Settings")])
    {
      if SettingsLabel in open {
        if focusError.Some? {
          return Err(focusError.value);
        }
        focused := focused + [SettingsLabel];
        return Ok(());
      }
      if buildError.Some? {
        return Err(buildError.value);
      }
      open := open + {SettingsLabel};
      built := built + [BuiltWindow(SettingsLabel, SettingsUrl, "Settings")];
      r := Ok(());
    }

    /** `open_edit_window`: an open edit window is focused and, given a
        path, sent it raw as `image-path-changed`, and nothing is built;
        otherwise a window is built at the URL carrying the escaped path. */
    method OpenEditWindow(imagePath: Option<string>, focusError: Option<string>,
                          emitError: Option<string>, buildError: Option<string>)
      returns (r: Result<(), string>)
      modifies this
      ensures EditLabel in old(open) ==>
        && open == old(open) && built == old(built)
        && (focusError.Some? ==> r == Err(focusError.value) && focused == old(focused) && emitted == old(emitted))
        && (focusError.None? ==> focused == old(focused) + [EditLabel])
        && (focusError.None? && imagePath.None? ==> r == Ok(()) && emitted == old(emitted))
        && (focusError.None? && imagePath.Some? && emitError.Some? ==>
              r == Err(emitError.value) && emitted == old(emitted))
        && (focusError.None? && imagePath.Some? && emitError.None? ==>
              r == Ok(()) && emitted == old(emitted) + [Emission(EditLabel, ImagePathChanged, imagePath.value)])
      ensures EditLabel !in old(open) ==>
        && focused == old(focused) && emitted == old(emitted)
        && (buildError.Some? ==> r == Err(buildError.value) && open == old(open) && built == old(built))
        && (buildError.None? ==>
              && r == Ok(()) && open == old(open) + {EditLabel}
              && built == old(built) + [BuiltWindow(EditLabel,
                   if imagePath.None? then EditBaseUrl else EditBaseUrl + ImagePathParam + Encoded(imagePath.value),
                   "Edit Image")])
    {
      if EditLabel in open {
        if focusError.Some? {
          return Err(focusError.value);
        }
        focused := focused + [EditLabel];
        if imagePath.Some? {
          if emitError.Some? {
            return Err(emitError.value);
          }
          emitted := emitted + [Emission(EditLabel, ImagePathChanged, imagePath.value)];
        }
        return Ok(());
      }
      var url := EditWindowUrl(imagePath);
      if buildError.Some? {
        return Err(buildError.value);
      }
      open := open + {EditLabel};
      built := built + [BuiltWindow(EditLabel, url, "Edit Image")];
      r := Ok(());
    }
  }
}
