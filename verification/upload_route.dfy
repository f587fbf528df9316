/** The upload endpoint (frontend/app/api/upload/route.ts): it checks the form
    for a file, derives a safe extension from the file's name, names the stored
    file after the clock and six random bytes, and answers with its public
    location. The directory creation and the file write are I/O; their outcome
    is a parameter. */
module UploadRoute {
  import opened JsValue

  newtype byte = x: int | 0 <= x < 256

  datatype File = File(name: string, bytes: seq<byte>)

  /** What `formData.get("file")` gives: nothing, a text field, or a file. */
  datatype FormField = Missing | TextField(text: string) | FileField(file: File)

  /** The request: a body that is not form data (with the error's text), or
      the form's `file` field. */
  datatype Request = Unparsable(err: string) | Form(field: FormField)

  datatype Response =
    | Saved(url: string, path: string, name: string, size: nat)
    | BadRequest(error: string)
    | ServerError(error: string, details: string)

  function Status(r: Response): int
  {
    match r
    case Saved(_, _, _, _) => 200
    case BadRequest(_) => 400
    case ServerError(_, _) => 500
  }

  const MissingFile := "Missing 'file' in form-data"
  const DefaultName := "upload.png"
  const DefaultExt := "png"
  const UploadsPrefix := "/uploads/"
  /** `${err}` for the TypeError thrown when a text field is read as a file. */
  const UploadFailed := "Upload failed"
  const NotAFile := "TypeError: file.arrayBuffer is not a function"

  // ---------------------------------------------------------------------------
  // The extension

  /** `s.split(".").pop()`: the text after the last dot, or all of `s`. */
  function LastSegment(s: string): (r: string)
    ensures |r| <= |s| && r == s[|s| - |r|..]
    ensures '.' !in r
    ensures |r| < |s| ==> s[|s| - |r| - 1] == '.'
  {
    if s == [] then []
    else if s[|s| - 1] == '.' then []
    else
      var r0 := LastSegment(s[..|s| - 1]);
      assert s[..|s| - 1][|s| - 1 - |r0|..] + [s[|s| - 1]] == s[|s| - |r0| - 1..];
      r0 + [s[|s| - 1]]
  }

  predicate IsUpper(c: char) { 'A' <= c <= 'Z' }
  predicate IsSafeChar(c: char) { ('a' <= c <= 'z') || ('0' <= c <= '9') }
  /** What the case-insensitive class `[a-z0-9]` matches: ASCII letters and digits. */
  predicate IsAlnum(c: char) { IsSafeChar(c) || IsUpper(c) }
  /** The two non-ASCII characters whose lower-case form holds an ASCII letter. */
  predicate IsSpecialCapital(c: char) { c == '\U{0130}' || c == '\U{212A}' }

  /** The ASCII lower-case of one character: a capital becomes the small
      letter at the same place in the alphabet; anything else is unchanged. */
  function AsciiLower(c: char): (r: char)
    ensures IsUpper(c) ==> 'a' <= r <= 'z' && r as int - 'a' as int == c as int - 'A' as int
    ensures !IsUpper(c) ==> r == c
    ensures IsAlnum(c) ==> IsSafeChar(r)
  {
    if IsUpper(c) then (c as int + 32) as char else c
  }

  /** String.prototype.toLowerCase on one character, exact for every character
      whose lower-case form contains an ASCII letter or digit: the ASCII
      capitals, U+0130 (lower case: "i" and a combining dot) and the Kelvin
      sign U+212A (lower case: "k"). Other characters are kept as they are. */
  function LowerChar(c: char): (r: string)
    ensures !IsSpecialCapital(c) ==> r == [AsciiLower(c)]
    ensures c == '\U{0130}' ==> r == ['i', '\U{0307}']
    ensures c == '\U{212A}' ==> r == ['k']
    ensures forall k :: 0 <= k < |r| ==> !IsUpper(r[k])
  {
    if IsUpper(c) then [(c as int + 32) as char]
    else if c == '\U{0130}' then ['i', '\U{0307}']
    else if c == '\U{212A}' then ['k']
    else [c]
  }

  /** `toLowerCase()`: character by character; without the two special
      capitals the result has the input's length and holds the ASCII
      lower-case of each input character at the same position. */
  function ToLower(s: string): (r: string)
    ensures |r| >= |s|
    ensures forall k :: 0 <= k < |r| ==> !IsUpper(r[k])
    ensures (forall k :: 0 <= k < |s| ==> !IsSpecialCapital(s[k])) ==>
      |r| == |s| && forall k :: 0 <= k < |s| ==> r[k] == AsciiLower(s[k])
  {
    if s == [] then []
    else
      var rest := ToLower(s[1..]);
      assert (forall k :: 0 <= k < |s| ==> !IsSpecialCapital(s[k])) ==> forall k :: 0 <= k < |s| - 1 ==> !IsSpecialCapital(s[1..][k]);
      LowerChar(s[0]) + rest
  }

  /** `replace(/[^a-z0-9]/gi, "")`: keeps exactly the ASCII letters (of either
      case) and digits, in order. */
  function KeepAlnum(s: string): (r: string)
    ensures |r| <= |s|
    ensures forall k :: 0 <= k < |r| ==> IsAlnum(r[k])
    ensures forall c :: c in r <==> c in s && IsAlnum(c)
    ensures (forall k :: 0 <= k < |s| ==> !IsUpper(s[k])) ==> forall k :: 0 <= k < |r| ==> IsSafeChar(r[k])
  {
    if s == [] then []
    else
      var rest := KeepAlnum(s[1..]);
      assert forall c :: c in s <==> c == s[0] || c in s[1..];
      (if IsAlnum(s[0]) then [s[0]] else []) + rest
  }

  /** Stripping works character by character, so it keeps the order of what
      it keeps: the result for two pieces is the two results in sequence. */
  lemma {:induction false} KeepAlnumConcat(a: string, b: string)
    ensures KeepAlnum(a + b) == KeepAlnum(a) + KeepAlnum(b)
    decreases |a|
  {
    if a == [] {
      assert a + b == b;
    } else {
      var ab := a + b;
      assert ab[0] == a[0];
      assert ab[1..] == a[1..] + b;
      KeepAlnumConcat(a[1..], b);
    }
  }

  /** `ext`: the lower-cased last segment of the name; "png" when the name is
      empty (it is read as "upload.png") or its last segment is empty. */
  function Extension(name: string): (r: string)
    ensures forall k :: 0 <= k < |r| ==> !IsUpper(r[k])
    ensures name != "" && LastSegment(name) != "" ==> r == ToLower(LastSegment(name))
    ensures name == "" || LastSegment(name) == "" ==> r == DefaultExt
  {
    EmptyNameExtension();
    PngIsLower();
    ToLower(SegmentOrPng(LastSegment(OriginalName(name))))
  }

  /** An empty name is read as "upload.png", whose last segment is "png". */
  lemma EmptyNameExtension()
    ensures ToLower(SegmentOrPng(LastSegment(OriginalName("")))) == DefaultExt
  {
    assert OriginalName("") == "upload." + DefaultExt;
    LastSegmentAfterDot("upload.", DefaultExt);
    PngIsLower();
  }

  lemma PngIsLower()
    ensures ToLower(DefaultExt) == DefaultExt && KeepAlnum(DefaultExt) == DefaultExt
  {
    LowerKeepsSafe(DefaultExt);
    KeepAlnumKeepsSafe(DefaultExt);
  }

  /** `file.name || "upload.png"` */
  function OriginalName(name: string): string
  {
    if name == "" then DefaultName else name
  }

  /** `segment || "png"` */
  function SegmentOrPng(segment: string): string
  {
    if segment == "" then DefaultExt else segment
  }

  /** `safeExt`: the extension's ASCII letters and digits, or "png". */
  function SafeExt(name: string): (r: string)
    ensures |r| > 0
    ensures forall k :: 0 <= k < |r| ==> IsSafeChar(r[k])
    ensures '.' !in r
  {
    var kept := KeepAlnum(Extension(name));
    var r := if kept == "" then DefaultExt else kept;
    assert forall k :: 0 <= k < |r| ==> IsSafeChar(r[k]);
    r
  }

  /** A name ending in a dot and a safe extension keeps that extension: the
      sanitising changes nothing that is already safe. */
  lemma SafeExtensionKept(base: string, e: string)
    requires e != [] && forall k :: 0 <= k < |e| ==> IsSafeChar(e[k])
    ensures SafeExt(base + "." + e) == e
  {
    assert base + "." + e == (base + ".") + e;
    LastSegmentAfterDot(base + ".", e);
    LowerKeepsSafe(e);
    KeepAlnumKeepsSafe(e);
  }

  /** The segment after a dot that is followed by no other dot. */
  lemma {:induction false} LastSegmentAfterDot(prefix: string, e: string)
    requires |prefix| > 0 && prefix[|prefix| - 1] == '.' && '.' !in e
    ensures LastSegment(prefix + e) == e
    decreases |e|
  {
    var s := prefix + e;
    if e != [] {
      assert s[..|s| - 1] == prefix + e[..|e| - 1];
      assert s[|s| - 1] == e[|e| - 1];
      LastSegmentAfterDot(prefix, e[..|e| - 1]);
      assert e == e[..|e| - 1] + [e[|e| - 1]];
    } else {
      assert s == prefix;
    }
  }

  lemma {:induction false} LowerKeepsSafe(s: string)
    requires forall k :: 0 <= k < |s| ==> IsSafeChar(s[k])
    ensures ToLower(s) == s
  {
    if s != [] {
      LowerKeepsSafe(s[1..]);
      assert s == [s[0]] + s[1..];
    }
  }

  lemma {:induction false} KeepAlnumKeepsSafe(s: string)
    requires forall k :: 0 <= k < |s| ==> IsSafeChar(s[k])
    ensures KeepAlnum(s) == s
  {
    if s != [] {
      KeepAlnumKeepsSafe(s[1..]);
      assert s == [s[0]] + s[1..];
    }
  }

  /** A character that neither survives the sanitising itself nor lower-cases
      to one that does. */
  predicate Stripped(c: char)
  {
    !IsSafeChar(c) && !IsUpper(c) && c != '\U{0130}' && c != '\U{212A}'
  }

  /** A name made only of such characters (dots included) falls back to "png". */
  lemma NothingSafeIsPng(name: string)
    requires name != ""
    requires forall k :: 0 <= k < |name| ==> Stripped(name[k])
    ensures SafeExt(name) == "png"
  {
    var segment := LastSegment(name);
    if segment == "" {
      LowerKeepsSafe(DefaultExt);
      KeepAlnumKeepsSafe(DefaultExt);
    } else {
      forall k | 0 <= k < |segment|
        ensures Stripped(segment[k])
      {
        assert segment[k] == name[|name| - |segment| + k];
      }
      StrippedVanishes(segment);
    }
  }

  lemma {:induction false} StrippedVanishes(s: string)
    requires forall k :: 0 <= k < |s| ==> Stripped(s[k])
    ensures ToLower(s) == s
    ensures KeepAlnum(s) == ""
  {
    if s != [] {
      StrippedVanishes(s[1..]);
      assert s == [s[0]] + s[1..];
    }
  }

  /** Lower-casing works character by character. */
  lemma {:induction false} ToLowerConcat(a: string, b: string)
    ensures ToLower(a + b) == ToLower(a) + ToLower(b)
    decreases |a|
  {
    if a == [] {
      assert a + b == b;
    } else {
      var ab := a + b;
      assert ab[0] == a[0];
      assert ab[1..] == a[1..] + b;
      ToLowerConcat(a[1..], b);
    }
  }

  /** Without the two special capitals, lower-casing and then stripping gives
      the same as stripping and then lower-casing. */
  lemma {:induction false} LowerThenStrip(s: string)
    requires forall k :: 0 <= k < |s| ==> !IsSpecialCapital(s[k])
    ensures KeepAlnum(ToLower(s)) == ToLower(KeepAlnum(s))
  {
    if s != [] {
      var c := s[0];
      var head := if IsAlnum(c) then [c] else [];
      assert forall k :: 0 <= k < |s[1..]| ==> s[1..][k] == s[k + 1];
      LowerThenStrip(s[1..]);
      assert ToLower(s) == [AsciiLower(c)] + ToLower(s[1..]);
      KeepAlnumConcat([AsciiLower(c)], ToLower(s[1..]));
      assert KeepAlnum([AsciiLower(c)]) == (if IsAlnum(c) then [AsciiLower(c)] else []);
      assert KeepAlnum(s) == head + KeepAlnum(s[1..]);
      ToLowerConcat(head, KeepAlnum(s[1..]));
    }
  }

  /** The safe extension of a name ending in a dot and a segment `e` without
      dots: the letters and digits of `e` lower-cased, or "png" when none
      remain (an empty segment included). */
  lemma SafeExtBySegment(base: string, e: string)
    requires '.' !in e
    ensures var kept := KeepAlnum(ToLower(e));
      SafeExt(base + "." + e) == if kept == [] then DefaultExt else kept
  {
    assert base + "." + e == (base + ".") + e;
    LastSegmentAfterDot(base + ".", e);
    PngIsLower();
  }

  /** Without the two special capitals in `e`, the same read the other way
      round: the ASCII lower-case of the letters and digits of `e`, in order
      (see `ToLower`), or "png" when `e` has none. */
  lemma SafeExtOfSegment(base: string, e: string)
    requires '.' !in e
    requires forall k :: 0 <= k < |e| ==> !IsSpecialCapital(e[k])
    ensures var kept := KeepAlnum(e);
      SafeExt(base + "." + e) == if kept == [] then DefaultExt else ToLower(kept)
  {
    SafeExtBySegment(base, e);
    StripLowerEmpty(e);
  }

  lemma StripLowerEmpty(e: string)
    requires forall k :: 0 <= k < |e| ==> !IsSpecialCapital(e[k])
    ensures KeepAlnum(ToLower(e)) == [] <==> KeepAlnum(e) == []
    ensures KeepAlnum(ToLower(e)) == ToLower(KeepAlnum(e))
  {
    LowerThenStrip(e);
    assert |ToLower(KeepAlnum(e))| >= |KeepAlnum(e)|;
  }

  /** An extension of ASCII letters and digits is kept, lower-cased. */
  lemma SafeExtOfAlnum(base: string, e: string)
    requires e != [] && forall k :: 0 <= k < |e| ==> IsAlnum(e[k])
    ensures |SafeExt(base + "." + e)| == |e|
    ensures forall k :: 0 <= k < |e| ==> SafeExt(base + "." + e)[k] == AsciiLower(e[k])
  {
    KeepAlnumKeepsAlnum(e);
    assert forall k :: 0 <= k < |e| ==> e[k] != '.' && !IsSpecialCapital(e[k]);
    SafeExtOfSegment(base, e);
  }

  lemma {:induction false} KeepAlnumKeepsAlnum(s: string)
    requires forall k :: 0 <= k < |s| ==> IsAlnum(s[k])
    ensures KeepAlnum(s) == s
  {
    if s != [] {
      KeepAlnumKeepsAlnum(s[1..]);
      assert s == [s[0]] + s[1..];
    }
  }

  /** A last segment none of whose characters survives stripping, such as the
      "@@" of "photo.@@", falls back to "png". */
  lemma SegmentStrippedIsPng(base: string, e: string)
    requires '.' !in e
    requires forall k :: 0 <= k < |e| ==> Stripped(e[k])
    ensures SafeExt(base + "." + e) == DefaultExt
  {
    StrippedVanishes(e);
    SafeExtBySegment(base, e);
  }

  /** `SafeExtOfAlnum` with the expected result named, for worked examples. */
  lemma AlnumExtensionIs(base: string, e: string, lowered: string)
    requires e != [] && forall k :: 0 <= k < |e| ==> IsAlnum(e[k])
    requires |lowered| == |e| && forall k :: 0 <= k < |e| ==> lowered[k] == AsciiLower(e[k])
    ensures SafeExt(base + "." + e) == lowered
  {
    SafeExtOfAlnum(base, e);
  }

  /** Upper-case letters are lower-cased: "x.JPG" is stored as "jpg". */
  lemma UpperExtensionExample()
    ensures SafeExt("x.JPG") == "jpg"
  {
    assert "x.JPG" == "x" + "." + "JPG";
    AlnumExtensionIs("x", "JPG", "jpg");
  }

  /** An extension with nothing safe falls back: "photo.@@" gives "png". */
  lemma NoSafeCharExample()
    ensures SafeExt("photo.@@") == "png"
  {
    assert "photo.@@" == "photo" + "." + "@@";
    SegmentStrippedIsPng("photo", "@@");
  }

  /** An empty name is stored as "upload.png", so its extension is "png". */
  lemma EmptyNameIsPng()
    ensures SafeExt("") == "png"
  {
    assert OriginalName("") == "upload." + "png";
    LastSegmentAfterDot("upload.", "png");
    LowerKeepsSafe(DefaultExt);
    KeepAlnumKeepsSafe(DefaultExt);
  }

  /** A name ending in a dot has an empty last segment, so its extension is "png". */
  lemma TrailingDotIsPng(name: string)
    requires name != [] && name[|name| - 1] == '.'
    ensures SafeExt(name) == "png"
  {
    assert LastSegment(name) == [];
    LowerKeepsSafe(DefaultExt);
    KeepAlnumKeepsSafe(DefaultExt);
  }

  // ---------------------------------------------------------------------------
  // Naming and the response

  const HexDigits := "0123456789abcdef"

  /** `toString("hex")`: two lower-case hex digits per byte. */
  function Hex(bs: seq<byte>): (r: string)
    ensures |r| == 2 * |bs|
    ensures forall k :: 0 <= k < |r| ==> r[k] in HexDigits
  {
    if bs == [] then []
    else [HexDigits[bs[0] as int / 16], HexDigits[bs[0] as int % 16]] + Hex(bs[1..])
  }

  /** The stored file's name: the clock, a dash, the random bytes in hex, a
      dot and the safe extension. */
  function FileName(now: nat, random: seq<byte>, name: string): string
  {
    NatToString(now) + "-" + Hex(random) + "." + SafeExt(name)
  }

  /** The stored name starts with the timestamp and a dash, continues with
      two hex digits per random byte, and ends with a dot and the safe
      extension, which is therefore its last dot-separated segment. */
  lemma FileNameShape(now: nat, random: seq<byte>, name: string)
    ensures var r := FileName(now, random, name);
      var t := NatToString(now);
      var h := 2 * |random|;
      && |r| == |t| + h + 2 + |SafeExt(name)|
      && r[..|t|] == t && r[|t|] == '-'
      && (forall k :: |t| < k <= |t| + h ==> r[k] in HexDigits)
      && r[|t| + h + 1] == '.'
      && LastSegment(r) == SafeExt(name)
  {
    var t, x, e := NatToString(now), Hex(random), SafeExt(name);
    var r := FileName(now, random, name);
    assert r == t + "-" + x + "." + e;
    NameParts(t, x, e);
    assert |x| == 2 * |random|;
    forall k | |t| < k <= |t| + |x|
      ensures r[k] in HexDigits
    {
      assert r[k] == x[k - |t| - 1];
    }
  }

  /** The parts of `t-x.e` sit where they should, and `e` is its last segment. */
  lemma NameParts(t: string, x: string, e: string)
    requires '.' !in e
    ensures var r := t + "-" + x + "." + e;
      && |r| == |t| + |x| + 2 + |e|
      && r[..|t|] == t && r[|t|] == '-'
      && (forall k :: |t| < k <= |t| + |x| ==> r[k] == x[k - |t| - 1])
      && r[|t| + |x| + 1] == '.'
      && LastSegment(r) == e
  {
    var stem := t + "-" + x + ".";
    assert t + "-" + x + "." + e == stem + e;
    LastSegmentAfterDot(stem, e);
  }

  /** The success reply for a stored file: the public path is the uploads
      folder plus the name, and the URL is that path behind the application's
      base URL (nothing when the variable is unset or empty). */
  function Stored(filename: string, size: nat, appUrl: Option<string>): (r: Response)
    ensures r.Saved? && r.name == filename && r.size == size
    ensures r.path == UploadsPrefix + filename
    ensures r.url == (if appUrl.Some? then appUrl.value else "") + r.path
  {
    var publicPath := UploadsPrefix + filename;
    var absolute := (if appUrl.Some? && appUrl.value != "" then appUrl.value else "") + publicPath;
    Saved(if absolute != "" then absolute else publicPath, publicPath, filename, size)
  }

  /** The handler. `now` is Date.now(), `random` the random bytes, `appUrl`
      the NEXT_PUBLIC_APP_URL variable (None when unset) and `writeError` the
      text of the error the directory creation or the write threw, if any. */
  function Handle(req: Request, now: nat, random: seq<byte>, appUrl: Option<string>, writeError: Option<string>): (r: Response)
    ensures req.Form? && (req.field.Missing? || req.field == TextField("")) ==> r == BadRequest(MissingFile)
    ensures req.Unparsable? ==> r == ServerError(UploadFailed, req.err)
    ensures req.Form? && req.field.TextField? && req.field.text != "" ==> r == ServerError(UploadFailed, NotAFile)
    ensures req.Form? && req.field.FileField? && writeError.Some? ==> r == ServerError(UploadFailed, writeError.value)
    ensures req.Form? && req.field.FileField? && writeError.None? ==>
      r == Stored(FileName(now, random, req.field.file.name), |req.field.file.bytes|, appUrl)
  {
    match req
    case Unparsable(err) => ServerError(UploadFailed, err)
    case Form(field) =>
      match field
      case Missing => BadRequest(MissingFile)
      case TextField(text) => if text == "" then BadRequest(MissingFile) else ServerError(UploadFailed, NotAFile)
      case FileField(file) =>
        match writeError
        case Some(err) => ServerError(UploadFailed, err)
        case None => Stored(FileName(now, random, file.name), |file.bytes|, appUrl)
  }

  /** A saved upload's path, name and URL fit together: the path is the
      uploads folder plus the name, the URL ends with the path, the size is
      the file's byte count, and the text after the name's last dot is the
      safe extension of the uploaded file's name. */
  lemma SavedResponseShape(req: Request, now: nat, random: seq<byte>, appUrl: Option<string>, writeError: Option<string>)
    requires Handle(req, now, random, appUrl, writeError).Saved?
    ensures var r := Handle(req, now, random, appUrl, writeError);
      && req.Form? && req.field.FileField? && writeError.None?
      && r.path == UploadsPrefix + r.name
      && |r.url| >= |r.path| && r.url[|r.url| - |r.path|..] == r.path
      && r.size == |req.field.file.bytes|
      && LastSegment(r.name) == SafeExt(req.field.file.name)
      && Status(r) == 200
  {
    assert req.Form? && req.field.FileField? && writeError.None?;
    var r := Handle(req, now, random, appUrl, writeError);
    assert r == Stored(FileName(now, random, req.field.file.name), |req.field.file.bytes|, appUrl);
    var e := SafeExt(req.field.file.name);
    var stem := NatToString(now) + "-" + Hex(random) + ".";
    assert r.name == stem + e;
    LastSegmentAfterDot(stem, e);
  }
}
