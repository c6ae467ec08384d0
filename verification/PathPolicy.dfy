// Logical paths: validation, canonical form, and the several string tests the
// program uses to ask whether one path lies below another.
//
// A string holds one char per byte of the Go string.
module PathPolicy {
  import opened Wrappers

  datatype Error =
    | NotRelative | BadEscape | DoubleEncoding | NotUtf8
    | EmptySegment | Traversal | Backslash | DrivePath | TrailingSpaceOrDot | Control | Reserved | LeadingCharacter

  datatype Result<+T> = Ok(value: T) | Err(error: Error)

  datatype Path = Path(canonical: string, segments: seq<string>)

  datatype NamePolicy = NamePolicy(rejectDot: bool, rejectTilde: bool, rejectDollar: bool, rejectHash: bool)

  // Unicode NFC and UTF-8 validity, of which only two laws are used.
  datatype Unicode = Unicode(nfc: string -> string, valid: string -> bool)

  ghost predicate Lawful(u: Unicode) {
    && (forall s :: u.nfc(u.nfc(s)) == u.nfc(s))
    && (forall s :: u.valid(s) ==> u.valid(u.nfc(s)))
  }

  // --- strings.Split and strings.Join on "/" ---

  function Split(s: string): (r: seq<string>)
    ensures |r| >= 1
  {
    if s == "" then [""]
    else
      var rest := Split(s[1..]);
      if s[0] == '/' then [""] + rest else [[s[0]] + rest[0]] + rest[1..]
  }

  function Join(segments: seq<string>): string
    requires segments != []
  {
    if |segments| == 1 then segments[0] else segments[0] + "/" + Join(segments[1..])
  }

  predicate SlashFree(segments: seq<string>) {
    forall seg <- segments :: '/' !in seg
  }

  lemma {:induction false} SplitIsSlashFree(s: string)
    ensures SlashFree(Split(s))
  {
    if s != "" {
      SplitIsSlashFree(s[1..]);
    }
  }

  lemma {:induction false} JoinSplit(s: string)
    ensures Join(Split(s)) == s
  {
    if s != "" {
      var rest := Split(s[1..]);
      JoinSplit(s[1..]);
      if s[0] == '/' {
        assert ([""] + rest)[1..] == rest;
      } else if |rest| > 1 {
        assert ([[s[0]] + rest[0]] + rest[1..])[1..] == rest[1..];
      }
    }
  }

  lemma {:induction false} SplitOfSegment(seg: string)
    requires '/' !in seg
    ensures Split(seg) == [seg]
  {
    if seg != "" {
      assert seg[0] in seg;
      SplitOfSegment(seg[1..]);
      assert [seg[0]] + seg[1..] == seg;
    }
  }

  lemma OneSegment(s: string)
    ensures |Split(s)| == 1 <==> '/' !in s
  {
    if '/' !in s {
      SplitOfSegment(s);
    }
    if |Split(s)| == 1 {
      JoinSplit(s);
      SplitIsSlashFree(s);
      assert Split(s)[0] in Split(s);
    }
  }

  lemma HeadOfConcat(a: seq<string>, b: seq<string>)
    requires a != []
    ensures (a + b)[0] == a[0] && (a + b)[1..] == a[1..] + b
  {
  }

  // Splitting is a homomorphism: a slash separates two independent halves.
  lemma {:induction false} SplitAtSlash(a: string, b: string)
    ensures Split(a + "/" + b) == Split(a) + Split(b)
  {
    var text := a + "/" + b;
    if a == "" {
      assert text[1..] == b;
    } else {
      SplitAtSlash(a[1..], b);
      assert text[0] == a[0] && text[1..] == a[1..] + "/" + b;
      OneMoreChar(a, text, Split(b));
    }
  }

  lemma OneMoreChar(a: string, text: string, tail: seq<string>)
    requires a != "" && text != "" && text[0] == a[0] && Split(text[1..]) == Split(a[1..]) + tail
    ensures Split(text) == Split(a) + tail
  {
    var rest := Split(a[1..]);
    if a[0] != '/' {
      HeadOfConcat(rest, tail);
      assert Split(text) == [[a[0]] + (rest + tail)[0]] + (rest + tail)[1..];
    }
  }

  lemma {:induction false} SplitJoin(segments: seq<string>)
    requires segments != [] && SlashFree(segments)
    ensures Split(Join(segments)) == segments
  {
    SplitOfSegment(segments[0]);
    if |segments| > 1 {
      SplitAtSlash(segments[0], Join(segments[1..]));
      SplitJoin(segments[1..]);
    }
  }

  lemma {:induction false} JoinAppend(a: seq<string>, b: seq<string>)
    requires a != [] && b != []
    ensures Join(a + b) == Join(a) + "/" + Join(b)
  {
    if |a| == 1 {
      assert (a + b)[1..] == b;
    } else {
      assert (a + b)[1..] == a[1..] + b;
      JoinAppend(a[1..], b);
    }
  }

  // --- validation ---

  predicate IsAsciiLetter(c: char) {
    'A' <= c <= 'Z' || 'a' <= c <= 'z'
  }

  predicate HasDrivePrefix(s: string) {
    |s| >= 2 && IsAsciiLetter(s[0]) && s[1] == ':'
  }

  // unicode.IsControl on the UTF-8 bytes: C0, DEL, and the C1 pairs C2 80 to C2 9F.
  predicate HasControl(s: string) {
    exists i | 0 <= i < |s| ::
      s[i] < ' ' || s[i] == 0x7f as char
      || (s[i] == 0xc2 as char && i + 1 < |s| && 0x80 as char <= s[i + 1] <= 0x9f as char)
  }

  function Upper(c: char): char {
    if 'a' <= c <= 'z' then (c as int - 32) as char else c
  }

  // strings.EqualFold against an upper-case ASCII name; the only letter of the
  // reserved names with a further case variant is K, whose third form is the
  // Kelvin sign (bytes E2 84 AA).
  predicate EqualFold(s: string, name: string)
    decreases |name|
  {
    if name == "" then s == ""
    else if s != "" && Upper(s[0]) == name[0] then EqualFold(s[1..], name[1..])
    else name[0] == 'K' && |s| >= 3 && s[..3] == [0xe2 as char, 0x84 as char, 0xaa as char] && EqualFold(s[3..], name[1..])
  }

  function BeforeDot(s: string): string {
    if s == "" || s[0] == '.' then "" else [s[0]] + BeforeDot(s[1..])
  }

  const NamedDevices := ["CON", "PRN", "AUX", "NUL", "KON"]
  const Ports := [
    "COM1", "COM2", "COM3", "COM4", "COM5", "COM6", "COM7", "COM8", "COM9",
    "LPT1", "LPT2", "LPT3", "LPT4", "LPT5", "LPT6", "LPT7", "LPT8", "LPT9"]
  const PortAliases := [
    "KOM1", "KOM2", "KOM3", "KOM4", "KOM5", "KOM6", "KOM7", "KOM8", "KOM9",
    "KPT1", "KPT2", "KPT3", "KPT4", "KPT5", "KPT6", "KPT7", "KPT8", "KPT9"]
  const Devices := NamedDevices + Ports + PortAliases

  predicate IsReserved(s: string) {
    exists name <- Devices :: EqualFold(BeforeDot(s), name)
  }

  predicate RejectsLeading(s: string, policy: NamePolicy) {
    s != "" &&
    match s[0]
    case '.' => policy.rejectDot
    case '~' => policy.rejectTilde
    case '$' => policy.rejectDollar
    case '#' => policy.rejectHash
    case _ => false
  }

  function ValidateSegment(seg: string, policy: NamePolicy): Option<Error> {
    if seg == "" then Some(EmptySegment)
    else if seg == "." || seg == ".." then Some(Traversal)
    else if '\\' in seg then Some(Backslash)
    else if HasDrivePrefix(seg) then Some(DrivePath)
    else if seg[|seg| - 1] == ' ' || seg[|seg| - 1] == '.' then Some(TrailingSpaceOrDot)
    else if HasControl(seg) then Some(Control)
    else if IsReserved(seg) then Some(Reserved)
    else if RejectsLeading(seg, policy) then Some(LeadingCharacter)
    else None
  }

  function ValidateAll(segments: seq<string>, policy: NamePolicy): (r: Option<Error>)
    ensures r.None? <==> forall seg <- segments :: ValidateSegment(seg, policy).None?
  {
    if segments == [] then None
    else
      var first := ValidateSegment(segments[0], policy);
      if first.Some? then first else ValidateAll(segments[1..], policy)
  }

  function ParseDecoded(decoded: string, policy: NamePolicy, u: Unicode): Result<Path> {
    if !u.valid(decoded) then Err(NotUtf8)
    else
      var segments := Split(u.nfc(decoded));
      var error := ValidateAll(segments, policy);
      if error.Some? then Err(error.value) else Ok(Path("/" + Join(segments), segments))
  }

  function ParseDecodedPath(decoded: string, policy: NamePolicy, u: Unicode): Result<Path> {
    if decoded == "/" then Ok(Path("/", []))
    else if decoded == "" || decoded[0] == '/' then Err(NotRelative)
    else ParseDecoded(decoded, policy, u)
  }

  predicate IsHex(c: char) {
    '0' <= c <= '9' || 'a' <= c <= 'f' || 'A' <= c <= 'F'
  }

  function HexValue(c: char): nat
    requires IsHex(c)
  {
    if c <= '9' then c as int - '0' as int
    else if c <= 'F' then c as int - 'A' as int + 10
    else c as int - 'a' as int + 10
  }

  predicate ContainsPercentEscape(s: string) {
    exists i | 0 <= i < |s| - 2 :: s[i] == '%' && IsHex(s[i + 1]) && IsHex(s[i + 2])
  }

  // url.PathUnescape.
  function Unescape(s: string): Option<string> {
    if s == "" then Some("")
    else if s[0] != '%' then
      var rest := Unescape(s[1..]);
      if rest.Some? then Some([s[0]] + rest.value) else None
    else if |s| >= 3 && IsHex(s[1]) && IsHex(s[2]) then
      var rest := Unescape(s[3..]);
      if rest.Some? then Some([(16 * HexValue(s[1]) + HexValue(s[2])) as char] + rest.value) else None
    else None
  }

  function ParseEscapedPath(raw: string, policy: NamePolicy, u: Unicode): Result<Path> {
    if raw == "/" then Ok(Path("/", []))
    else if raw == "" || raw[0] == '/' then Err(NotRelative)
    else
      var decoded := Unescape(raw);
      if decoded.None? then Err(BadEscape)
      else if ContainsPercentEscape(decoded.value) then Err(DoubleEncoding)
      else ParseDecoded(decoded.value, policy, u)
  }

  // Exactly which segments pass.
  lemma AcceptedSegment(seg: string, policy: NamePolicy)
    ensures ValidateSegment(seg, policy).None? <==>
              && seg != "" && seg != "." && seg != ".." && '\\' !in seg
              && !(|seg| >= 2 && ('A' <= seg[0] <= 'Z' || 'a' <= seg[0] <= 'z') && seg[1] == ':')
              && seg[|seg| - 1] !in " ."
              && (forall i :: 0 <= i < |seg| ==> 32 <= seg[i] as int != 127)
              && (forall i :: 0 <= i < |seg| - 1 && seg[i] as int == 0xc2 ==> !(0x80 <= seg[i + 1] as int <= 0x9f))
              && !IsReserved(seg)
              && !(policy.rejectDot && seg[0] == '.') && !(policy.rejectTilde && seg[0] == '~')
              && !(policy.rejectDollar && seg[0] == '$') && !(policy.rejectHash && seg[0] == '#')
  {
  }

  // The same name but for the case of its letters.
  predicate SameButCase(s: string, name: string) {
    |s| == |name| && forall i :: 0 <= i < |s| ==>
      s[i] == name[i] || ('A' <= name[i] <= 'Z' && s[i] as int == name[i] as int + 32)
  }

  lemma {:induction false} CaseFolds(s: string, name: string)
    requires SameButCase(s, name) && forall i :: 0 <= i < |name| ==> 'A' <= name[i] <= 'Z' || '0' <= name[i] <= '9'
    ensures EqualFold(s, name)
    decreases |name|
  {
    if name != "" {
      CaseFolds(s[1..], name[1..]);
    }
  }

  lemma {:induction false} BeforeDotStops(base: string, rest: string)
    requires '.' !in base && (rest == "" || rest[0] == '.')
    ensures BeforeDot(base + rest) == base
  {
    if base == "" {
      assert base + rest == rest;
    } else {
      assert (base + rest)[1..] == base[1..] + rest && base == [base[0]] + base[1..];
      assert base[0] in base && forall c <- base[1..] :: c in base;
      BeforeDotStops(base[1..], rest);
    }
  }

  // A device name in any case, with or without an extension, is refused.
  lemma DeviceNamesAreRefused(name: string, base: string, rest: string, policy: NamePolicy)
    requires name in Devices && SameButCase(base, name) && (rest == "" || rest[0] == '.')
    ensures ValidateSegment(base + rest, policy).Some?
  {
    DeviceLetters(name);
    CaseFolds(base, name);
    BeforeDotStops(base, rest);
    assert IsReserved(base + rest);
  }

  predicate DeviceWord(name: string) {
    3 <= |name| <= 4 && forall i :: 0 <= i < |name| ==> 'A' <= name[i] <= 'Z' || '0' <= name[i] <= '9'
  }

  lemma PortWords()
    ensures forall name <- Ports :: DeviceWord(name)
  {
  }

  lemma AliasWords()
    ensures forall name <- PortAliases :: DeviceWord(name)
  {
  }

  lemma DeviceLetters(name: string)
    requires name in Devices
    ensures DeviceWord(name)
  {
    PortWords();
    AliasWords();
    assert name in NamedDevices || name in Ports || name in PortAliases;
  }

  lemma {:induction false} FoldKeepsLength(s: string, name: string)
    requires EqualFold(s, name) && forall i :: 0 <= i < |s| ==> s[i] as int < 128
    ensures |s| == |name|
    decreases |name|
  {
    if name != "" {
      FoldKeepsLength(s[1..], name[1..]);
    }
  }

  // Nothing else about a name is held against it: a word of five or more ASCII
  // letters and digits always passes.
  lemma WordsAreAccepted(seg: string, policy: NamePolicy)
    requires |seg| >= 5
    requires forall i :: 0 <= i < |seg| ==> 'A' <= seg[i] <= 'Z' || 'a' <= seg[i] <= 'z' || '0' <= seg[i] <= '9'
    ensures ValidateSegment(seg, policy).None?
  {
    assert seg + "" == seg;
    BeforeDotStops(seg, "");
    forall name <- Devices ensures !EqualFold(seg, name) {
      DeviceLetters(name);
      if EqualFold(seg, name) {
        FoldKeepsLength(seg, name);
      }
    }
    AcceptedSegment(seg, policy);
  }

  // --- canonical paths ---

  // A rooted path all of whose segments are non-empty; "/" has no segments.
  predicate Rooted(p: string) {
    p == "/" || (p != "" && p[0] == '/' && forall seg <- Split(p[1..]) :: seg != "")
  }

  function Segments(p: string): seq<string>
    requires Rooted(p)
  {
    if p == "/" then [] else Split(p[1..])
  }

  // canonicalPath of the authorizer: accepts a path that parses to itself.
  function CanonicalPath(value: string, policy: NamePolicy, u: Unicode): Option<string> {
    if value == "/" then Some("/")
    else if value == "" || value[0] != '/' then None
    else
      var parsed := ParseDecodedPath(value[1..], policy, u);
      if parsed.Ok? && parsed.value.canonical == value then Some(value) else None
  }

  // What a successful parse returns is rooted, made of valid segments, and its
  // segments are the ones the canonical string splits into.
  lemma ParsedShape(decoded: string, policy: NamePolicy, u: Unicode)
    requires ParseDecodedPath(decoded, policy, u).Ok?
    ensures var p := ParseDecodedPath(decoded, policy, u).value;
            && Rooted(p.canonical) && Segments(p.canonical) == p.segments
            && (forall seg <- p.segments :: ValidateSegment(seg, policy).None? && '/' !in seg)
  {
    var p := ParseDecodedPath(decoded, policy, u).value;
    if decoded != "/" {
      SplitIsSlashFree(u.nfc(decoded));
      SplitJoin(p.segments);
      assert p.canonical[1..] == Join(p.segments);
      assert p.segments[0] != "";
      assert Join(p.segments)[0] == p.segments[0][0];
    }
  }

  // Parsing a canonical path without its leading slash gives the path back.
  lemma ReparseCanonical(decoded: string, policy: NamePolicy, u: Unicode)
    requires Lawful(u) && ParseDecodedPath(decoded, policy, u).Ok?
    ensures var p := ParseDecodedPath(decoded, policy, u).value;
            && (p.canonical != "/" ==> ParseDecodedPath(p.canonical[1..], policy, u) == Ok(p))
            && CanonicalPath(p.canonical, policy, u) == Some(p.canonical)
  {
    if decoded != "/" {
      var p := ParseDecodedPath(decoded, policy, u).value;
      var text := u.nfc(decoded);
      ParsedShape(decoded, policy, u);
      JoinSplit(text);
      assert p.canonical[1..] == text;
      SplitIsSlashFree(text);
      assert p.segments[0] != "";
      assert text[0] == p.segments[0][0] by {
        assert text == Join(p.segments);
      }
      assert text[0] in p.segments[0];
    }
  }

  // The authorizer's canonicalPath gives back what it is given or nothing, and
  // what it gives is rooted and made of valid segments.
  lemma CanonicalPathMeans(value: string, policy: NamePolicy, u: Unicode)
    requires CanonicalPath(value, policy, u).Some?
    ensures CanonicalPath(value, policy, u) == Some(value) && Rooted(value)
    ensures forall seg <- Segments(value) :: ValidateSegment(seg, policy).None?
  {
    if value != "/" {
      ParsedShape(value[1..], policy, u);
    }
  }

  lemma EscapeAtHead(s: string)
    requires s != ""
    ensures s[0] == '%' && Unescape(s).Some? ==> ContainsPercentEscape(s)
    ensures ContainsPercentEscape(s[1..]) ==> ContainsPercentEscape(s)
  {
    if s[0] == '%' && Unescape(s).Some? {
      assert s[0] == '%' && IsHex(s[0 + 1]) && IsHex(s[0 + 2]);
    }
    if ContainsPercentEscape(s[1..]) {
      var i :| 0 <= i < |s[1..]| - 2 && s[1..][i] == '%' && IsHex(s[1..][i + 1]) && IsHex(s[1..][i + 2]);
      assert s[i + 1] == '%' && IsHex(s[i + 1 + 1]) && IsHex(s[i + 1 + 2]);
    }
  }

  lemma {:induction false} UnescapeStable(s: string)
    requires !ContainsPercentEscape(s) && Unescape(s).Some?
    ensures Unescape(s).value == s
  {
    if s != "" {
      EscapeAtHead(s);
      UnescapeStable(s[1..]);
    }
  }

  // An accepted escaped path was decoded exactly once: decoding the result
  // again either fails or changes nothing.
  lemma DecodedOnce(raw: string, policy: NamePolicy, u: Unicode)
    requires ParseEscapedPath(raw, policy, u).Ok? && raw != "/"
    ensures Unescape(raw).Some?
    ensures var decoded := Unescape(raw).value;
            && ParseEscapedPath(raw, policy, u) == ParseDecoded(decoded, policy, u)
            && (Unescape(decoded).Some? ==> Unescape(decoded).value == decoded)
  {
    var decoded := Unescape(raw).value;
    if Unescape(decoded).Some? {
      UnescapeStable(decoded);
    }
  }

  // --- what an escape stands for ---

  const UpperDigits := "0123456789ABCDEF"
  const LowerDigits := "0123456789abcdef"

  function HexDigit(v: nat, lower: bool): char
    requires v < 16
  {
    if lower then LowerDigits[v] else UpperDigits[v]
  }

  predicate IsBytes(s: string) {
    forall c <- s :: c as int < 256
  }

  function EscapeByte(c: char, lower: bool): string
    requires c as int < 256
  {
    ['%', HexDigit(c as int / 16, lower), HexDigit(c as int % 16, lower)]
  }

  // Percent-encoding that leaves the characters of literal alone.
  function Escape(s: string, literal: set<char>, lower: bool): string
    requires IsBytes(s)
  {
    if s == "" then ""
    else
      assert s[0] in s && forall c <- s[1..] :: c in s;
      (if s[0] in literal then [s[0]] else EscapeByte(s[0], lower)) + Escape(s[1..], literal, lower)
  }

  lemma HexRoundTrip(v: nat, lower: bool)
    requires v < 16
    ensures IsHex(HexDigit(v, lower)) && HexValue(HexDigit(v, lower)) == v
  {
    assert |UpperDigits| == 16 && |LowerDigits| == 16;
    if lower {
      assert forall i :: 0 <= i < 10 ==> LowerDigits[i] == ('0' as int + i) as char;
      assert forall i :: 10 <= i < 16 ==> LowerDigits[i] == ('a' as int + i - 10) as char;
    } else {
      assert forall i :: 0 <= i < 10 ==> UpperDigits[i] == ('0' as int + i) as char;
      assert forall i :: 10 <= i < 16 ==> UpperDigits[i] == ('A' as int + i - 10) as char;
    }
  }

  // Only the sixteen digits of either case are digits.
  lemma HexDigitsAreAll(c: char)
    requires IsHex(c)
    ensures HexValue(c) < 16 && (c == HexDigit(HexValue(c), false) || c == HexDigit(HexValue(c), true))
  {
    assert forall i :: 0 <= i < 10 ==> UpperDigits[i] == ('0' as int + i) as char;
    assert forall i :: 10 <= i < 16 ==> UpperDigits[i] == ('A' as int + i - 10) as char;
    assert forall i :: 10 <= i < 16 ==> LowerDigits[i] == ('a' as int + i - 10) as char;
  }

  lemma UnescapeByte(c: char, lower: bool, rest: string)
    requires c as int < 256 && Unescape(rest).Some?
    ensures Unescape(EscapeByte(c, lower) + rest) == Some([c] + Unescape(rest).value)
  {
    var text := EscapeByte(c, lower) + rest;
    HexRoundTrip(c as int / 16, lower);
    HexRoundTrip(c as int % 16, lower);
    assert text[0] == '%' && text[1] == HexDigit(c as int / 16, lower) && text[2] == HexDigit(c as int % 16, lower);
    assert text[3..] == rest;
  }

  // Decoding undoes encoding, whatever is left alone and whatever case the
  // digits have.
  lemma {:induction false} UnescapeEscape(s: string, literal: set<char>, lower: bool)
    requires IsBytes(s) && '%' !in literal
    ensures Unescape(Escape(s, literal, lower)) == Some(s)
  {
    if s != "" {
      assert s[0] in s && forall c <- s[1..] :: c in s;
      UnescapeEscape(s[1..], literal, lower);
      var rest := Escape(s[1..], literal, lower);
      assert [s[0]] + s[1..] == s;
      if s[0] in literal {
        assert ([s[0]] + rest)[1..] == rest;
      } else {
        UnescapeByte(s[0], lower, rest);
      }
    }
  }

  lemma EscapeStart(s: string, literal: set<char>, lower: bool)
    requires IsBytes(s) && s != ""
    ensures Escape(s, literal, lower) != "" && (Escape(s, literal, lower)[0] == s[0] || Escape(s, literal, lower)[0] == '%')
  {
  }

  // A canonical path other than the root, encoded in any way, is parsed back to
  // itself, unless its own text looks encoded.
  lemma EscapedCanonicalParses(decoded: string, policy: NamePolicy, u: Unicode, literal: set<char>, lower: bool)
    requires Lawful(u) && ParseDecodedPath(decoded, policy, u).Ok? && '%' !in literal
    requires var p := ParseDecodedPath(decoded, policy, u).value; p.canonical != "/" && IsBytes(p.canonical)
    ensures var p := ParseDecodedPath(decoded, policy, u).value;
            && IsBytes(p.canonical[1..])
            && ParseEscapedPath(Escape(p.canonical[1..], literal, lower), policy, u) ==
                 if ContainsPercentEscape(p.canonical[1..]) then Err(DoubleEncoding) else Ok(p)
  {
    var p := ParseDecodedPath(decoded, policy, u).value;
    ParsedShape(decoded, policy, u);
    ReparseCanonical(decoded, policy, u);
    RootedStart(p.canonical);
    assert forall c <- p.canonical[1..] :: c in p.canonical;
    UnescapeEscape(p.canonical[1..], literal, lower);
    EscapeStart(p.canonical[1..], literal, lower);
  }

  lemma RootedStart(p: string)
    requires Rooted(p) && p != "/"
    ensures |p| > 1 && p[1] != '/'
  {
    assert Split(p[1..])[0] in Split(p[1..]);
  }

  // A text with an escape in it looks encoded.
  lemma EscapesAreSeen(before: string, c: char, lower: bool, after: string)
    requires c as int < 256
    ensures ContainsPercentEscape(before + EscapeByte(c, lower) + after)
  {
    var text, i := before + EscapeByte(c, lower) + after, |before|;
    HexRoundTrip(c as int / 16, lower);
    HexRoundTrip(c as int % 16, lower);
    assert text[i] == '%' && text[i + 1] == HexDigit(c as int / 16, lower) && text[i + 2] == HexDigit(c as int % 16, lower);
  }

  // --- below: five string tests and one relation on segments ---

  predicate HasPrefix(s: string, prefix: string) {
    |prefix| <= |s| && s[..|prefix|] == prefix
  }

  // permission.matches and archive.within.
  predicate Matches(path: string, prefix: string) {
    prefix == "/" || path == prefix || HasPrefix(path, prefix + "/")
  }

  // The selection test of POST /api/archives.
  predicate Selected(path: string, chosen: string) {
    path == chosen || HasPrefix(path, Trimmed(chosen) + "/")
  }

  // strings.TrimSuffix(chosen, "/")
  function Trimmed(chosen: string): string {
    if chosen != "" && chosen[|chosen| - 1] == '/' then chosen[..|chosen| - 1] else chosen
  }

  predicate IsDirectChild(directory: string, candidate: string) {
    var prefix := if directory == "/" then "/" else directory + "/";
    HasPrefix(candidate, prefix) && '/' !in candidate[|prefix|..]
  }

  // The substr test of DirectoryEmpty.
  predicate LiterallyBelow(path: string, directory: string) {
    HasPrefix(path, directory + "/")
  }

  // A rooted path is the slash-joined list of its segments.
  lemma RootedJoin(p: string)
    requires Rooted(p) && p != "/"
    ensures Segments(p) != [] && p == "/" + Join(Segments(p)) && SlashFree(Segments(p))
  {
    JoinSplit(p[1..]);
    SplitIsSlashFree(p[1..]);
  }

  lemma BelowExtends(path: string, directory: string)
    requires Rooted(path) && Rooted(directory) && directory != "/" && HasPrefix(path, directory + "/")
    ensures path != "/" && Segments(path) == Segments(directory) + Split(path[|directory| + 1..])
  {
    var rest := path[|directory| + 1..];
    assert path == directory + "/" + rest;
    assert path[1..] == directory[1..] + "/" + rest;
    SplitAtSlash(directory[1..], rest);
  }

  lemma ExtensionIsBelow(path: string, directory: string)
    requires Rooted(path) && Rooted(directory) && directory != "/" && Segments(directory) < Segments(path)
    ensures HasPrefix(path, directory + "/")
  {
    RootedJoin(directory);
    RootedJoin(path);
    var more := Segments(path)[|Segments(directory)|..];
    assert Segments(path) == Segments(directory) + more;
    JoinAppend(Segments(directory), more);
    SlashedPrefix(path, directory, Join(Segments(directory)), Join(more));
  }

  lemma SlashedPrefix(path: string, directory: string, joined: string, rest: string)
    requires path == "/" + (joined + "/" + rest) && directory == "/" + joined
    ensures HasPrefix(path, directory + "/")
  {
    assert path == directory + "/" + rest;
  }

  // The core: one rooted path continues another across a slash exactly when its
  // segments properly extend the other's.
  lemma BelowIsProperPrefix(path: string, directory: string)
    requires Rooted(path) && Rooted(directory) && directory != "/"
    ensures HasPrefix(path, directory + "/") <==> Segments(directory) < Segments(path)
  {
    if HasPrefix(path, directory + "/") {
      BelowExtends(path, directory);
    }
    if Segments(directory) < Segments(path) {
      ExtensionIsBelow(path, directory);
    }
  }

  lemma SameSegments(p: string, q: string)
    requires Rooted(p) && Rooted(q) && Segments(p) == Segments(q)
    ensures p == q
  {
    if p != "/" {
      RootedJoin(p);
      RootedJoin(q);
    }
  }

  lemma MatchesIsPrefix(path: string, prefix: string)
    requires Rooted(path) && Rooted(prefix)
    ensures Matches(path, prefix) <==> Segments(prefix) <= Segments(path)
  {
    if prefix != "/" {
      BelowIsProperPrefix(path, prefix);
      if Segments(prefix) == Segments(path) {
        SameSegments(path, prefix);
      }
    }
  }

  lemma TrimmedMeans(chosen: string)
    requires Rooted(chosen)
    ensures Trimmed(chosen) == if chosen == "/" then "" else chosen
  {
    if chosen != "/" {
      NoTrailingSlash(chosen);
    }
  }

  lemma SelectedIsPrefix(path: string, chosen: string)
    requires Rooted(path) && Rooted(chosen)
    ensures Selected(path, chosen) <==> Segments(chosen) <= Segments(path)
  {
    MatchesIsPrefix(path, chosen);
    TrimmedMeans(chosen);
    if chosen == "/" {
      assert "" + "/" == "/";
      assert HasPrefix(path, "/");
    }
  }

  lemma {:induction false} LastOfJoin(segments: seq<string>)
    requires segments != [] && segments[|segments| - 1] != ""
    ensures var last := segments[|segments| - 1];
            Join(segments) != "" && Join(segments)[|Join(segments)| - 1] == last[|last| - 1]
  {
    if |segments| > 1 {
      LastOfJoin(segments[1..]);
    }
  }

  lemma NoTrailingSlash(p: string)
    requires Rooted(p) && p != "/"
    ensures p[|p| - 1] != '/'
  {
    RootedJoin(p);
    var segments := Segments(p);
    assert segments[|segments| - 1] in segments;
    LastOfJoin(segments);
    assert segments[|segments| - 1][|segments[|segments| - 1]| - 1] in segments[|segments| - 1];
  }

  lemma LiterallyBelowIsProperPrefix(path: string, directory: string)
    requires Rooted(path) && Rooted(directory) && directory != "/"
    ensures LiterallyBelow(path, directory) <==> Segments(directory) < Segments(path)
  {
    BelowIsProperPrefix(path, directory);
  }

  // The listing test agrees with "exactly one segment longer" except that it
  // counts the root as a child of itself.
  lemma DirectChildIsOneLonger(directory: string, candidate: string)
    requires Rooted(directory) && Rooted(candidate)
    ensures IsDirectChild(directory, candidate) <==>
              || (directory == "/" && candidate == "/")
              || (Segments(directory) < Segments(candidate) && |Segments(candidate)| == |Segments(directory)| + 1)
  {
    if directory == "/" {
      if candidate != "/" {
        OneSegment(candidate[1..]);
      }
    } else {
      BelowIsProperPrefix(candidate, directory);
      if HasPrefix(candidate, directory + "/") {
        BelowExtends(candidate, directory);
        OneSegment(candidate[|directory| + 1..]);
      }
    }
  }

  // --- path.Clean and the archive's own check ---

  // path.Clean on the segments of a rooted path.
  function CleanSegments(segments: seq<string>, done: seq<string>): seq<string>
    decreases |segments|
  {
    if segments == [] then done
    else if segments[0] == "" || segments[0] == "." then CleanSegments(segments[1..], done)
    else if segments[0] == ".." then
      CleanSegments(segments[1..], if done == [] then [] else done[..|done| - 1])
    else CleanSegments(segments[1..], done + [segments[0]])
  }

  function Clean(p: string): string
    requires p != "" && p[0] == '/'
  {
    var kept := CleanSegments(Split(p[1..]), []);
    if kept == [] then "/" else "/" + Join(kept)
  }

  predicate SafeLogical(v: string) {
    && v != "" && v[0] == '/' && '\\' !in v && '\0' !in v
    && (forall seg <- Split(v[1..]) :: !((seg == "" && v != "/") || seg == "." || seg == ".."))
    && Clean(v) == v
  }

  // Segments that path.Clean leaves alone.
  predicate Plain(seg: string) {
    seg != "" && seg != "." && seg != ".."
  }

  lemma {:induction false} CleanKeeps(segments: seq<string>, done: seq<string>)
    requires forall seg <- segments :: Plain(seg)
    ensures CleanSegments(segments, done) == done + segments
    decreases |segments|
  {
    if segments != [] {
      assert segments[0] in segments && forall seg <- segments[1..] :: seg in segments;
      CleanKeeps(segments[1..], done + [segments[0]]);
    }
  }

  // path.Clean's rewriting rules, which determine it: empty and "." segments
  // go, ".." takes the segment before it, and at the root it goes too.
  lemma {:induction false} CleanInTwo(a: seq<string>, b: seq<string>, done: seq<string>)
    ensures CleanSegments(a + b, done) == CleanSegments(b, CleanSegments(a, done))
    decreases |a|
  {
    if a == [] {
      assert a + b == b;
    } else {
      assert (a + b)[0] == a[0] && (a + b)[1..] == a[1..] + b;
      var next := if a[0] == "" || a[0] == "." then done
                  else if a[0] == ".." then (if done == [] then [] else done[..|done| - 1])
                  else done + [a[0]];
      CleanInTwo(a[1..], b, next);
    }
  }

  lemma CleanOne(seg: string, done: seq<string>)
    ensures (seg == "" || seg == ".") ==> CleanSegments([seg], done) == done
    ensures seg == ".." ==> CleanSegments([seg], done) == if done == [] then [] else done[..|done| - 1]
    ensures Plain(seg) ==> CleanSegments([seg], done) == done + [seg]
  {
    assert [seg][1..] == [];
  }

  lemma CleanRules(a: seq<string>, x: string, b: seq<string>)
    ensures x == "" || x == "." ==> CleanSegments(a + [x] + b, []) == CleanSegments(a + b, [])
    ensures Plain(x) ==> CleanSegments(a + [x] + [".."] + b, []) == CleanSegments(a + b, [])
    ensures CleanSegments([".."] + b, []) == CleanSegments(b, [])
  {
    var before := CleanSegments(a, []);
    CleanInTwo(a, b, []);
    CleanInTwo(a + [x], b, []);
    CleanInTwo(a, [x], []);
    CleanOne(x, before);
    if Plain(x) {
      CleanInTwo(a + [x] + [".."], b, []);
      CleanInTwo(a + [x], [".."], []);
      CleanOne("..", before + [x]);
      assert (before + [x])[..|before|] == before;
    }
    CleanInTwo([".."], b, []);
    CleanOne("..", []);
  }

  // The archive's check accepts exactly the rooted paths without dot segments,
  // backslash and NUL: its comparison with path.Clean never rejects anything more.
  lemma SafeLogicalMeans(v: string)
    ensures SafeLogical(v) <==>
              && Rooted(v) && '\\' !in v && '\0' !in v
              && forall seg <- Segments(v) :: Plain(seg)
  {
    if v == "/" {
      assert Split(v[1..]) == [""] && [""][1..] == [];
      assert CleanSegments([], []) == [];
      assert CleanSegments([""], []) == [];
    } else if v != "" && v[0] == '/' {
      if forall seg <- Split(v[1..]) :: Plain(seg) {
        CleanKeeps(Split(v[1..]), []);
        JoinSplit(v[1..]);
        assert [] + Split(v[1..]) == Split(v[1..]) && v == "/" + v[1..];
        assert Clean(v) == v;
      } else {
        var seg :| seg in Split(v[1..]) && !Plain(seg);
        assert !SafeLogical(v);
      }
    }
  }

  lemma {:induction false} CharsOfJoin(segments: seq<string>, c: char)
    requires segments != [] && c != '/' && forall seg <- segments :: c !in seg
    ensures c !in Join(segments)
  {
    assert segments[0] in segments;
    if |segments| > 1 {
      CharsOfJoin(segments[1..], c);
    }
  }

  lemma ValidSegmentChars(seg: string, policy: NamePolicy)
    requires ValidateSegment(seg, policy).None?
    ensures '\\' !in seg && '\0' !in seg
  {
  }

  // Every path the parser produces passes it.
  lemma CanonicalIsSafe(decoded: string, policy: NamePolicy, u: Unicode)
    requires ParseDecodedPath(decoded, policy, u).Ok?
    ensures SafeLogical(ParseDecodedPath(decoded, policy, u).value.canonical)
  {
    var p := ParseDecodedPath(decoded, policy, u).value;
    ParsedShape(decoded, policy, u);
    SafeLogicalMeans(p.canonical);
    assert forall seg <- p.segments :: ValidateSegment(seg, policy).None? ==> Plain(seg);
    if p.canonical != "/" {
      RootedJoin(p.canonical);
      forall seg <- p.segments ensures '\\' !in seg && '\0' !in seg {
        ValidSegmentChars(seg, policy);
      }
      CharsOfJoin(p.segments, '\\');
      CharsOfJoin(p.segments, '\0');
    }
  }
}
