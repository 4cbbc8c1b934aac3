/**
 * PinryUploader: the JSON string escaper, the tolerant scanners that pick
 * the image id and URL out of the upload response, the two pin payloads, and
 * the two-step callback sequencing of an upload.
 */
module Uploader {
  import opened Optional
  import opened Text
  import opened Http

  // ---------------------------------------------------------------------
  // escapeJsonString
  // ---------------------------------------------------------------------

  /** Kotlin's `replace(oldValue, newValue)` when `oldValue` is the single character `c`. */
  function ReplaceChar(s: string, c: char, replacement: string): (r: string)
    ensures c !in s ==> r == s
  {
    if s == [] then []
    else (if s[0] == c then replacement else [s[0]]) + ReplaceChar(s[1..], c, replacement)
  }

  /** Replacing distributes over concatenation. */
  lemma {:induction false} ReplaceAppend(a: string, b: string, c: char, replacement: string)
    ensures ReplaceChar(a + b, c, replacement) == ReplaceChar(a, c, replacement) + ReplaceChar(b, c, replacement)
  {
    if a == [] {
      assert a + b == b;
    } else {
      assert (a + b)[0] == a[0] && (a + b)[1..] == a[1..] + b;
      ReplaceAppend(a[1..], b, c, replacement);
    }
  }

  /**
   * `escapeJsonString`: seven replacements in the source's order, the
   * backslash first so that the backslashes the later steps add are not
   * doubled again.
   */
  function EscapeJsonString(input: string): (r: string)
    ensures (forall i :: 0 <= i < |input| ==> !IsEscaped(input[i])) ==> r == input
  {
    var s1 := ReplaceChar(input, '\\', "\\\\");
    var s2 := ReplaceChar(s1, '"', "\\\"");
    var s3 := ReplaceChar(s2, '\n', "\\n");
    var s4 := ReplaceChar(s3, '\r', "\\r");
    var s5 := ReplaceChar(s4, '\t', "\\t");
    var s6 := ReplaceChar(s5, '\U{8}', "\\b");
    ReplaceChar(s6, '\U{C}', "\\f")
  }

  /** The five control characters the escaper writes as a two-character escape. */
  predicate IsShortEscapedControl(c: char) {
    c == '\n' || c == '\r' || c == '\t' || c == '\U{8}' || c == '\U{C}'
  }

  /** The seven characters the escaper rewrites. */
  predicate IsEscaped(c: char) {
    c == '\\' || c == '"' || IsShortEscapedControl(c)
  }

  /** The two-character escape of section 7 of RFC 8259 for one character, if it has one. */
  function EscapeChar(c: char): (r: string)
    ensures IsEscaped(c) <==> |r| == 2
    ensures !IsEscaped(c) ==> r == [c]
    ensures IsEscaped(c) ==> r[0] == '\\' && !IsShortEscapedControl(r[1])
  {
    if c == '\\' then "\\\\"
    else if c == '"' then "\\\""
    else if c == '\n' then "\\n"
    else if c == '\r' then "\\r"
    else if c == '\t' then "\\t"
    else if c == '\U{8}' then "\\b"
    else if c == '\U{C}' then "\\f"
    else [c]
  }

  /** The escaper as a single pass, character by character: the reference definition. */
  function JsonEscaped(s: string): (r: string)
    ensures forall i :: 0 <= i < |r| ==> !IsShortEscapedControl(r[i])
    ensures (forall i :: 0 <= i < |s| ==> !IsEscaped(s[i])) ==> r == s
  {
    if s == [] then [] else EscapeChar(s[0]) + JsonEscaped(s[1..])
  }

  /** The chain of replacements splits over concatenation. */
  lemma EscapeAppend(a: string, b: string)
    ensures EscapeJsonString(a + b) == EscapeJsonString(a) + EscapeJsonString(b)
  {
    var a1, b1 := ReplaceChar(a, '\\', "\\\\"), ReplaceChar(b, '\\', "\\\\");
    ReplaceAppend(a, b, '\\', "\\\\");
    var a2, b2 := ReplaceChar(a1, '"', "\\\""), ReplaceChar(b1, '"', "\\\"");
    ReplaceAppend(a1, b1, '"', "\\\"");
    var a3, b3 := ReplaceChar(a2, '\n', "\\n"), ReplaceChar(b2, '\n', "\\n");
    ReplaceAppend(a2, b2, '\n', "\\n");
    var a4, b4 := ReplaceChar(a3, '\r', "\\r"), ReplaceChar(b3, '\r', "\\r");
    ReplaceAppend(a3, b3, '\r', "\\r");
    var a5, b5 := ReplaceChar(a4, '\t', "\\t"), ReplaceChar(b4, '\t', "\\t");
    ReplaceAppend(a4, b4, '\t', "\\t");
    var a6, b6 := ReplaceChar(a5, '\U{8}', "\\b"), ReplaceChar(b5, '\U{8}', "\\b");
    ReplaceAppend(a5, b5, '\U{8}', "\\b");
    ReplaceAppend(a6, b6, '\U{C}', "\\f");
  }

  /**
   * One replacement step on a single character: until the character's own
   * step it is left alone, that step turns it into its escape, and no later
   * step touches the escape.
   */
  lemma ReplaceStep(c: char, s: string, d: char, replacement: string, done: bool)
    requires s == if done then EscapeChar(c) else [c]
    requires done ==> IsEscaped(c) && d != '\\' && d != EscapeChar(c)[1]
    requires !done && c == d ==> replacement == EscapeChar(c)
    ensures ReplaceChar(s, d, replacement) == if done || c == d then EscapeChar(c) else [c]
  {
    if done {
      var e := EscapeChar(c);
      assert e[1..][1..] == [];
      assert ReplaceChar(e[1..], d, replacement) == [e[1]] + ReplaceChar(e[1..][1..], d, replacement);
      assert e == [e[0]] + [e[1]];
    } else {
      assert s[1..] == [];
    }
  }

  /** On one character the chain gives that character's escape: no later step touches an earlier step's output. */
  lemma EscapeOne(c: char)
    ensures EscapeJsonString([c]) == EscapeChar(c)
  {
    ReplaceStep(c, [c], '\\', "\\\\", false);
    var s1 := ReplaceChar([c], '\\', "\\\\");
    ReplaceStep(c, s1, '"', "\\\"", c == '\\');
    var s2 := ReplaceChar(s1, '"', "\\\"");
    ReplaceStep(c, s2, '\n', "\\n", c == '\\' || c == '"');
    var s3 := ReplaceChar(s2, '\n', "\\n");
    ReplaceStep(c, s3, '\r', "\\r", c == '\\' || c == '"' || c == '\n');
    var s4 := ReplaceChar(s3, '\r', "\\r");
    ReplaceStep(c, s4, '\t', "\\t", c == '\\' || c == '"' || c == '\n' || c == '\r');
    var s5 := ReplaceChar(s4, '\t', "\\t");
    ReplaceStep(c, s5, '\U{8}', "\\b", c == '\\' || c == '"' || c == '\n' || c == '\r' || c == '\t');
    var s6 := ReplaceChar(s5, '\U{8}', "\\b");
    ReplaceStep(c, s6, '\U{C}', "\\f", c == '\\' || c == '"' || c == '\n' || c == '\r' || c == '\t' || c == '\U{8}');
  }

  /** The source's seven-step chain is the one-pass escaper. */
  lemma {:induction false} EscapeIsOnePass(s: string)
    ensures EscapeJsonString(s) == JsonEscaped(s)
  {
    if s != [] {
      assert s == [s[0]] + s[1..];
      EscapeAppend([s[0]], s[1..]);
      EscapeOne(s[0]);
      EscapeIsOnePass(s[1..]);
    }
  }

  /** The escaped text holds no raw newline, carriage return, tab, backspace or form feed. */
  lemma NoRawShortControls(s: string)
    ensures forall i :: 0 <= i < |EscapeJsonString(s)| ==> !IsShortEscapedControl(EscapeJsonString(s)[i])
  {
    EscapeIsOnePass(s);
  }

  /** Text without any of the seven characters passes through unchanged. */
  lemma PlainTextUnchanged(s: string)
    requires forall i :: 0 <= i < |s| ==> !IsEscaped(s[i])
    ensures EscapeJsonString(s) == s
  {
    EscapeIsOnePass(s);
  }

  /** The character a two-character escape of section 7 of RFC 8259 stands for. */
  function UnescapeChar(c: char): (r: Option<char>)
    ensures r.Some? ==> EscapeChar(r.value) == ['\\', c] || (c == '/' && r.value == '/')
  {
    if c == '"' then Some('"')
    else if c == '\\' then Some('\\')
    else if c == '/' then Some('/')
    else if c == 'b' then Some('\U{8}')
    else if c == 'f' then Some('\U{C}')
    else if c == 'n' then Some('\n')
    else if c == 'r' then Some('\r')
    else if c == 't' then Some('\t')
    else None
  }

  /** A character that section 7 of RFC 8259 lets stand unescaped inside a string. */
  predicate IsUnescapedJsonChar(c: char) {
    c >= ' ' && c != '"' && c != '\\'
  }

  /**
   * A strict reader for the text between the quotes of a JSON string: two-
   * character escapes are decoded, and a bare quote, a lone backslash, an
   * unknown escape or a raw control character is an error.
   */
  function ReadJsonString(t: string): (r: Option<string>)
    decreases |t|
  {
    if t == [] then Some([])
    else if t[0] == '\\' then
      if |t| >= 2 && UnescapeChar(t[1]).Some? then
        match ReadJsonString(t[2..])
        case Some(rest) => Some([UnescapeChar(t[1]).value] + rest)
        case None => None
      else None
    else if IsUnescapedJsonChar(t[0]) then
      match ReadJsonString(t[1..])
      case Some(rest) => Some([t[0]] + rest)
      case None => None
    else None
  }

  /** Every control character in `s` is one of the five with a short escape. */
  predicate OnlyShortEscapedControls(s: string) {
    forall i :: 0 <= i < |s| ==> s[i] >= ' ' || IsShortEscapedControl(s[i])
  }

  /** Reading one escaped character followed by more text. */
  lemma ReadAfterEscape(c: char, t: string)
    ensures ReadJsonString(EscapeChar(c) + t) ==
      if c >= ' ' || IsShortEscapedControl(c) then
        match ReadJsonString(t)
        case Some(rest) => Some([c] + rest)
        case None => None
      else None
  {
    var e := EscapeChar(c);
    if IsEscaped(c) {
      assert (e + t)[0] == '\\' && (e + t)[1] == e[1] && (e + t)[2..] == t;
    } else {
      assert (e + t)[0] == c && (e + t)[1..] == t;
    }
  }

  /**
   * Unescaping recovers the input exactly when every control character in it
   * has a short escape; any other control character (U+0001, say) is left raw,
   * which a strict reader rejects.
   */
  lemma {:induction false} EscapeRoundTrip(s: string)
    ensures ReadJsonString(EscapeJsonString(s)) == if OnlyShortEscapedControls(s) then Some(s) else None
  {
    EscapeIsOnePass(s);
    RoundTripOnePass(s);
  }

  lemma {:induction false} RoundTripOnePass(s: string)
    ensures ReadJsonString(JsonEscaped(s)) == if OnlyShortEscapedControls(s) then Some(s) else None
  {
    if s != [] {
      RoundTripOnePass(s[1..]);
      ReadAfterEscape(s[0], JsonEscaped(s[1..]));
      assert s == [s[0]] + s[1..];
      assert OnlyShortEscapedControls(s) <==>
        (s[0] >= ' ' || IsShortEscapedControl(s[0])) && OnlyShortEscapedControls(s[1..]) by {
        if OnlyShortEscapedControls(s) {
          assert forall i :: 0 <= i < |s[1..]| ==> s[1..][i] == s[i + 1];
        }
      }
    }
  }

  /** The start-of-heading character U+0001 comes out raw, so the payload is not strict JSON. */
  lemma ControlCharacterLeftRaw()
    ensures EscapeJsonString("\U{1}") == "\U{1}"
    ensures ReadJsonString(EscapeJsonString("\U{1}")) == None
  {
    PlainTextUnchanged("\U{1}");
  }

  // ---------------------------------------------------------------------
  // extractImageId, extractImageUrl, extractImageIdFromUrl
  // ---------------------------------------------------------------------

  /** The character classes the three patterns use; `\s` and `\d` are the JVM's ASCII classes. */
  datatype CharClass = Spaces | Digits | AllBut(excluded: char)

  predicate InClass(cls: CharClass, c: char) {
    match cls
    case Spaces => c == ' ' || c == '\t' || c == '\n' || c == '\U{B}' || c == '\U{C}' || c == '\r'
    case Digits => IsDigit(c)
    case AllBut(x) => c != x
  }

  /** `s[i..e]` lies in the class. */
  predicate InRun(s: string, cls: CharClass, i: int, e: int) {
    0 <= i <= e <= |s| && forall k :: i <= k < e ==> InClass(cls, s[k])
  }

  /** `s[i..e]` is a longest run of the class starting at `i`, as a greedy quantifier takes it. */
  predicate LongestRun(s: string, cls: CharClass, i: int, e: int) {
    InRun(s, cls, i, e) && (e == |s| || !InClass(cls, s[e]))
  }

  /** Where the longest run of the class from `i` ends. */
  function RunEnd(s: string, cls: CharClass, i: nat): (e: nat)
    requires i <= |s|
    ensures LongestRun(s, cls, i, e)
    decreases |s| - i
  {
    if i < |s| && InClass(cls, s[i]) then RunEnd(s, cls, i + 1) else i
  }

  /** The longest run is unique. */
  lemma {:induction false} RunEndUnique(s: string, cls: CharClass, i: nat, e: int)
    requires LongestRun(s, cls, i, e)
    ensures RunEnd(s, cls, i) == e
    decreases e - i
  {
    if i < e {
      RunEndUnique(s, cls, i + 1, e);
    }
  }

  /** The three patterns the uploader searches for. */
  datatype Pattern =
    /** `"id"\s*:\s*(\d+)` */
    | IdPattern
    /** `"image"\s*:\s*"([^"]+)"` */
    | ImagePattern
    /** `/media/[^/]+/([^/]+)/` */
    | MediaPattern

  /** Where the value starts in `"key"\s*:\s*` read from `i`, if the text there has that shape. */
  function AfterKey(s: string, i: nat, key: string): (r: Option<nat>)
    requires i <= |s|
    ensures r.Some? ==> i + |key| + 3 <= r.value <= |s| && s[i..i + |key| + 2] == "\"" + key + "\""
    ensures r.Some? && r.value < |s| ==> !InClass(Spaces, s[r.value])
  {
    var quoted := "\"" + key + "\"";
    if !StartsWith(s[i..], quoted) then None
    else
      assert s[i..][..|quoted|] == s[i..i + |quoted|];
      var j := RunEnd(s, Spaces, i + |quoted|);
      if j < |s| && s[j] == ':' then Some(RunEnd(s, Spaces, j + 1)) else None
  }

  /**
   * The pattern tried at `i` alone, as the JVM's backtracking matcher would:
   * every run is followed by a character outside its class, so the greedy
   * run is the only one that can succeed. The result is the captured group.
   */
  function MatchAt(p: Pattern, s: string, i: nat): (r: Option<string>)
    requires i <= |s|
    ensures r.Some? ==> r.value != [] && exists k, e :: i <= k < e <= |s| && r.value == s[k..e]
  {
    match p
    case IdPattern =>
      (match AfterKey(s, i, "id")
       case None => None
       case Some(k) =>
         var e := RunEnd(s, Digits, k);
         if e > k then Some(s[k..e]) else None)
    case ImagePattern =>
      (match AfterKey(s, i, "image")
       case None => None
       case Some(k) =>
         if k < |s| && s[k] == '"' then
           var e := RunEnd(s, AllBut('"'), k + 1);
           if k + 1 < e < |s| then Some(s[k + 1..e]) else None
         else None)
    case MediaPattern =>
      if !StartsWith(s[i..], "/media/") then None
      else
        var b := RunEnd(s, AllBut('/'), i + 7);
        if i + 7 < b < |s| then
          var c := RunEnd(s, AllBut('/'), b + 1);
          if b + 1 < c < |s| then Some(s[b + 1..c]) else None
        else None
  }

  /** The leftmost start at or after `i` where the pattern matches, or `|s| + 1` if there is none. */
  function FirstMatch(p: Pattern, s: string, i: nat): (k: nat)
    requires i <= |s|
    ensures i <= k <= |s| + 1
    ensures k <= |s| ==> MatchAt(p, s, k).Some?
    ensures forall q :: i <= q < k && q <= |s| ==> MatchAt(p, s, q).None?
    decreases |s| - i
  {
    if MatchAt(p, s, i).Some? then i
    else if i == |s| then |s| + 1
    else FirstMatch(p, s, i + 1)
  }

  /** `Regex(p).find(s)?.groupValues?.get(1)`: the group of the leftmost match. */
  function Find(p: Pattern, s: string): (r: Option<string>)
    ensures r.Some? ==> exists k :: 0 <= k <= |s| && MatchAt(p, s, k) == r && forall q :: 0 <= q < k ==> MatchAt(p, s, q).None?
    ensures r.None? <==> forall k :: 0 <= k <= |s| ==> MatchAt(p, s, k).None?
  {
    var k := FirstMatch(p, s, 0);
    if k <= |s| then MatchAt(p, s, k) else None
  }

  /** `"id"`, spaces, `:`, spaces and a longest digit run `s[k..e]`, read from `i`. */
  predicate IdMatch(s: string, i: int, j: int, k: int, e: int) {
    0 <= i && i + 4 <= j < k < e <= |s| && s[i..i + 4] == "\"id\""
    && InRun(s, Spaces, i + 4, j) && s[j] == ':' && InRun(s, Spaces, j + 1, k)
    && LongestRun(s, Digits, k, e)
  }

  /** `"image"`, spaces, `:`, spaces, a quote, a non-empty quote-free `s[k + 1..e]` and a quote, read from `i`. */
  predicate ImageMatch(s: string, i: int, j: int, k: int, e: int) {
    0 <= i && i + 7 <= j < k && k + 1 < e < |s| && s[i..i + 7] == "\"image\""
    && InRun(s, Spaces, i + 7, j) && s[j] == ':' && InRun(s, Spaces, j + 1, k)
    && s[k] == '"' && InRun(s, AllBut('"'), k + 1, e) && s[e] == '"'
  }

  /** `/media/`, a non-empty slash-free segment, `/`, a non-empty slash-free `s[b + 1..c]` and `/`, read from `i`. */
  predicate MediaMatch(s: string, i: int, b: int, c: int) {
    0 <= i && i + 7 < b && b + 1 < c < |s| && s[i..i + 7] == "/media/"
    && InRun(s, AllBut('/'), i + 7, b) && s[b] == '/' && InRun(s, AllBut('/'), b + 1, c) && s[c] == '/'
  }

  /** What the key scanner reads: the shape, with unique split points. */
  lemma AfterKeyExact(s: string, i: nat, key: string, j: int, k: int)
    requires i + |key| + 2 <= j < k <= |s|
    requires s[i..i + |key| + 2] == "\"" + key + "\""
    requires InRun(s, Spaces, i + |key| + 2, j) && s[j] == ':' && InRun(s, Spaces, j + 1, k)
    requires k < |s| && !InClass(Spaces, s[k])
    ensures AfterKey(s, i, key) == Some(k)
  {
    var quoted := "\"" + key + "\"";
    assert s[i..][..|quoted|] == s[i..i + |quoted|];
    RunEndUnique(s, Spaces, i + |quoted|, j);
    RunEndUnique(s, Spaces, j + 1, k);
  }

  /** The scanner at `i` finds exactly the declarative `"id"` match, in both directions. */
  lemma IdMatchAt(s: string, i: nat)
    requires i <= |s|
    ensures MatchAt(IdPattern, s, i).Some? ==>
      IdMatch(s, i, RunEnd(s, Spaces, i + 4), AfterKey(s, i, "id").value, RunEnd(s, Digits, AfterKey(s, i, "id").value))
      && MatchAt(IdPattern, s, i).value == s[AfterKey(s, i, "id").value..RunEnd(s, Digits, AfterKey(s, i, "id").value)]
    ensures forall j, k, e :: IdMatch(s, i, j, k, e) ==> MatchAt(IdPattern, s, i) == Some(s[k..e])
  {
    if MatchAt(IdPattern, s, i).Some? {
      assert s[i..][..4] == s[i..i + 4];
    }
    forall j, k, e | IdMatch(s, i, j, k, e)
      ensures MatchAt(IdPattern, s, i) == Some(s[k..e])
    {
      AfterKeyExact(s, i, "id", j, k);
      RunEndUnique(s, Digits, k, e);
    }
  }

  /** The scanner at `i` finds exactly the declarative `"image"` match, in both directions. */
  lemma ImageMatchAt(s: string, i: nat)
    requires i <= |s|
    ensures MatchAt(ImagePattern, s, i).Some? ==>
      var k := AfterKey(s, i, "image").value;
      ImageMatch(s, i, RunEnd(s, Spaces, i + 7), k, RunEnd(s, AllBut('"'), k + 1))
      && MatchAt(ImagePattern, s, i).value == s[k + 1..RunEnd(s, AllBut('"'), k + 1)]
    ensures forall j, k, e :: ImageMatch(s, i, j, k, e) ==> MatchAt(ImagePattern, s, i) == Some(s[k + 1..e])
  {
    if MatchAt(ImagePattern, s, i).Some? {
      assert s[i..][..7] == s[i..i + 7];
    }
    forall j, k, e | ImageMatch(s, i, j, k, e)
      ensures MatchAt(ImagePattern, s, i) == Some(s[k + 1..e])
    {
      AfterKeyExact(s, i, "image", j, k);
      RunEndUnique(s, AllBut('"'), k + 1, e);
    }
  }

  /** The scanner at `i` finds exactly the declarative `/media/` match, in both directions. */
  lemma MediaMatchAt(s: string, i: nat)
    requires i <= |s|
    ensures MatchAt(MediaPattern, s, i).Some? ==>
      var b := RunEnd(s, AllBut('/'), i + 7);
      MediaMatch(s, i, b, RunEnd(s, AllBut('/'), b + 1))
      && MatchAt(MediaPattern, s, i).value == s[b + 1..RunEnd(s, AllBut('/'), b + 1)]
    ensures forall b, c :: MediaMatch(s, i, b, c) ==> MatchAt(MediaPattern, s, i) == Some(s[b + 1..c])
  {
    if MatchAt(MediaPattern, s, i).Some? {
      assert s[i..][..7] == s[i..i + 7];
    }
    forall b, c | MediaMatch(s, i, b, c)
      ensures MatchAt(MediaPattern, s, i) == Some(s[b + 1..c])
    {
      assert s[i..][..7] == s[i..i + 7];
      RunEndUnique(s, AllBut('/'), i + 7, b);
      RunEndUnique(s, AllBut('/'), b + 1, c);
    }
  }

  /** What each pattern's group can hold. */
  predicate CaptureShape(p: Pattern, g: string) {
    g != [] &&
    match p
    case IdPattern => AllDigits(g)
    case ImagePattern => '"' !in g
    case MediaPattern => '/' !in g
  }

  /** A match found at one position has its pattern's shape. */
  lemma CaptureAt(p: Pattern, s: string, i: nat)
    requires i <= |s|
    ensures MatchAt(p, s, i).Some? ==> CaptureShape(p, MatchAt(p, s, i).value)
  {
    match p
    case IdPattern => IdMatchAt(s, i);
    case ImagePattern => ImageMatchAt(s, i);
    case MediaPattern => MediaMatchAt(s, i);
  }

  lemma FoundCapture(p: Pattern, s: string)
    ensures Find(p, s).Some? ==> CaptureShape(p, Find(p, s).value)
  {
    var k := FirstMatch(p, s, 0);
    if k <= |s| {
      CaptureAt(p, s, k);
    }
  }

  /** `extractImageId`: nothing for a missing body, else the digits of the leftmost `"id": <digits>`. */
  function ExtractImageId(responseBody: Option<string>): (r: Option<string>)
    ensures responseBody.None? ==> r.None?
    ensures r.Some? ==> r.value != [] && AllDigits(r.value)
  {
    match responseBody
    case None => None
    case Some(body) =>
      FoundCapture(IdPattern, body);
      Find(IdPattern, body)
  }

  /** `extractImageUrl`: nothing for a missing body, else the text of the leftmost `"image": "<text>"`. */
  function ExtractImageUrl(responseBody: Option<string>): (r: Option<string>)
    ensures responseBody.None? ==> r.None?
    ensures r.Some? ==> r.value != [] && '"' !in r.value
  {
    match responseBody
    case None => None
    case Some(body) =>
      FoundCapture(ImagePattern, body);
      Find(ImagePattern, body)
  }

  /** `extractImageIdFromUrl`: the second path segment after the leftmost `/media/`, if it is followed by `/`. */
  function ExtractImageIdFromUrl(imageUrl: string): (r: Option<string>)
    ensures r.Some? ==> r.value != [] && '/' !in r.value
  {
    FoundCapture(MediaPattern, imageUrl);
    Find(MediaPattern, imageUrl)
  }

  /** An id match at `i` with nothing matching earlier is what the extractor returns. */
  lemma FirstIdMatchIsExtracted(body: string, i: nat, j: int, k: int, e: int)
    requires i <= |body| && IdMatch(body, i, j, k, e)
    requires forall q :: 0 <= q < i ==> MatchAt(IdPattern, body, q).None?
    ensures ExtractImageId(Some(body)) == Some(body[k..e])
  {
    IdMatchAt(body, i);
    var f := FirstMatch(IdPattern, body, 0);
    assert f == i;
  }

  /** No `"id"` match starts at a character other than a quote. */
  lemma NoIdMatchOffQuote(s: string, i: nat)
    requires i < |s| && s[i] != '"'
    ensures MatchAt(IdPattern, s, i).None?
  {
    assert !StartsWith(s[i..], "\"id\"") by {
      if 4 <= |s[i..]| {
        assert s[i..][..4][0] == s[i];
      }
    }
  }

  /** A typical upload response: the id comes first. */
  lemma ExtractIdExample()
    ensures ExtractImageId(Some("{\"id\": 42}")) == Some("42")
  {
    ExtractIdFrom("{\"id\": 42}");
  }

  lemma ExtractIdFrom(body: string)
    requires body == "{\"id\": 42}"
    ensures ExtractImageId(Some(body)) == Some("42")
  {
    ExampleIdMatch(body);
    IdMatchAfterFirst(body, 5, 7, 9);
  }

  /** A match right after a first character that is not a quote is the one extracted. */
  lemma IdMatchAfterFirst(body: string, j: int, k: int, e: int)
    requires 1 <= |body| && body[0] != '"' && IdMatch(body, 1, j, k, e)
    ensures ExtractImageId(Some(body)) == Some(body[k..e])
  {
    NoIdMatchOffQuote(body, 0);
    FirstIdMatchIsExtracted(body, 1, j, k, e);
  }

  /** The key, the colon, the space and the digits of the example. */
  lemma ExampleIdMatch(body: string)
    requires body == "{\"id\": 42}"
    ensures IdMatch(body, 1, 5, 7, 9) && body[0] != '"' && body[7..9] == "42"
  {
    assert body[1..5] == "\"id\"";
    assert InRun(body, Spaces, 6, 7) by {
      assert body[6] == ' ';
    }
    assert LongestRun(body, Digits, 7, 9) by {
      assert IsDigit(body[7]) && IsDigit(body[8]) && !IsDigit(body[9]);
    }
    assert body[5] == ':';
  }

  // ---------------------------------------------------------------------
  // The createPin and createPinFromUrl payloads
  // ---------------------------------------------------------------------

  /** A JSON member value as the payload templates write it. */
  datatype JsonValue = JString(text: string) | JNumber(digits: string) | JBool(truth: bool)

  function RenderValue(v: JsonValue): string {
    match v
    case JString(t) => "\"" + EscapeJsonString(t) + "\""
    case JNumber(d) => d
    case JBool(b) => if b then "true" else "false"
  }

  /** One member on its own line, four spaces in. */
  function RenderMember(m: (string, JsonValue)): string {
    "    \"" + m.0 + "\": " + RenderValue(m.1)
  }

  /** The members' lines, joined by a comma and a line break. */
  function RenderMembers(members: seq<(string, JsonValue)>): string
    decreases |members|
  {
    if members == [] then []
    else if |members| == 1 then RenderMember(members[0])
    else RenderMember(members[0]) + ",\n" + RenderMembers(members[1..])
  }

  /** An object laid out one member per line. */
  function RenderObject(members: seq<(string, JsonValue)>): string {
    "{\n" + RenderMembers(members) + "\n}"
  }

  /** The members `createPin` sends, in order. */
  function PinMembers(imageId: string, boardId: string): seq<(string, JsonValue)> {
    [("image_by_id", JNumber(imageId)), ("board", JString(boardId)), ("url", JString("")),
     ("description", JString("")), ("private", JBool(false)), ("referer", JString(""))]
  }

  /** The members `createPinFromUrl` sends, in order. */
  function UrlPinMembers(imageUrl: string, boardId: string, domain: string): seq<(string, JsonValue)> {
    [("url", JString(imageUrl)), ("board", JString(boardId)), ("description", JString(domain)),
     ("private", JBool(false)), ("referer", JString(""))]
  }

  /** The lines from member `k` on: member `k`'s line, a separator, then the rest. */
  lemma UnfoldMembers(members: seq<(string, JsonValue)>, k: nat)
    requires k + 1 < |members|
    ensures RenderMembers(members[k..]) == RenderMember(members[k]) + ",\n" + RenderMembers(members[k + 1..])
  {
    assert members[k..][0] == members[k] && members[k..][1..] == members[k + 1..];
  }

  /** Six members render as six lines. */
  lemma SixMembers(m: seq<(string, JsonValue)>)
    requires |m| == 6
    ensures RenderMembers(m) == RenderMember(m[0]) + ",\n" + (RenderMember(m[1]) + ",\n" + (RenderMember(m[2]) + ",\n"
      + (RenderMember(m[3]) + ",\n" + (RenderMember(m[4]) + ",\n" + RenderMember(m[5])))))
  {
    assert m[5..] == [m[5]];
    UnfoldMembers(m, 4);
    UnfoldMembers(m, 3);
    UnfoldMembers(m, 2);
    UnfoldMembers(m, 1);
    UnfoldMembers(m, 0);
    assert m[0..] == m;
  }

  /** Five members render as five lines. */
  lemma FiveMembers(m: seq<(string, JsonValue)>)
    requires |m| == 5
    ensures RenderMembers(m) == RenderMember(m[0]) + ",\n" + (RenderMember(m[1]) + ",\n" + (RenderMember(m[2]) + ",\n"
      + (RenderMember(m[3]) + ",\n" + RenderMember(m[4]))))
  {
    assert m[4..] == [m[4]];
    UnfoldMembers(m, 3);
    UnfoldMembers(m, 2);
    UnfoldMembers(m, 1);
    UnfoldMembers(m, 0);
    assert m[0..] == m;
  }

  /** A string member's line, `lineStart` being its text up to the opening quote of the value. */
  lemma QuotedLine(key: string, text: string, lineStart: string)
    requires lineStart == "    \"" + key + "\": " + "\""
    ensures RenderMember((key, JString(text))) == lineStart + EscapeJsonString(text) + "\""
  {
    var e := EscapeJsonString(text);
    var p := "    \"" + key + "\": ";
    assert lineStart == p + "\"";
    var v := RenderValue(JString(text));
    assert v == "\"" + e + "\"";
    assert RenderMember((key, JString(text))) == p + v;
    assert p + v == p + "\"" + e + "\"";
  }

  lemma BoardLine(boardId: string)
    ensures RenderMember(("board", JString(boardId))) == "    \"board\": \"" + EscapeJsonString(boardId) + "\""
  {
    QuotedLine("board", boardId, "    \"board\": \"");
  }

  lemma EmptyStringLines()
    ensures RenderMember(("url", JString(""))) == "    \"url\": \"\""
    ensures RenderMember(("description", JString(""))) == "    \"description\": \"\""
    ensures RenderMember(("referer", JString(""))) == "    \"referer\": \"\""
  {
    PlainTextUnchanged("");
  }

  /** The line of each `createPin` member. */
  lemma PinLines(imageId: string, boardId: string)
    ensures var m := PinMembers(imageId, boardId);
      RenderMember(m[0]) == "    \"image_by_id\": " + imageId
      && RenderMember(m[1]) == "    \"board\": \"" + EscapeJsonString(boardId) + "\""
      && RenderMember(m[2]) == "    \"url\": \"\""
      && RenderMember(m[3]) == "    \"description\": \"\""
      && RenderMember(m[4]) == "    \"private\": false"
      && RenderMember(m[5]) == "    \"referer\": \"\""
  {
    var m := PinMembers(imageId, boardId);
    assert m[0] == ("image_by_id", JNumber(imageId)) && m[1] == ("board", JString(boardId)) && m[2] == ("url", JString(""));
    assert m[3] == ("description", JString("")) && m[4] == ("private", JBool(false)) && m[5] == ("referer", JString(""));
    assert "    \"" + "image_by_id" + "\": " == "    \"image_by_id\": ";
    BoardLine(boardId);
    EmptyStringLines();
    PrivateLine();
  }

  /** The line of each `createPinFromUrl` member. */
  lemma UrlPinLines(imageUrl: string, boardId: string, domain: string)
    ensures var m := UrlPinMembers(imageUrl, boardId, domain);
      RenderMember(m[0]) == "    \"url\": \"" + EscapeJsonString(imageUrl) + "\""
      && RenderMember(m[1]) == "    \"board\": \"" + EscapeJsonString(boardId) + "\""
      && RenderMember(m[2]) == "    \"description\": \"" + EscapeJsonString(domain) + "\""
      && RenderMember(m[3]) == "    \"private\": false"
      && RenderMember(m[4]) == "    \"referer\": \"\""
  {
    var m := UrlPinMembers(imageUrl, boardId, domain);
    assert m[0] == ("url", JString(imageUrl)) && m[1] == ("board", JString(boardId));
    assert m[2] == ("description", JString(domain)) && m[3] == ("private", JBool(false)) && m[4] == ("referer", JString(""));
    UrlLine(imageUrl);
    BoardLine(boardId);
    DescriptionLine(domain);
    EmptyStringLines();
    PrivateLine();
  }

  lemma PrivateLine()
    ensures RenderMember(("private", JBool(false))) == "    \"private\": false"
  {
    assert "    \"" + "private" + "\": " + "false" == "    \"private\": false";
  }

  lemma UrlLine(imageUrl: string)
    ensures RenderMember(("url", JString(imageUrl))) == "    \"url\": \"" + EscapeJsonString(imageUrl) + "\""
  {
    QuotedLine("url", imageUrl, "    \"url\": \"");
  }

  lemma DescriptionLine(domain: string)
    ensures RenderMember(("description", JString(domain))) == "    \"description\": \"" + EscapeJsonString(domain) + "\""
  {
    QuotedLine("description", domain, "    \"description\": \"");
  }

  /**
   * The `createPin` body: the template after `trimIndent`, which strips its
   * twelve-space margin and the blank first and last lines. None of the
   * interpolated values holds a line break, so they do not change the lines.
   * It is the six-member object: the id digits unquoted, the escaped board,
   * empty `url`, `description` and `referer`, and `private` false.
   */
  function CreatePinPayload(imageId: string, boardId: string): (r: string)
    ensures r == RenderObject(PinMembers(imageId, boardId))
  {
    SixMembers(PinMembers(imageId, boardId));
    PinLines(imageId, boardId);
    "{\n"
    + ("    \"image_by_id\": " + imageId + ",\n"
      + ("    \"board\": \"" + EscapeJsonString(boardId) + "\"" + ",\n"
        + ("    \"url\": \"\"" + ",\n"
          + ("    \"description\": \"\"" + ",\n"
            + ("    \"private\": false" + ",\n"
              + "    \"referer\": \"\"")))))
    + "\n}"
  }

  /** `extractDomainFromUrl`, given the host `java.net.URL` reports, or nothing when it throws. */
  function Domain(host: Option<string>): (d: string)
    ensures host.Some? ==> d == host.value
    ensures host.None? ==> d == []
  {
    match host
    case Some(h) => if h != [] then h else []
    case None => []
  }

  /**
   * The `createPinFromUrl` body: the five-member object with the escaped
   * image URL, board and domain, `private` false and an empty `referer`.
   */
  function CreatePinFromUrlPayload(imageUrl: string, boardId: string, domain: string): (r: string)
    ensures r == RenderObject(UrlPinMembers(imageUrl, boardId, domain))
  {
    FiveMembers(UrlPinMembers(imageUrl, boardId, domain));
    UrlPinLines(imageUrl, boardId, domain);
    "{\n"
    + ("    \"url\": \"" + EscapeJsonString(imageUrl) + "\"" + ",\n"
      + ("    \"board\": \"" + EscapeJsonString(boardId) + "\"" + ",\n"
        + ("    \"description\": \"" + EscapeJsonString(domain) + "\"" + ",\n"
          + ("    \"private\": false" + ",\n"
            + "    \"referer\": \"\""))))
    + "\n}"
  }

  /** Every string member of a payload reads back as its value once the quotes are stripped, when its control characters are the escaped five. */
  lemma StringMembersReadBack(members: seq<(string, JsonValue)>, i: nat)
    requires i < |members| && members[i].1.JString? && OnlyShortEscapedControls(members[i].1.text)
    ensures var v := RenderValue(members[i].1); ReadJsonString(v[1..|v| - 1]) == Some(members[i].1.text)
  {
    var t := members[i].1.text;
    var v := RenderValue(members[i].1);
    assert v[1..|v| - 1] == EscapeJsonString(t);
    EscapeRoundTrip(t);
  }

  // ---------------------------------------------------------------------
  // upload, createPin, createPinFromUrl: the callback sequencing
  // ---------------------------------------------------------------------

  /** What the caller's `UploadCallback` is told. */
  datatype Outcome = Succeeded | Failed(message: string)

  /**
   * How the synchronous part of `upload` ended: the temporary file written
   * and the request built, or an exception with its message, after which the
   * temporary file may already exist.
   */
  datatype Preparation = Prepared | PrepareFailed(message: Option<string>, tempFileCreated: bool)

  /** Which reply, if any, one call of `upload` or `createPinFromUrl` waits for. */
  datatype Phase =
    | NotStarted
    | AwaitingImage(boardId: string, token: string, pinryUrl: string)
    | AwaitingPin(fromUrl: bool)
    | Finished

  /** One call's progress: the temporary file, the requests enqueued and the callbacks made. */
  datatype UploadState = UploadState(phase: Phase, tempFile: bool, sent: seq<Request>, reported: seq<Outcome>)

  const Idle: UploadState := UploadState(NotStarted, false, [], [])

  /** The image upload: a multipart form with the file as `image.jpg`. */
  function ImageRequest(token: string, pinryUrl: string): (r: Request)
    ensures r.verb == Post && r.url == pinryUrl + "/api/v2/images/" && r.query == []
    ensures forall h :: h in r.headers <==> h == Header("Authorization", "Token " + token)
    ensures r.body.Multipart? && r.body.field == "image" && r.body.fileName == "image.jpg" && r.body.mediaType == "image/jpeg"
  {
    Request(Post, pinryUrl + "/api/v2/images/", [], [Header("Authorization", "Token " + token)],
      Multipart("image", "image.jpg", "image/jpeg"))
  }

  /** A pin creation with a JSON body. */
  function PinRequest(token: string, pinryUrl: string, payload: string): (r: Request)
    ensures r.verb == Post && r.url == pinryUrl + "/api/v2/pins/" && r.query == [] && r.body == Json(payload)
    ensures forall h :: h in r.headers <==>
      h == Header("Authorization", "Token " + token) || h == Header("Content-Type", "application/json")
  {
    Request(Post, pinryUrl + "/api/v2/pins/", [],
      [Header("Authorization", "Token " + token), Header("Content-Type", "application/json")], Json(payload))
  }

  /** Builds the image upload the way `upload` does. */
  method BuildImageRequest(token: string, pinryUrl: string) returns (req: Request)
    ensures req == ImageRequest(token, pinryUrl)
  {
    var builder := new RequestBuilder(Post, pinryUrl + "/api/v2/images/", [], Multipart("image", "image.jpg", "image/jpeg"));
    builder.AddHeader("Authorization", "Token " + token);
    req := builder.Build();
  }

  /** Builds a pin creation the way `createPin` and `createPinFromUrl` do. */
  method BuildPinRequest(token: string, pinryUrl: string, payload: string) returns (req: Request)
    ensures req == PinRequest(token, pinryUrl, payload)
  {
    var builder := new RequestBuilder(Post, pinryUrl + "/api/v2/pins/", [], Json(payload));
    builder.AddHeader("Authorization", "Token " + token);
    builder.AddHeader("Content-Type", "application/json");
    req := builder.Build();
  }

  /**
   * A call has reported exactly when it is finished, and then once; the
   * temporary file exists while the image reply is awaited.
   */
  ghost predicate ValidUpload(s: UploadState) {
    |s.reported| <= 1 && (s.phase.Finished? <==> |s.reported| == 1) && |s.sent| <= 2
    && (s.phase.NotStarted? ==> s.sent == [] && !s.tempFile)
    && (s.phase.AwaitingImage? ==> |s.sent| == 1 && s.tempFile)
    && (s.phase.AwaitingPin? ==> !s.tempFile && |s.sent| == if s.phase.fromUrl then 1 else 2)
  }

  function Report(s: UploadState, o: Outcome): (r: UploadState)
    ensures r.reported == s.reported + [o] && r.phase.Finished?
    ensures r.sent == s.sent && r.tempFile == s.tempFile
  {
    s.(phase := Finished, reported := s.reported + [o])
  }

  /** The synchronous part of `upload`: the image request is enqueued, or the preparation error reported. */
  function StartUpload(s: UploadState, boardId: string, token: string, pinryUrl: string, prep: Preparation): (r: UploadState)
    requires s.phase.NotStarted?
    ensures ValidUpload(s) ==> ValidUpload(r)
    ensures prep.Prepared? ==>
      r.phase == AwaitingImage(boardId, token, pinryUrl) && r.tempFile && r.reported == s.reported
      && r.sent == s.sent + [ImageRequest(token, pinryUrl)]
    ensures prep.PrepareFailed? ==>
      r.phase.Finished? && r.tempFile == prep.tempFileCreated && r.sent == s.sent
      && r.reported == s.reported + [Failed("Error preparing upload: " + Interp(prep.message))]
  {
    match prep
    case Prepared =>
      s.(phase := AwaitingImage(boardId, token, pinryUrl), tempFile := true, sent := s.sent + [ImageRequest(token, pinryUrl)])
    case PrepareFailed(m, created) =>
      Report(s.(tempFile := created), Failed("Error preparing upload: " + Interp(m)))
  }

  /** The image call ends in a pin request: a successful response whose body carries an id. */
  predicate ImageCallYieldsId(reply: Reply) {
    reply.Response? && IsSuccessful(reply.code) && ExtractImageId(reply.body).Some?
  }

  /**
   * The image call's `onFailure` / `onResponse`: the temporary file is
   * deleted either way; a successful response with an id moves on to
   * `createPin`, anything else is reported.
   */
  function ImageReplied(s: UploadState, reply: Reply): (r: UploadState)
    requires s.phase.AwaitingImage?
    ensures ValidUpload(s) ==> ValidUpload(r)
    ensures !r.tempFile
    ensures r.phase.AwaitingPin? <==> ImageCallYieldsId(reply)
    ensures r.phase.AwaitingPin? ==>
      !r.phase.fromUrl && r.reported == s.reported
      && r.sent == s.sent + [PinRequest(s.phase.token, s.phase.pinryUrl, CreatePinPayload(ExtractImageId(reply.body).value, s.phase.boardId))]
    ensures !r.phase.AwaitingPin? ==>
      r.phase.Finished? && r.sent == s.sent
      && |r.reported| == |s.reported| + 1 && r.reported[|s.reported|].Failed?
    ensures reply.Response? && IsSuccessful(reply.code) && ExtractImageId(reply.body).None? ==>
      r.reported == s.reported + [Failed("Failed to get image ID from response")]
    ensures reply.IoFailure? ==> r.reported == s.reported + [Failed("Network error: " + Interp(reply.message))]
    ensures reply.Response? && !IsSuccessful(reply.code) ==>
      r.reported == s.reported + [Failed("Image upload failed: " + IntToString(reply.code) + " " + reply.reason + " - " + Interp(reply.body))]
  {
    match reply
    case IoFailure(m) => Report(s.(tempFile := false), Failed("Network error: " + Interp(m)))
    case Response(code, reason, body) => ImageResponse(s, code, reason, body)
  }

  /** `onResponse` of the image call. */
  function ImageResponse(s: UploadState, code: int, reason: string, body: Option<string>): (r: UploadState)
    requires s.phase.AwaitingImage?
    ensures ValidUpload(s) ==> ValidUpload(r)
    ensures !r.tempFile
    ensures r.phase.AwaitingPin? <==> IsSuccessful(code) && ExtractImageId(body).Some?
    ensures r.phase.AwaitingPin? ==>
      !r.phase.fromUrl && r.reported == s.reported
      && r.sent == s.sent + [PinRequest(s.phase.token, s.phase.pinryUrl, CreatePinPayload(ExtractImageId(body).value, s.phase.boardId))]
    ensures !r.phase.AwaitingPin? ==>
      r.phase.Finished? && r.sent == s.sent
      && |r.reported| == |s.reported| + 1 && r.reported[|s.reported|].Failed?
    ensures IsSuccessful(code) && ExtractImageId(body).None? ==>
      r.reported == s.reported + [Failed("Failed to get image ID from response")]
    ensures !IsSuccessful(code) ==>
      r.reported == s.reported + [Failed("Image upload failed: " + IntToString(code) + " " + reason + " - " + Interp(body))]
  {
    var deleted := s.(tempFile := false);
    if IsSuccessful(code) then
      match ExtractImageId(body)
      case Some(imageId) =>
        deleted.(phase := AwaitingPin(false), sent := s.sent + [PinRequest(s.phase.token, s.phase.pinryUrl, CreatePinPayload(imageId, s.phase.boardId))])
      case None => Report(deleted, Failed("Failed to get image ID from response"))
    else
      Report(deleted, Failed("Image upload failed: " + IntToString(code) + " " + reason + " - " + Interp(body)))
  }

  /** `createPinFromUrl`: the pin request is enqueued at once. */
  function StartPinFromUrl(s: UploadState, imageUrl: string, boardId: string, token: string, pinryUrl: string, host: Option<string>): (r: UploadState)
    requires s.phase.NotStarted?
    ensures ValidUpload(s) ==> ValidUpload(r)
    ensures r.phase == AwaitingPin(true) && r.reported == s.reported && r.tempFile == s.tempFile
    ensures r.sent == s.sent + [PinRequest(token, pinryUrl, CreatePinFromUrlPayload(imageUrl, boardId, Domain(host)))]
  {
    s.(phase := AwaitingPin(true),
       sent := s.sent + [PinRequest(token, pinryUrl, CreatePinFromUrlPayload(imageUrl, boardId, Domain(host)))])
  }

  /** The pin call's `onFailure` / `onResponse`: success only for a successful response. */
  function PinReplied(s: UploadState, reply: Reply): (r: UploadState)
    requires s.phase.AwaitingPin?
    ensures ValidUpload(s) ==> ValidUpload(r)
    ensures r.phase.Finished? && r.sent == s.sent && r.tempFile == s.tempFile
    ensures |r.reported| == |s.reported| + 1 && r.reported[..|s.reported|] == s.reported
    ensures r.reported[|s.reported|] == Succeeded <==> reply.Response? && IsSuccessful(reply.code)
    ensures reply.IoFailure? ==>
      r.reported[|s.reported|]
        == Failed((if s.phase.fromUrl then "Network error creating pin from URL: " else "Network error creating pin: ")
                  + Interp(reply.message))
    ensures reply.Response? && !IsSuccessful(reply.code) ==>
      r.reported[|s.reported|]
        == Failed((if s.phase.fromUrl then "Pin creation from URL failed: " else "Pin creation failed: ")
                  + IntToString(reply.code) + " " + reply.reason + " - " + Interp(reply.body))
  {
    var fromUrl := s.phase.fromUrl;
    match reply
    case IoFailure(m) =>
      Report(s, Failed((if fromUrl then "Network error creating pin from URL: " else "Network error creating pin: ") + Interp(m)))
    case Response(code, reason, body) =>
      if IsSuccessful(code) then Report(s, Succeeded)
      else
        Report(s, Failed((if fromUrl then "Pin creation from URL failed: " else "Pin creation failed: ")
          + IntToString(code) + " " + reason + " - " + Interp(body)))
  }

  /**
   * One whole `upload`: preparation, the image reply, and the pin reply if
   * a pin request was made. The callback is called exactly once; success
   * needs both calls to succeed; when the image call does not yield an id no
   * pin request is made; the temporary file survives only a failed
   * preparation that had created it.
   */
  function UploadRun(boardId: string, token: string, pinryUrl: string, prep: Preparation, imageReply: Reply, pinReply: Reply): (r: UploadState)
    ensures ValidUpload(r) && r.phase.Finished? && |r.reported| == 1
    ensures r.reported == [Succeeded] <==>
      prep.Prepared? && ImageCallYieldsId(imageReply) && pinReply.Response? && IsSuccessful(pinReply.code)
    ensures prep.Prepared? && !ImageCallYieldsId(imageReply) ==>
      r.sent == [ImageRequest(token, pinryUrl)] && r.reported[0].Failed?
    ensures prep.Prepared? && imageReply.Response? && IsSuccessful(imageReply.code) && ExtractImageId(imageReply.body).None? ==>
      r.reported == [Failed("Failed to get image ID from response")]
    ensures prep.Prepared? && ImageCallYieldsId(imageReply) ==>
      r.sent == [ImageRequest(token, pinryUrl),
                 PinRequest(token, pinryUrl, CreatePinPayload(ExtractImageId(imageReply.body).value, boardId))]
    ensures prep.PrepareFailed? ==> r.sent == [] && r.reported == [Failed("Error preparing upload: " + Interp(prep.message))]
    ensures r.tempFile <==> prep.PrepareFailed? && prep.tempFileCreated
  {
    assert ValidUpload(Idle);
    var s1 := StartUpload(Idle, boardId, token, pinryUrl, prep);
    if s1.phase.AwaitingImage? then
      assert s1.sent == [ImageRequest(token, pinryUrl)] && s1.reported == [];
      var s2 := ImageReplied(s1, imageReply);
      if s2.phase.AwaitingPin? then PinReplied(s2, pinReply) else s2
    else
      assert s1.reported[0].Failed?;
      s1
  }

  /** One whole `createPinFromUrl`: a single request and a single callback, success iff the response is successful. */
  function UrlPinRun(imageUrl: string, boardId: string, token: string, pinryUrl: string, host: Option<string>, pinReply: Reply): (r: UploadState)
    ensures ValidUpload(r) && r.phase.Finished? && |r.reported| == 1 && !r.tempFile
    ensures r.sent == [PinRequest(token, pinryUrl, CreatePinFromUrlPayload(imageUrl, boardId, Domain(host)))]
    ensures r.reported == [Succeeded] <==> pinReply.Response? && IsSuccessful(pinReply.code)
  {
    PinReplied(StartPinFromUrl(Idle, imageUrl, boardId, token, pinryUrl, host), pinReply)
  }

  /**
   * One call of `upload` or `createPinFromUrl` and the callbacks it later
   * receives; the requests enqueued and the outcomes reported are recorded.
   */
  class UploadCall {
    var phase: Phase
    var tempFile: bool
    var sent: seq<Request>
    var reported: seq<Outcome>

    function State(): UploadState
      reads this
    {
      UploadState(phase, tempFile, sent, reported)
    }

    constructor ()
      ensures State() == Idle
    {
      phase := NotStarted;
      tempFile := false;
      sent := [];
      reported := [];
    }

    /** `upload`: write the temporary file, build the multipart request and enqueue it. */
    method Upload(boardId: string, token: string, pinryUrl: string, prep: Preparation)
      requires phase.NotStarted?
      modifies this
      ensures State() == StartUpload(old(State()), boardId, token, pinryUrl, prep)
    {
      match prep {
        case PrepareFailed(m, created) =>
          tempFile := created;
          reported := reported + [Failed("Error preparing upload: " + Interp(m))];
          phase := Finished;
        case Prepared =>
          tempFile := true;
          var request := BuildImageRequest(token, pinryUrl);
          sent := sent + [request];
          phase := AwaitingImage(boardId, token, pinryUrl);
      }
    }

    /** The pin request `createPin` and `createPinFromUrl` enqueue. */
    method EnqueuePin(token: string, pinryUrl: string, payload: string, fromUrl: bool)
      modifies this
      ensures State() == old(State()).(phase := AwaitingPin(fromUrl), sent := old(sent) + [PinRequest(token, pinryUrl, payload)])
    {
      var request := BuildPinRequest(token, pinryUrl, payload);
      sent := sent + [request];
      phase := AwaitingPin(fromUrl);
    }

    /** The image call's callback. */
    method OnImageReply(reply: Reply)
      requires phase.AwaitingImage?
      modifies this
      ensures State() == ImageReplied(old(State()), reply)
    {
      var AwaitingImage(boardId, token, pinryUrl) := phase;
      tempFile := false;
      match reply {
        case IoFailure(m) =>
          reported := reported + [Failed("Network error: " + Interp(m))];
          phase := Finished;
        case Response(code, reason, body) =>
          if IsSuccessful(code) {
            var imageId := ExtractImageId(body);
            if imageId.Some? {
              EnqueuePin(token, pinryUrl, CreatePinPayload(imageId.value, boardId), false);
            } else {
              reported := reported + [Failed("Failed to get image ID from response")];
              phase := Finished;
            }
          } else {
            reported := reported + [Failed("Image upload failed: " + IntToString(code) + " " + reason + " - " + Interp(body))];
            phase := Finished;
          }
      }
    }

    /** `createPinFromUrl`: build the payload with the extracted domain and enqueue it. */
    method CreatePinFromUrl(imageUrl: string, boardId: string, token: string, pinryUrl: string, host: Option<string>)
      requires phase.NotStarted?
      modifies this
      ensures State() == StartPinFromUrl(old(State()), imageUrl, boardId, token, pinryUrl, host)
    {
      var domain := Domain(host);
      EnqueuePin(token, pinryUrl, CreatePinFromUrlPayload(imageUrl, boardId, domain), true);
    }

    /** The pin call's callback. */
    method OnPinReply(reply: Reply)
      requires phase.AwaitingPin?
      modifies this
      ensures State() == PinReplied(old(State()), reply)
    {
      var fromUrl := phase.fromUrl;
      match reply {
        case IoFailure(m) =>
          var prefix := if fromUrl then "Network error creating pin from URL: " else "Network error creating pin: ";
          reported := reported + [Failed(prefix + Interp(m))];
        case Response(code, reason, body) =>
          if IsSuccessful(code) {
            reported := reported + [Succeeded];
          } else {
            var prefix := if fromUrl then "Pin creation from URL failed: " else "Pin creation failed: ";
            reported := reported + [Failed(prefix + IntToString(code) + " " + reason + " - " + Interp(body))];
          }
      }
      phase := Finished;
    }
  }
}
