/**
 * The test helper that turns raw response header lines into an array: a
 * line with a colon becomes `trimmed name => trimmed value`; any other line
 * is appended under the next integer index and, when it is an HTTP status
 * line, its status code is stored under `response_code`.
 */
module HeaderParsing {
  import opened Wrappers
  import opened OrderedMaps
  import opened Text

  /** A key of the result: a header name, or an integer index of an appended line. */
  datatype Key = Named(name: string) | Position(index: nat)

  /** A value of the result: a line or header value, or the integer status code. */
  datatype Entry = Line(text: string) | Code(code: nat)

  /** The array being built and PHP's next free integer index for `$a[] = ...`. */
  datatype Parsed = Parsed(entries: OMap<Key, Entry>, next: nat)

  // ---------------------------------------------------------------------
  // explode(':', $header, 2)
  // ---------------------------------------------------------------------

  /** The text before the first colon and the text after it, or `None` when there is no colon. */
  function SplitAtColon(h: string): (r: Option<(string, string)>)
    ensures r.Some? <==> ':' in h
    ensures r.Some? ==> r.value.0 + [':'] + r.value.1 == h
    ensures r.Some? ==> ':' !in r.value.0
  {
    var i := IndexOfChar(h, ':');
    if i == |h| then None
    else
      assert h[..i] + [':'] + h[i + 1..] == h;
      Some((h[..i], h[i + 1..]))
  }

  // ---------------------------------------------------------------------
  // preg_match('#HTTP/[0-9\.]+\s+([0-9]+)#', $header, $out)
  // ---------------------------------------------------------------------

  predicate IsDigit(c: char) { '0' <= c <= '9' }

  predicate IsVersionChar(c: char) { IsDigit(c) || c == '.' }

  /** PCRE's `\s`: space, tab, line feed, vertical tab, form feed, carriage return. */
  predicate IsSpace(c: char) {
    c == ' ' || c == '\t' || c == '\n' || c == '\U{B}' || c == '\U{C}' || c == '\r'
  }

  /** The three character classes of the pattern. */
  datatype Class = Version | Space | Digit

  predicate In(c: char, k: Class) {
    match k
    case Version => IsVersionChar(c)
    case Space => IsSpace(c)
    case Digit => IsDigit(c)
  }

  /** The length of the longest run of characters of class `p` starting at `i`. */
  function Run(s: string, i: nat, p: Class): (n: nat)
    requires i <= |s|
    ensures i + n <= |s|
    decreases |s| - i
  {
    if i < |s| && In(s[i], p) then 1 + Run(s, i + 1, p) else 0
  }

  /** The run is of class `p` throughout, and whatever follows it is not. */
  lemma {:induction false} RunClass(s: string, i: nat, p: Class)
    requires i <= |s|
    ensures forall j :: i <= j < i + Run(s, i, p) ==> In(s[j], p)
    ensures i + Run(s, i, p) < |s| ==> !In(s[i + Run(s, i, p)], p)
    decreases |s| - i
  {
    if i < |s| && In(s[i], p) {
      RunClass(s, i + 1, p);
    }
  }

  /** The value of a decimal digit (the pattern only ever captures digits). */
  function DigitValue(c: char): (r: nat)
    ensures r < 10
  {
    if IsDigit(c) then c as int - '0' as int else 0
  }

  /** The value of a string of decimal digits. */
  function DigitsValue(d: string): nat {
    if d == [] then 0
    else DigitsValue(d[..|d| - 1]) * 10 + DigitValue(d[|d| - 1])
  }

  /** PHP's largest integer: `(int)` of a longer digit string saturates there. */
  const PhpIntMax: nat := 0x7FFF_FFFF_FFFF_FFFF

  /**
   * The least value that rounds to infinity as an IEEE 754 double,
   * 2^1024 - 2^970: halfway between the largest finite double,
   * 2^1024 - 2^971, and 2^1024 (ties round to the even significand, which
   * is 2^1024). In hexadecimal, 54 one bits followed by 970 zero bits.
   */
  const DoubleOverflow: nat := 0xFFFF_FFFF_FFFF_FC00_0000_0000_0000_0000_0000_0000_0000_0000_0000_0000_0000_0000_0000_0000_0000_0000_0000_0000_0000_0000_0000_0000_0000_0000_0000_0000_0000_0000_0000_0000_0000_0000_0000_0000_0000_0000_0000_0000_0000_0000_0000_0000_0000_0000_0000_0000_0000_0000_0000_0000_0000_0000_0000_0000_0000_0000_0000_0000_0000_0000

  /**
   * `(int) $digits` on a 64-bit build. A digit string too large for an
   * integer is read as a double and then capped at PHP's largest integer,
   * except that a double that has overflowed to infinity converts to 0.
   */
  function IntCast(d: string): (r: nat)
    ensures r <= PhpIntMax
    ensures DigitsValue(d) <= PhpIntMax ==> r == DigitsValue(d)
    ensures PhpIntMax < DigitsValue(d) < DoubleOverflow ==> r == PhpIntMax
    ensures DoubleOverflow <= DigitsValue(d) ==> r == 0
  {
    if DigitsValue(d) <= PhpIntMax then DigitsValue(d)
    else if DigitsValue(d) < DoubleOverflow then PhpIntMax
    else 0
  }

  /**
   * The pattern tried at position `p`.  The version and space classes are
   * disjoint from what follows each of them, so backtracking can only give
   * back characters that cannot continue the match: every run is taken
   * whole, and the captured code is the whole digit run after the spaces.
   */
  function MatchAt(h: string, p: nat): Option<nat>
    requires p <= |h|
  {
    if MarkerAt(h, p) then VersionAt(h, p + 5) else None
  }

  /** `[0-9\.]+` at `i`, then the rest of the pattern. */
  function VersionAt(h: string, i: nat): Option<nat>
    requires i <= |h|
  {
    var v := Run(h, i, Version);
    if v == 0 then None else SpacesAt(h, i + v)
  }

  /** `\s+` at `i`, then the captured digits. */
  function SpacesAt(h: string, i: nat): Option<nat>
    requires i <= |h|
  {
    var w := Run(h, i, Space);
    if w == 0 then None else CodeAt(h, i + w)
  }

  /** `([0-9]+)` at `i`: the captured digits as an integer. */
  function CodeAt(h: string, i: nat): Option<nat>
    requires i <= |h|
  {
    var d := Run(h, i, Digit);
    if d == 0 then None else Some(IntCast(h[i..i + d]))
  }

  /**
   * The leftmost match at or after position `p`; `StatusFrom(h, 0)` is the
   * captured status code of line `h`, if the line matches.
   */
  function StatusFrom(h: string, p: nat): Option<nat>
    requires p <= |h|
    decreases |h| - p
  {
    if MatchAt(h, p).Some? then MatchAt(h, p)
    else if p == |h| then None
    else StatusFrom(h, p + 1)
  }

  /** `HTTP/` starts at position `q` of `h`. */
  predicate MarkerAt(h: string, q: nat) {
    q + 5 <= |h| && h[q..q + 5] == "HTTP/"
  }

  /** A line matches only where it contains `HTTP/`. */
  lemma {:induction false} StatusFromNeedsMarker(h: string, p: nat)
    requires p <= |h|
    ensures StatusFrom(h, p).Some? ==> exists q :: p <= q && MarkerAt(h, q)
    decreases |h| - p
  {
    if MatchAt(h, p).None? && p < |h| {
      StatusFromNeedsMarker(h, p + 1);
    }
  }

  /**
   * A status line `HTTP/<version><spaces><code><rest>`, with `rest` not
   * continuing the digits, yields `code` as an integer.
   */
  lemma StatusLineCode(version: string, spaces: string, code: string, rest: string)
    requires |version| > 0 && forall j :: 0 <= j < |version| ==> IsVersionChar(version[j])
    requires |spaces| > 0 && forall j :: 0 <= j < |spaces| ==> IsSpace(spaces[j])
    requires |code| > 0 && forall j :: 0 <= j < |code| ==> IsDigit(code[j])
    requires rest == [] || !IsDigit(rest[0])
    ensures StatusFrom("HTTP/" + version + spaces + code + rest, 0) == Some(IntCast(code))
  {
    Layout(version, spaces, code, rest);
    StatusOfParts("HTTP/" + version + spaces + code + rest, version, spaces, code, 5 + |version|, 5 + |version| + |spaces|);
  }

  /** The chain of runs in a line laid out as `HTTP/<version><spaces><code>...`, the spaces at `a`, the code at `b`. */
  lemma StatusOfParts(h: string, version: string, spaces: string, code: string, a: nat, b: nat)
    requires |version| > 0 && forall j :: 0 <= j < |version| ==> IsVersionChar(version[j])
    requires |spaces| > 0 && forall j :: 0 <= j < |spaces| ==> IsSpace(spaces[j])
    requires |code| > 0 && forall j :: 0 <= j < |code| ==> IsDigit(code[j])
    requires a == 5 + |version| && b == a + |spaces| && b + |code| <= |h|
    requires MarkerAt(h, 0)
    requires h[5..a] == version && h[a] == spaces[0]
    requires h[a..b] == spaces && h[b] == code[0]
    requires h[b..b + |code|] == code
    requires b + |code| < |h| ==> !IsDigit(h[b + |code|])
    ensures StatusFrom(h, 0) == Some(IntCast(code))
  {
    var n := IntCast(code);
    SpacesThenCode(h, a, b, spaces, code);
    assert IsSpace(h[a]);
    VersionIs(h, 5, a, version, n);
    MatchAtStart(h, n);
  }

  /** Where the parts of a status line sit. */
  lemma Layout(version: string, spaces: string, code: string, rest: string)
    requires |version| > 0 && |spaces| > 0 && |code| > 0
    ensures var h := "HTTP/" + version + spaces + code + rest;
      var a := 5 + |version|;
      var b := a + |spaces|;
      var c := b + |code|;
      && c + |rest| == |h|
      && MarkerAt(h, 0)
      && h[5..a] == version && h[a] == spaces[0]
      && h[a..b] == spaces && h[b] == code[0]
      && h[b..c] == code && (c < |h| ==> h[c] == rest[0] && h[c..] == rest)
  {
    var h := "HTTP/" + version + spaces + code + rest;
    assert h[0..0 + 5] == "HTTP/";
  }

  /** A match at the start of the line is the leftmost one. */
  lemma MatchAtStart(h: string, n: nat)
    requires MarkerAt(h, 0) && VersionAt(h, 5) == Some(n)
    ensures StatusFrom(h, 0) == Some(n)
  {
  }

  /** Spaces from `i` to `k`, then a digit run `code` not followed by a digit. */
  lemma SpacesThenCode(h: string, i: nat, k: nat, spaces: string, code: string)
    requires k == i + |spaces| && k + |code| <= |h|
    requires |spaces| > 0 && forall j :: 0 <= j < |spaces| ==> IsSpace(spaces[j])
    requires |code| > 0 && forall j :: 0 <= j < |code| ==> IsDigit(code[j])
    requires h[i..k] == spaces && h[k..k + |code|] == code && h[k] == code[0]
    requires k + |code| < |h| ==> !IsDigit(h[k + |code|])
    ensures SpacesAt(h, i) == Some(IntCast(code))
  {
    CodeIs(h, k, code);
    SpacesIs(h, i, k, spaces, IntCast(code));
  }

  /** A digit run `code` at `i`, not followed by a digit, is captured whole. */
  lemma CodeIs(h: string, i: nat, code: string)
    requires i + |code| <= |h| && h[i..i + |code|] == code
    requires |code| > 0 && forall j :: 0 <= j < |code| ==> IsDigit(code[j])
    requires i + |code| < |h| ==> !IsDigit(h[i + |code|])
    ensures CodeAt(h, i) == Some(IntCast(code))
  {
    RunIs(h, i, Digit, code);
  }

  /** A run of spaces at `i` followed by a digit leads on to the capture after it. */
  lemma SpacesIs(h: string, i: nat, k: nat, spaces: string, n: nat)
    requires k == i + |spaces| < |h|
    requires h[i..k] == spaces
    requires |spaces| > 0
    requires forall j :: 0 <= j < |spaces| ==> IsSpace(spaces[j])
    requires IsDigit(h[k])
    requires CodeAt(h, k) == Some(n)
    ensures SpacesAt(h, i) == Some(n)
  {
    RunIs(h, i, Space, spaces);
  }

  /** A version run at `i` followed by a space leads on to the match after it. */
  lemma VersionIs(h: string, i: nat, k: nat, version: string, n: nat)
    requires k == i + |version| < |h|
    requires h[i..k] == version
    requires |version| > 0
    requires forall j :: 0 <= j < |version| ==> IsVersionChar(version[j])
    requires IsSpace(h[k])
    requires SpacesAt(h, k) == Some(n)
    ensures VersionAt(h, i) == Some(n)
  {
    RunIs(h, i, Version, version);
  }

  /** The run starting at `i` is exactly `t` when `t` is there and the next character stops it. */
  lemma {:induction false} RunIs(s: string, i: nat, p: Class, t: string)
    requires i + |t| <= |s| && s[i..i + |t|] == t
    requires forall j :: 0 <= j < |t| ==> In(t[j], p)
    requires i + |t| < |s| ==> !In(s[i + |t|], p)
    ensures Run(s, i, p) == |t|
    decreases |t|
  {
    if |t| > 0 {
      assert s[i] == t[0];
      assert s[i + 1..i + |t|] == t[1..];
      RunIs(s, i + 1, p, t[1..]);
    }
  }

  /** `HTTP/1.1 200 OK` has status code 200. */
  lemma StatusOk()
    ensures StatusFrom("HTTP/1.1 200 OK", 0) == Some(200)
  {
    StatusLineCode("1.1", " ", "200", " OK");
    assert "HTTP/" + "1.1" + " " + "200" + " OK" == "HTTP/1.1 200 OK";
    assert DigitsValue("200") == 200 by {
      assert "200"[..2] == "20";
      assert "20"[..1] == "2";
      assert "2"[..0] == "";
    }
  }

  // ---------------------------------------------------------------------
  // parse
  // ---------------------------------------------------------------------

  /** What one line contributes: a header, or a line to append with its status code if it has one. */
  datatype LineKind = HeaderLine(name: string, value: string) | OtherLine(text: string, code: Option<nat>)

  /**
   * A line with a colon is a header whose name and value are the trimmed
   * text before and after its first colon; any other line is kept whole,
   * with the status code of the first match of the status pattern.
   */
  function Classify(h: string): (k: LineKind)
    ensures k.HeaderLine? <==> ':' in h
    ensures k.OtherLine? ==> k.text == h
  {
    match SplitAtColon(h)
    case Some((name, value)) => HeaderLine(Trim(name), Trim(value))
    case None => OtherLine(h, StatusFrom(h, 0))
  }

  /** One pass of the loop in `parse`, for a line of kind `k`. */
  function ParseLine(st: Parsed, k: LineKind): Parsed {
    match k
    case HeaderLine(name, value) => st.(entries := st.entries.Put(Named(name), Line(value)))
    case OtherLine(h, code) =>
      var appended := Parsed(st.entries.Put(Position(st.next), Line(h)), st.next + 1);
      if code.Some? then appended.(entries := appended.entries.Put(Named("response_code"), Code(code.value)))
      else appended
  }

  /** The classification of each line, in order. */
  function Kinds(headers: seq<string>): (ks: seq<LineKind>)
    ensures |ks| == |headers|
  {
    seq(|headers|, j requires 0 <= j < |headers| => Classify(headers[j]))
  }

  /** The loop in `parse` over lines of kinds `ks`, from `st`. */
  function ParseFrom(st: Parsed, ks: seq<LineKind>): Parsed {
    if ks == [] then st
    else ParseLine(ParseFrom(st, ks[..|ks| - 1]), ks[|ks| - 1])
  }

  function ParseAll(headers: seq<string>): Parsed {
    ParseFrom(Parsed(Empty(), 0), Kinds(headers))
  }

  /** The lines without a colon, in order: the ones `parse` appends by index. */
  function Unnamed(headers: seq<string>): seq<string> {
    if headers == [] then []
    else
      var h := headers[|headers| - 1];
      Unnamed(headers[..|headers| - 1]) + (if ':' in h then [] else [h])
  }

  /** The texts of the lines of `ks` that are appended. */
  function Appended(ks: seq<LineKind>): seq<string> {
    if ks == [] then []
    else
      var k := ks[|ks| - 1];
      Appended(ks[..|ks| - 1]) + (if k.HeaderLine? then [] else [k.text])
  }

  /** The appended lines are exactly the lines without a colon. */
  lemma {:induction false} AppendedUnnamed(headers: seq<string>)
    ensures Appended(Kinds(headers)) == Unnamed(headers)
  {
    if headers != [] {
      var init := headers[..|headers| - 1];
      AppendedUnnamed(init);
      assert Kinds(headers)[..|headers| - 1] == Kinds(init);
      assert Kinds(headers)[|headers| - 1] == Classify(headers[|headers| - 1]);
    }
  }

  /** Whether a line of kind `k` writes the named key `name`. */
  predicate Writes(k: LineKind, name: string) {
    match k
    case HeaderLine(n, _) => n == name
    case OtherLine(_, code) => name == "response_code" && code.Some?
  }

  /**
   * `st` holds `lines` under the indices 0, 1, 2, ... in order, the next free
   * index is their count, and no other index is used.
   */
  ghost predicate Numbered(st: Parsed, lines: seq<string>) {
    && st.entries.Valid()
    && st.next == |lines|
    && (forall i: nat :: i < |lines| ==> Position(i) in st.entries.vals && st.entries.vals[Position(i)] == Line(lines[i]))
    && (forall n: nat :: Position(n) in st.entries.vals ==> n < st.next)
  }

  /** Writing a named key keeps the numbering. */
  lemma PutNamedNumbered(st: Parsed, lines: seq<string>, name: string, e: Entry)
    requires Numbered(st, lines)
    ensures Numbered(st.(entries := st.entries.Put(Named(name), e)), lines)
  {
  }

  /** Appending a line under the next index extends the numbering by it. */
  lemma AppendNumbered(st: Parsed, lines: seq<string>, h: string)
    requires Numbered(st, lines)
    ensures Numbered(Parsed(st.entries.Put(Position(st.next), Line(h)), st.next + 1), lines + [h])
  {
    var r := Parsed(st.entries.Put(Position(st.next), Line(h)), st.next + 1);
    forall i: nat | i < |lines + [h]|
      ensures Position(i) in r.entries.vals && r.entries.vals[Position(i)] == Line((lines + [h])[i])
    {
      if i < |lines| {
        assert Position(i) != Position(st.next);
      }
    }
  }

  /** One line keeps the numbering, extending it by the line when it is appended. */
  lemma ParseLineNumbered(st: Parsed, lines: seq<string>, k: LineKind)
    requires Numbered(st, lines)
    ensures Numbered(ParseLine(st, k), if k.HeaderLine? then lines else lines + [k.text])
  {
    match k
    case HeaderLine(name, value) =>
      PutNamedNumbered(st, lines, name, Line(value));
    case OtherLine(h, code) =>
      var appended := Parsed(st.entries.Put(Position(st.next), Line(h)), st.next + 1);
      AppendNumbered(st, lines, h);
      if code.Some? {
        PutNamedNumbered(appended, lines + [h], "response_code", Code(code.value));
      }
  }

  /** The loop numbers exactly the appended lines. */
  lemma {:induction false} ParseFromNumbered(ks: seq<LineKind>)
    ensures Numbered(ParseFrom(Parsed(Empty(), 0), ks), Appended(ks))
  {
    if ks != [] {
      var init := ks[..|ks| - 1];
      ParseFromNumbered(init);
      ParseLineNumbered(ParseFrom(Parsed(Empty(), 0), init), Appended(init), ks[|ks| - 1]);
    }
  }

  /** `parse` numbers exactly the lines without a colon. */
  lemma ParsePositions(headers: seq<string>)
    ensures Numbered(ParseAll(headers), Unnamed(headers))
  {
    ParseFromNumbered(Kinds(headers));
    AppendedUnnamed(headers);
  }

  /** A line that does not write `name` leaves its entry alone. */
  lemma ParseLineKeepsName(st: Parsed, k: LineKind, name: string)
    requires Named(name) in st.entries.vals && !Writes(k, name)
    ensures Named(name) in ParseLine(st, k).entries.vals
    ensures ParseLine(st, k).entries.vals[Named(name)] == st.entries.vals[Named(name)]
  {
  }

  /** A named key keeps its entry through lines that do not write it. */
  lemma {:induction false} ParseKeepsName(st: Parsed, ks: seq<LineKind>, name: string)
    requires Named(name) in st.entries.vals
    requires forall j :: 0 <= j < |ks| ==> !Writes(ks[j], name)
    ensures Named(name) in ParseFrom(st, ks).entries.vals
    ensures ParseFrom(st, ks).entries.vals[Named(name)] == st.entries.vals[Named(name)]
  {
    if ks != [] {
      ParseKeepsName(st, ks[..|ks| - 1], name);
      ParseLineKeepsName(ParseFrom(st, ks[..|ks| - 1]), ks[|ks| - 1], name);
    }
  }

  lemma SplitAround<T>(s: seq<T>, i: nat)
    requires i < |s|
    ensures s[..i + 1] + s[i + 1..] == s
    ensures s[..i + 1][..i] == s[..i]
    ensures s[..i + 1][i] == s[i]
  {
  }

  /** Parsing in two stretches is parsing the whole. */
  lemma {:induction false} ParseSplit(st: Parsed, a: seq<LineKind>, b: seq<LineKind>)
    ensures ParseFrom(st, a + b) == ParseFrom(ParseFrom(st, a), b)
  {
    if b != [] {
      ParseSplit(st, a, b[..|b| - 1]);
      assert (a + b)[..|a + b| - 1] == a + b[..|b| - 1];
    } else {
      assert a + b == a;
    }
  }

  /** An entry written by the first `i + 1` lines survives the later lines that do not write its name. */
  lemma LaterLinesKeep(ks: seq<LineKind>, i: nat, name: string)
    requires i < |ks|
    requires Named(name) in ParseFrom(Parsed(Empty(), 0), ks[..i + 1]).entries.vals
    requires forall j :: i < j < |ks| ==> !Writes(ks[j], name)
    ensures Named(name) in ParseFrom(Parsed(Empty(), 0), ks).entries.vals
    ensures ParseFrom(Parsed(Empty(), 0), ks).entries.vals[Named(name)] ==
      ParseFrom(Parsed(Empty(), 0), ks[..i + 1]).entries.vals[Named(name)]
  {
    var st := Parsed(Empty(), 0);
    var head := ks[..i + 1];
    var tail := ks[i + 1..];
    assert ParseFrom(st, ks) == ParseFrom(ParseFrom(st, head), tail) by {
      ParseSplit(st, head, tail);
      SplitAround(ks, i);
    }
    forall j | 0 <= j < |tail| ensures !Writes(tail[j], name) {
      assert tail[j] == ks[i + 1 + j];
    }
    ParseKeepsName(ParseFrom(st, head), tail, name);
  }

  /** The last header line among `ks` that writes its name determines that name's entry. */
  lemma LastWriteWins(ks: seq<LineKind>, i: nat)
    requires i < |ks| && ks[i].HeaderLine?
    requires forall j :: i < j < |ks| ==> !Writes(ks[j], ks[i].name)
    ensures Named(ks[i].name) in ParseFrom(Parsed(Empty(), 0), ks).entries.vals
    ensures ParseFrom(Parsed(Empty(), 0), ks).entries.vals[Named(ks[i].name)] == Line(ks[i].value)
  {
    assert ParseFrom(Parsed(Empty(), 0), ks[..i + 1]) == ParseLine(ParseFrom(Parsed(Empty(), 0), ks[..i]), ks[i]) by {
      SplitAround(ks, i);
    }
    LaterLinesKeep(ks, i, ks[i].name);
  }

  /** The last status line among `ks` determines `response_code`, unless a later header line is named so. */
  lemma LastStatusWins(ks: seq<LineKind>, i: nat)
    requires i < |ks| && ks[i].OtherLine? && ks[i].code.Some?
    requires forall j :: i < j < |ks| ==> !Writes(ks[j], "response_code")
    ensures Named("response_code") in ParseFrom(Parsed(Empty(), 0), ks).entries.vals
    ensures ParseFrom(Parsed(Empty(), 0), ks).entries.vals[Named("response_code")] == Code(ks[i].code.value)
  {
    assert ParseFrom(Parsed(Empty(), 0), ks[..i + 1]) == ParseLine(ParseFrom(Parsed(Empty(), 0), ks[..i]), ks[i]) by {
      SplitAround(ks, i);
    }
    LaterLinesKeep(ks, i, "response_code");
  }

  /**
   * A header line sets its trimmed name to its trimmed value (the value
   * keeps any further colons); the last line writing a name wins.
   */
  lemma HeaderLastWins(headers: seq<string>, i: nat)
    requires i < |headers| && Classify(headers[i]).HeaderLine?
    requires forall j :: i < j < |headers| ==> !Writes(Classify(headers[j]), Classify(headers[i]).name)
    ensures Named(Classify(headers[i]).name) in ParseAll(headers).entries.vals
    ensures ParseAll(headers).entries.vals[Named(Classify(headers[i]).name)] == Line(Classify(headers[i]).value)
  {
    var ks := Kinds(headers);
    forall j | i < j < |headers| ensures !Writes(ks[j], ks[i].name) {
      assert ks[j] == Classify(headers[j]);
    }
    LastWriteWins(ks, i);
  }

  /**
   * A line without a colon that matches the status pattern records its code
   * under `response_code`; the last line writing that name wins.
   */
  lemma StatusLastWins(headers: seq<string>, i: nat)
    requires i < |headers| && ':' !in headers[i] && StatusFrom(headers[i], 0).Some?
    requires forall j :: i < j < |headers| ==> !Writes(Classify(headers[j]), "response_code")
    ensures Named("response_code") in ParseAll(headers).entries.vals
    ensures ParseAll(headers).entries.vals[Named("response_code")] == Code(StatusFrom(headers[i], 0).value)
  {
    var ks := Kinds(headers);
    forall j | i < j < |headers| ensures !Writes(ks[j], "response_code") {
      assert ks[j] == Classify(headers[j]);
    }
    LastStatusWins(ks, i);
  }

  /**
   * `parse`: each line in order; a line with a colon is split at its first
   * colon, any other is appended and, when it is a status line, also
   * recorded as `response_code`.
   */
  method Parse(headers: seq<string>) returns (parsed: OMap<Key, Entry>)
    ensures parsed == ParseAll(headers).entries
  {
    parsed := Empty();
    var next := 0;
    var i := 0;
    while i < |headers|
      invariant 0 <= i <= |headers|
      invariant Parsed(parsed, next) == ParseFrom(Parsed(Empty(), 0), Kinds(headers)[..i])
    {
      assert Kinds(headers)[..i + 1][..i] == Kinds(headers)[..i];
      assert Kinds(headers)[i] == Classify(headers[i]);
      parsed, next := ParseHeader(parsed, next, headers[i]);
      i := i + 1;
    }
    assert Kinds(headers)[..i] == Kinds(headers);
  }

  /** The body of the loop in `parse` for one line. */
  method ParseHeader(parsed0: OMap<Key, Entry>, next0: nat, header: string) returns (parsed: OMap<Key, Entry>, next: nat)
    ensures Parsed(parsed, next) == ParseLine(Parsed(parsed0, next0), Classify(header))
  {
    parsed, next := parsed0, next0;
    var colon := IndexOfChar(header, ':');
    if colon < |header| {
      parsed := parsed.Put(Named(Trim(header[..colon])), Line(Trim(header[colon + 1..])));
    } else {
      parsed := parsed.Put(Position(next), Line(header));
      next := next + 1;
      var code := StatusFrom(header, 0);
      if code.Some? {
        parsed := parsed.Put(Named("response_code"), Code(code.value));
      }
    }
  }
}
