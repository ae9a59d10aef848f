/** The part of JSON that the QR payload travels through: `JSON.stringify`
    of an object whose members are strings, integers, booleans or null, and a
    `JSON.parse` for the same shapes. Texts outside that subset (nested
    objects, arrays, fractions, exponents, escaped surrogates) are treated as
    unparsable. */
module Json {
  import opened Wrappers

  datatype Scalar = JNull | JBool(b: bool) | JNumber(n: int) | JString(s: string)

  datatype Member = Member(key: string, value: Scalar)

  /** A top-level JSON text: a bare scalar or a flat object. */
  datatype Document = Value(scalar: Scalar) | Object(members: seq<Member>)

  // ---------------------------------------------------------------------
  // Serialisation, as JSON.stringify writes it (no whitespace)
  // ---------------------------------------------------------------------

  predicate IsDigit(c: char) {
    '0' <= c <= '9'
  }

  function DigitChar(d: int): (c: char)
    requires 0 <= d < 10
    ensures IsDigit(c)
  {
    ('0' as int + d) as char
  }

  /** Lower-case hexadecimal digit, as JSON.stringify writes `\u00XX`. */
  function HexChar(d: int): char
    requires 0 <= d < 16
  {
    if d < 10 then ('0' as int + d) as char else ('a' as int + d - 10) as char
  }

  /** How JSON.stringify writes one character inside a string literal. */
  function EscapeChar(c: char): (r: string)
    ensures |r| >= 1
  {
    if c == '"' then ['\\', '"']
    else if c == '\\' then ['\\', '\\']
    else if c as int == 8 then ['\\', 'b']
    else if c as int == 12 then ['\\', 'f']
    else if c == '\n' then ['\\', 'n']
    else if c == '\r' then ['\\', 'r']
    else if c == '\t' then ['\\', 't']
    else if c as int < 32 then ['\\', 'u', '0', '0', HexChar(c as int / 16), HexChar(c as int % 16)]
    else [c]
  }

  function Escape(s: string): string {
    if s == [] then [] else EscapeChar(s[0]) + Escape(s[1..])
  }

  function Quote(s: string): string {
    ['"'] + Escape(s) + ['"']
  }

  /** Decimal digits of a natural number, without leading zeros. */
  function Decimal(n: nat): (r: string)
    ensures |r| >= 1
    ensures forall i :: 0 <= i < |r| ==> IsDigit(r[i])
  {
    if n < 10 then [DigitChar(n)] else Decimal(n / 10) + [DigitChar(n % 10)]
  }

  function NumberText(n: int): string {
    if n < 0 then ['-'] + Decimal(-n) else Decimal(n)
  }

  function ScalarText(v: Scalar): string {
    match v
    case JNull => "null"
    case JBool(b) => if b then "true" else "false"
    case JNumber(n) => NumberText(n)
    case JString(s) => Quote(s)
  }

  function MemberText(m: Member): string {
    Quote(m.key) + [':'] + ScalarText(m.value)
  }

  /** The members after the first, each preceded by a comma. */
  function TailText(ms: seq<Member>): string {
    if ms == [] then [] else [','] + MemberText(ms[0]) + TailText(ms[1..])
  }

  function Stringify(d: Document): string {
    match d
    case Value(v) => ScalarText(v)
    case Object(ms) =>
      if ms == [] then "{}" else ['{'] + MemberText(ms[0]) + TailText(ms[1..]) + ['}']
  }

  // ---------------------------------------------------------------------
  // Parsing
  // ---------------------------------------------------------------------

  predicate IsWs(c: char) {
    c == ' ' || c == '\t' || c == '\n' || c == '\r'
  }

  function SkipWs(s: string): (r: string)
    ensures |r| <= |s|
    ensures r == [] || !IsWs(r[0])
    ensures s == [] || !IsWs(s[0]) ==> r == s
  {
    if s != [] && IsWs(s[0]) then SkipWs(s[1..]) else s
  }

  function HexValue(c: char): Option<int> {
    if '0' <= c <= '9' then Some(c as int - '0' as int)
    else if 'a' <= c <= 'f' then Some(c as int - 'a' as int + 10)
    else if 'A' <= c <= 'F' then Some(c as int - 'A' as int + 10)
    else None
  }

  /** The character a `\uXXXX` escape names; surrogate halves are not supported. */
  function UnicodeEscape(h: string): Option<char>
    requires |h| == 4
  {
    match (HexValue(h[0]), HexValue(h[1]), HexValue(h[2]), HexValue(h[3]))
    case (Some(a), Some(b), Some(c), Some(d)) =>
      var code := ((a * 16 + b) * 16 + c) * 16 + d;
      if 0 <= code < 0xD800 || 0xE000 <= code < 0x1_0000 then Some(code as char) else None
    case _ => None
  }

  /** The character an escape sequence stands for (`s` starts after the
      backslash), with the text that follows it. */
  function ParseEscape(s: string): (r: Option<(char, string)>)
    ensures r.Some? ==> |r.value.1| < |s|
  {
    if s == [] then None
    else if s[0] == '"' then Some(('"', s[1..]))
    else if s[0] == '\\' then Some(('\\', s[1..]))
    else if s[0] == '/' then Some(('/', s[1..]))
    else if s[0] == 'b' then Some((8 as char, s[1..]))
    else if s[0] == 'f' then Some((12 as char, s[1..]))
    else if s[0] == 'n' then Some(('\n', s[1..]))
    else if s[0] == 'r' then Some(('\r', s[1..]))
    else if s[0] == 't' then Some(('\t', s[1..]))
    else if s[0] == 'u' && |s| >= 5 then
      match UnicodeEscape(s[1..5])
      case Some(c) => Some((c, s[5..]))
      case None => None
    else None
  }

  /** The contents of a string literal up to its closing quote (`s` starts
      after the opening quote), with the text after the closing quote. */
  function ParseStringChars(s: string): (r: Option<(string, string)>)
    ensures r.Some? ==> |r.value.1| < |s|
    decreases |s|
  {
    if s == [] then None
    else if s[0] == '"' then Some(([], s[1..]))
    else if s[0] == '\\' then
      match ParseEscape(s[1..])
      case None => None
      case Some((c, rest)) =>
        match ParseStringChars(rest)
        case None => None
        case Some((t, after)) => Some(([c] + t, after))
    else if (s[0] as int) < 32 then None
    else
      match ParseStringChars(s[1..])
      case None => None
      case Some((t, after)) => Some(([s[0]] + t, after))
  }

  function ParseString(s: string): (r: Option<(string, string)>)
    ensures r.Some? ==> |r.value.1| < |s|
  {
    if s != [] && s[0] == '"' then ParseStringChars(s[1..]) else None
  }

  /** Length of the run of decimal digits at the start of `s`. */
  function DigitRun(s: string): (k: nat)
    ensures k <= |s|
    ensures forall i :: 0 <= i < k ==> IsDigit(s[i])
    ensures k < |s| ==> !IsDigit(s[k])
  {
    if s != [] && IsDigit(s[0]) then 1 + DigitRun(s[1..]) else 0
  }

  function DecimalValue(s: string): nat
    requires forall i :: 0 <= i < |s| ==> IsDigit(s[i])
  {
    if s == [] then 0
    else
      assert IsDigit(s[|s| - 1]);
      DecimalValue(s[..|s| - 1]) * 10 + (s[|s| - 1] as int - '0' as int)
  }

  /** An integer literal: optional minus, digits without a leading zero. */
  function ParseNumber(s: string): (r: Option<(int, string)>)
    ensures r.Some? ==> |r.value.1| < |s|
  {
    var neg := s != [] && s[0] == '-';
    var body := if neg then s[1..] else s;
    var k := DigitRun(body);
    var rest := body[k..];
    if k == 0 || (k > 1 && body[0] == '0') then None
    else if rest != [] && (rest[0] == '.' || rest[0] == 'e' || rest[0] == 'E') then None
    else
      var v: int := DecimalValue(body[..k]);
      Some((if neg then -v else v, rest))
  }

  function ParseWord(s: string, word: string, v: Scalar): (r: Option<(Scalar, string)>)
    requires |word| > 0
    ensures r.Some? ==> |r.value.1| < |s|
  {
    if |s| >= |word| && s[..|word|] == word then Some((v, s[|word|..])) else None
  }

  function ParseScalar(s: string): (r: Option<(Scalar, string)>)
    ensures r.Some? ==> |r.value.1| < |s|
  {
    if s == [] then None
    else if s[0] == 'n' then ParseWord(s, "null", JNull)
    else if s[0] == 't' then ParseWord(s, "true", JBool(true))
    else if s[0] == 'f' then ParseWord(s, "false", JBool(false))
    else if s[0] == '"' then
      match ParseString(s)
      case None => None
      case Some((t, rest)) => Some((JString(t), rest))
    else if s[0] == '-' || IsDigit(s[0]) then
      match ParseNumber(s)
      case None => None
      case Some((n, rest)) => Some((JNumber(n), rest))
    else None
  }

  /** `"key" : value`, whitespace allowed around the colon. */
  function ParseMember(s: string): (r: Option<(Member, string)>)
    ensures r.Some? ==> |r.value.1| < |s|
  {
    match ParseString(s)
    case None => None
    case Some((key, rest)) =>
      var afterKey := SkipWs(rest);
      if afterKey == [] || afterKey[0] != ':' then None
      else
        match ParseScalar(SkipWs(afterKey[1..]))
        case None => None
        case Some((v, after)) => Some((Member(key, v), after))
  }

  /** One or more members separated by commas, then the closing brace. */
  function ParseMemberList(s: string): (r: Option<(seq<Member>, string)>)
    ensures r.Some? ==> |r.value.1| < |s|
    decreases |s|
  {
    match ParseMember(s)
    case None => None
    case Some((m, rest)) =>
      var t := SkipWs(rest);
      if t == [] then None
      else if t[0] == '}' then Some(([m], t[1..]))
      else if t[0] == ',' then
        match ParseMemberList(SkipWs(t[1..]))
        case None => None
        case Some((ms, after)) => Some(([m] + ms, after))
      else None
  }

  /** `JSON.parse` on the supported subset; `None` where it would throw or
      where the text leaves the subset. */
  function Parse(s: string): Option<Document> {
    var t := SkipWs(s);
    if t != [] && t[0] == '{' then
      var body := SkipWs(t[1..]);
      if body != [] && body[0] == '}' then
        (if SkipWs(body[1..]) == [] then Some(Object([])) else None)
      else
        match ParseMemberList(body)
        case Some((ms, rest)) => if SkipWs(rest) == [] then Some(Object(ms)) else None
        case None => None
    else
      match ParseScalar(t)
      case Some((v, rest)) => if SkipWs(rest) == [] then Some(Value(v)) else None
      case None => None
  }

  /** The value JavaScript reads for `key`: the last member with that key. */
  function Lookup(ms: seq<Member>, key: string): (r: Option<Scalar>)
    ensures r.Some? ==> exists i :: 0 <= i < |ms| && ms[i] == Member(key, r.value)
    ensures r.None? ==> forall i :: 0 <= i < |ms| ==> ms[i].key != key
  {
    if ms == [] then None
    else
      var last := ms[|ms| - 1];
      if last.key == key then Some(last.value)
      else
        var r := Lookup(ms[..|ms| - 1], key);
        assert forall i :: 0 <= i < |ms| - 1 ==> ms[..|ms| - 1][i] == ms[i];
        r
  }

  /** JavaScript truthiness of a scalar. */
  predicate Truthy(v: Scalar) {
    match v
    case JNull => false
    case JBool(b) => b
    case JNumber(n) => n != 0
    case JString(s) => s != ""
  }

  // ---------------------------------------------------------------------
  // Round trip
  // ---------------------------------------------------------------------

  lemma HexRoundTrip(d: int)
    requires 0 <= d < 16
    ensures HexValue(HexChar(d)) == Some(d)
  {
  }

  /** Reading back one written character consumes exactly what was written. */
  lemma {:induction false} EscapeCharRoundTrip(c: char, tail: string)
    ensures ParseStringChars(EscapeChar(c) + tail) ==
      match ParseStringChars(tail)
      case None => None
      case Some((t, after)) => Some(([c] + t, after))
  {
    var s := EscapeChar(c) + tail;
    if c == '"' || c == '\\' || c as int == 8 || c as int == 12 || c == '\n' || c == '\r' || c == '\t' {
      assert s[0] == '\\';
      assert s[1..] == [EscapeChar(c)[1]] + tail;
      assert ParseEscape(s[1..]) == Some((c, tail));
    } else if c as int < 32 {
      var hi, lo := c as int / 16, c as int % 16;
      assert s[0] == '\\';
      var e := s[1..];
      assert e == ['u', '0', '0', HexChar(hi), HexChar(lo)] + tail;
      assert e[1..5] == ['0', '0', HexChar(hi), HexChar(lo)];
      HexRoundTrip(hi);
      HexRoundTrip(lo);
      assert UnicodeEscape(e[1..5]) == Some(c);
      assert e[5..] == tail;
    } else {
      assert s[0] == c && s[1..] == tail;
    }
  }

  /** The escaped contents of a string, then a closing quote, read back as
      the string itself. */
  lemma {:induction false} EscapeRoundTrip(s: string, rest: string)
    ensures ParseStringChars(Escape(s) + ['"'] + rest) == Some((s, rest))
    decreases |s|
  {
    if s == [] {
      assert Escape(s) + ['"'] + rest == ['"'] + rest;
    } else {
      var tail := Escape(s[1..]) + ['"'] + rest;
      assert Escape(s) + ['"'] + rest == EscapeChar(s[0]) + tail;
      EscapeRoundTrip(s[1..], rest);
      EscapeCharRoundTrip(s[0], tail);
      assert [s[0]] + s[1..] == s;
    }
  }

  lemma QuoteRoundTrip(s: string, rest: string)
    ensures ParseString(Quote(s) + rest) == Some((s, rest))
  {
    var q := Quote(s) + rest;
    assert q[1..] == Escape(s) + ['"'] + rest;
    EscapeRoundTrip(s, rest);
  }

  lemma {:induction false} DecimalValueRoundTrip(n: nat)
    ensures DecimalValue(Decimal(n)) == n
    decreases n
  {
    if n >= 10 {
      var d := Decimal(n);
      assert d[..|d| - 1] == Decimal(n / 10);
      DecimalValueRoundTrip(n / 10);
    }
  }

  lemma {:induction false} DecimalNoLeadingZero(n: nat)
    ensures |Decimal(n)| > 1 ==> Decimal(n)[0] != '0'
    decreases n
  {
    if n >= 10 {
      DecimalNoLeadingZero(n / 10);
    }
  }

  lemma {:induction false} DigitRunPrefix(a: string, rest: string)
    requires forall i :: 0 <= i < |a| ==> IsDigit(a[i])
    requires rest == [] || !IsDigit(rest[0])
    ensures DigitRun(a + rest) == |a|
    decreases |a|
  {
    if a != [] {
      assert (a + rest)[1..] == a[1..] + rest;
      DigitRunPrefix(a[1..], rest);
    } else {
      assert a + rest == rest;
    }
  }

  /** A text that may follow a written number without being read as part of it. */
  predicate Delimits(rest: string) {
    rest == [] || rest[0] == ',' || rest[0] == '}'
  }

  lemma NumberRoundTrip(n: int, rest: string)
    requires Delimits(rest)
    ensures ParseNumber(NumberText(n) + rest) == Some((n, rest))
  {
    if n < 0 {
      NegativeRoundTrip(-n, rest);
      Regroup3(['-'], Decimal(-n), rest);
    } else {
      DigitsRoundTrip(n, rest);
    }
  }

  /** The digits of `m` followed by a delimiter read back as `m`. */
  lemma DigitsRoundTrip(m: nat, rest: string)
    requires Delimits(rest)
    ensures ParseNumber(Decimal(m) + rest) == Some((m, rest))
  {
    DigitsFacts(m, rest);
  }

  /** A minus sign before the digits of `m` reads back as `-m`. */
  lemma NegativeRoundTrip(m: nat, rest: string)
    requires Delimits(rest)
    ensures ParseNumber(['-'] + (Decimal(m) + rest)) == Some((-(m as int), rest))
  {
    var body := Decimal(m) + rest;
    assert (['-'] + body)[1..] == body;
    DigitsFacts(m, rest);
  }

  /** How the parser sees the digits of `m` followed by a delimiter. */
  lemma DigitsFacts(m: nat, rest: string)
    requires Delimits(rest)
    ensures var body := Decimal(m) + rest; var k := |Decimal(m)|;
      && body != [] && IsDigit(body[0])
      && DigitRun(body) == k
      && body[..k] == Decimal(m) && body[k..] == rest
      && (k > 1 ==> body[0] != '0')
      && DecimalValue(Decimal(m)) == m
  {
    var dm := Decimal(m);
    var body := dm + rest;
    assert body[0] == dm[0];
    DigitRunPrefix(dm, rest);
    assert body[..|dm|] == dm;
    assert body[|dm|..] == rest;
    DecimalValueRoundTrip(m);
    DecimalNoLeadingZero(m);
  }

  lemma WordRoundTrip(word: string, v: Scalar, rest: string)
    requires |word| > 0
    ensures ParseWord(word + rest, word, v) == Some((v, rest))
  {
    assert (word + rest)[..|word|] == word;
    assert (word + rest)[|word|..] == rest;
  }

  lemma ScalarRoundTrip(v: Scalar, rest: string)
    requires Delimits(rest)
    ensures ParseScalar(ScalarText(v) + rest) == Some((v, rest))
  {
    match v
    case JNull => WordRoundTrip("null", JNull, rest);
    case JBool(b) =>
      if b {
        WordRoundTrip("true", v, rest);
      } else {
        WordRoundTrip("false", v, rest);
      }
    case JNumber(n) => NumberScalarRoundTrip(n, rest);
    case JString(t) => StringScalarRoundTrip(t, rest);
  }

  lemma NumberScalarRoundTrip(n: int, rest: string)
    requires Delimits(rest)
    ensures ParseScalar(NumberText(n) + rest) == Some((JNumber(n), rest))
  {
    var s := NumberText(n) + rest;
    NumberRoundTrip(n, rest);
    assert s[0] == NumberText(n)[0];
    if n >= 0 {
      assert IsDigit(Decimal(n)[0]);
    }
  }

  lemma StringScalarRoundTrip(t: string, rest: string)
    ensures ParseScalar(Quote(t) + rest) == Some((JString(t), rest))
  {
    QuoteRoundTrip(t, rest);
    assert (Quote(t) + rest)[0] == '"';
  }

  lemma MemberRoundTrip(m: Member, rest: string)
    requires Delimits(rest)
    ensures ParseMember(MemberText(m) + rest) == Some((m, rest))
  {
    var tail := ScalarText(m.value) + rest;
    var afterKey := [':'] + tail;
    Regroup4(Quote(m.key), [':'], ScalarText(m.value), rest);
    assert MemberText(m) + rest == Quote(m.key) + afterKey;
    QuoteRoundTrip(m.key, afterKey);
    ScalarRoundTrip(m.value, rest);
    ScalarTextStart(m.value);
    assert tail[0] == ScalarText(m.value)[0];
    ParseMemberParts(MemberText(m) + rest, m.key, tail, m.value, rest);
  }

  /** A key, a colon right after it, and a value right after the colon. */
  lemma ParseMemberParts(s: string, key: string, tail: string, v: Scalar, rest: string)
    requires ParseString(s) == Some((key, [':'] + tail))
    requires tail != [] && !IsWs(tail[0])
    requires ParseScalar(tail) == Some((v, rest))
    ensures ParseMember(s) == Some((Member(key, v), rest))
  {
    assert ([':'] + tail)[1..] == tail;
  }

  /** A member list ending at its first member. */
  lemma MemberListLast(s: string, m: Member, rest: string)
    requires ParseMember(s) == Some((m, ['}'] + rest))
    ensures ParseMemberList(s) == Some(([m], rest))
  {
    assert SkipWs(['}'] + rest) == ['}'] + rest;
    assert (['}'] + rest)[1..] == rest;
  }

  /** A member list continuing after a comma. */
  lemma MemberListMore(s: string, m: Member, more: string, ms: seq<Member>, rest: string)
    requires ParseMember(s) == Some((m, [','] + more))
    requires more != [] && more[0] == '"'
    requires ParseMemberList(more) == Some((ms, rest))
    ensures ParseMemberList(s) == Some(([m] + ms, rest))
  {
    assert SkipWs([','] + more) == [','] + more;
    assert ([','] + more)[1..] == more;
    assert SkipWs(more) == more;
  }

  lemma MemberTextStart(m: Member)
    ensures |MemberText(m)| > 0 && MemberText(m)[0] == '"'
  {
  }

  lemma TailTextCons(ms: seq<Member>)
    requires ms != []
    ensures TailText(ms) == [','] + MemberText(ms[0]) + TailText(ms[1..])
  {
  }

  lemma MemberListOne(m: Member, rest: string)
    ensures ParseMemberList(MemberText(m) + TailText([]) + ['}'] + rest) == Some(([m], rest))
  {
    var s := MemberText(m) + (['}'] + rest);
    assert MemberText(m) + TailText([]) + ['}'] + rest == s;
    MemberRoundTrip(m, ['}'] + rest);
    MemberListLast(s, m, rest);
  }

  lemma TailShape(ms: seq<Member>, rest: string)
    requires ms != []
    ensures TailText(ms) + ['}'] + rest == [','] + (MemberText(ms[0]) + TailText(ms[1..]) + ['}'] + rest)
  {
    TailTextCons(ms);
    Regroup5([','], MemberText(ms[0]), TailText(ms[1..]), ['}'], rest);
  }

  lemma Regroup5(a: string, b: string, c: string, d: string, e: string)
    ensures a + b + c + d + e == a + (b + c + d + e)
  {
  }

  lemma Regroup3(a: string, b: string, c: string)
    ensures a + b + c == a + (b + c)
  {
  }

  lemma Regroup4(a: string, b: string, c: string, d: string)
    ensures a + b + c + d == a + (b + c + d)
  {
  }

  lemma MemberListCons(m: Member, ms: seq<Member>, rest: string)
    requires ms != []
    requires ParseMemberList(MemberText(ms[0]) + TailText(ms[1..]) + ['}'] + rest) == Some((ms, rest))
    ensures ParseMemberList(MemberText(m) + TailText(ms) + ['}'] + rest) == Some(([m] + ms, rest))
  {
    var more := MemberText(ms[0]) + TailText(ms[1..]) + ['}'] + rest;
    var after := TailText(ms) + ['}'] + rest;
    TailShape(ms, rest);
    MemberRoundTrip(m, after);
    MemberTextStart(ms[0]);
    MemberListMore(MemberText(m) + after, m, more, ms, rest);
    Regroup4(MemberText(m), TailText(ms), ['}'], rest);
  }

  lemma {:induction false} MemberListRoundTrip(m: Member, ms: seq<Member>, rest: string)
    ensures ParseMemberList(MemberText(m) + TailText(ms) + ['}'] + rest) == Some(([m] + ms, rest))
    decreases |ms|
  {
    if ms == [] {
      MemberListOne(m, rest);
      assert [m] + ms == [m];
    } else {
      MemberListRoundTrip(ms[0], ms[1..], rest);
      assert [ms[0]] + ms[1..] == ms;
      MemberListCons(m, ms, rest);
    }
  }

  lemma ParseObjectText(body: string, ms: seq<Member>)
    requires body != [] && body[0] == '"'
    requires ParseMemberList(body) == Some((ms, []))
    ensures Parse(['{'] + body) == Some(Object(ms))
  {
    assert (['{'] + body)[1..] == body;
  }

  lemma ParseScalarText(s: string, v: Scalar)
    requires s != [] && !IsWs(s[0]) && s[0] != '{'
    requires ParseScalar(s) == Some((v, []))
    ensures Parse(s) == Some(Value(v))
  {
  }

  lemma ScalarTextStart(v: Scalar)
    ensures ScalarText(v) != [] && !IsWs(ScalarText(v)[0]) && ScalarText(v)[0] != '{'
  {
    if v.JNumber? && v.n >= 0 {
      assert IsDigit(Decimal(v.n)[0]);
    }
  }

  lemma ValueRoundTrip(v: Scalar)
    ensures Parse(ScalarText(v)) == Some(Value(v))
  {
    ScalarRoundTrip(v, []);
    assert ScalarText(v) + [] == ScalarText(v);
    ScalarTextStart(v);
    ParseScalarText(ScalarText(v), v);
  }

  lemma EmptyObjectRoundTrip()
    ensures Parse(Stringify(Object([]))) == Some(Object([]))
  {
    assert Stringify(Object([])) == "{}";
    assert "{}"[1..] == "}";
  }

  lemma ObjectRoundTrip(ms: seq<Member>)
    requires ms != []
    ensures Parse(Stringify(Object(ms))) == Some(Object(ms))
  {
    var body := MemberText(ms[0]) + TailText(ms[1..]) + ['}'];
    assert Stringify(Object(ms)) == ['{'] + body;
    MemberListRoundTrip(ms[0], ms[1..], []);
    assert body + [] == body;
    assert [ms[0]] + ms[1..] == ms;
    MemberTextStart(ms[0]);
    ParseObjectText(body, ms);
  }

  /** A written object starts and ends with its braces. */
  lemma ObjectTextBraces(ms: seq<Member>)
    ensures var t := Stringify(Object(ms)); |t| >= 2 && t[0] == '{' && t[|t| - 1] == '}'
  {
    if ms != [] {
      var inner := ['{'] + MemberText(ms[0]) + TailText(ms[1..]);
      assert Stringify(Object(ms)) == inner + ['}'];
    }
  }

  /** Whatever `JSON.stringify` writes, the parser reads back. */
  lemma StringifyRoundTrip(d: Document)
    ensures Parse(Stringify(d)) == Some(d)
  {
    match d
    case Value(v) => ValueRoundTrip(v);
    case Object(ms) =>
      if ms == [] {
        EmptyObjectRoundTrip();
      } else {
        ObjectRoundTrip(ms);
      }
  }
}
