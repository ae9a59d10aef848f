/** Base-36 numerals as `Number.prototype.toString(36)` writes them for
    non-negative integers (lower-case digits, no leading zeros), the ASCII
    part of `String.prototype.toUpperCase`, and a reader that accepts
    either case. */
module Base36 {
  import opened Wrappers

  predicate IsLowerDigit(c: char) {
    ('0' <= c <= '9') || ('a' <= c <= 'z')
  }

  predicate IsUpperDigit(c: char) {
    ('0' <= c <= '9') || ('A' <= c <= 'Z')
  }

  function DigitChar(d: nat): (c: char)
    requires d < 36
    ensures IsLowerDigit(c)
  {
    if d < 10 then (('0' as int) + d) as char else (('a' as int) + d - 10) as char
  }

  /** `n.toString(36)`. */
  function Encode(n: nat): (r: string)
    ensures |r| >= 1
    ensures forall i :: 0 <= i < |r| ==> IsLowerDigit(r[i])
    ensures r[0] == '0' ==> r == "0"
    decreases n
  {
    if n < 36 then [DigitChar(n)] else Encode(n / 36) + [DigitChar(n % 36)]
  }

  /** Upper-casing of one character; only ASCII letters change. */
  function UpperChar(c: char): (u: char)
    ensures 'a' <= c <= 'z' ==> 'A' <= u <= 'Z' && u as int == c as int - 32
    ensures !('a' <= c <= 'z') ==> u == c
  {
    if 'a' <= c <= 'z' then ((c as int) - 32) as char else c
  }

  function Upper(s: string): (r: string)
    ensures |r| == |s|
    ensures forall i :: 0 <= i < |s| ==> r[i] == UpperChar(s[i])
  {
    seq(|s|, i requires 0 <= i < |s| => UpperChar(s[i]))
  }

  /** Value of one base-36 digit in either case. */
  function DigitValue(c: char): (r: Option<nat>)
    ensures r.Some? <==> IsLowerDigit(c) || IsUpperDigit(c)
    ensures r.Some? ==> r.value < 36
  {
    if '0' <= c <= '9' then Some((c as int) - ('0' as int))
    else if 'a' <= c <= 'z' then Some((c as int) - ('a' as int) + 10)
    else if 'A' <= c <= 'Z' then Some((c as int) - ('A' as int) + 10)
    else None
  }

  /** The number a whole base-36 numeral denotes; None for the empty text or
      any character that is not a digit. */
  function Decode(s: string): (r: Option<nat>)
    ensures r.Some? <==> s != [] && forall i :: 0 <= i < |s| ==> DigitValue(s[i]).Some?
    decreases |s|
  {
    if s == [] then None
    else
      var d := DigitValue(s[|s| - 1]);
      if d.None? then None
      else if |s| == 1 then d
      else
        match Decode(s[..|s| - 1])
        case None => None
        case Some(p) => Some(p * 36 + d.value)
  }

  lemma UpperAppend(a: string, b: string)
    ensures Upper(a + b) == Upper(a) + Upper(b)
  {
  }

  lemma DigitValueUpper(d: nat)
    requires d < 36
    ensures DigitValue(UpperChar(DigitChar(d))) == Some(d)
  {
  }

  /** Reading an upper-cased numeral gives back the number it was written
      from. */
  lemma {:induction false} DecodeEncode(n: nat)
    ensures Decode(Upper(Encode(n))) == Some(n)
    decreases n
  {
    if n < 36 {
      DigitValueUpper(n);
    } else {
      var front := Encode(n / 36);
      var c := DigitChar(n % 36);
      UpperAppend(front, [c]);
      assert Upper(Encode(n)) == Upper(front) + [UpperChar(c)];
      DecodeEncode(n / 36);
      DigitValueUpper(n % 36);
      DecodeSnoc(Upper(front), UpperChar(c), n / 36, n % 36);
    }
  }

  /** One more digit on the right multiplies by 36 and adds its value. */
  lemma DecodeSnoc(front: string, c: char, p: nat, d: nat)
    requires Decode(front) == Some(p) && DigitValue(c) == Some(d)
    ensures Decode(front + [c]) == Some(p * 36 + d)
  {
    var u := front + [c];
    assert u[..|u| - 1] == front;
  }
}
