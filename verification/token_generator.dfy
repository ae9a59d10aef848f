/** Payment tokens and the QR payload (src/lib/token-generator.ts). The
    clock reading `Date.now()` and the text of `Math.random().toString(36)`
    are parameters. */
module TokenGenerator {
  import opened Wrappers
  import opened Base36
  import opened Json
  import opened Seqs

  /** An index as `String.prototype.substring` clamps it into `[0, len]`. */
  function Clamp(i: int, len: nat): (r: nat)
    ensures r <= len
    ensures 0 <= i <= len ==> r == i
  {
    if i < 0 then 0 else if i > len then len else i
  }

  /** `s.substring(start, end)`: both ends clamped, swapped when reversed. */
  function Substring(s: string, start: int, end: int): (r: string)
    ensures |r| <= |s|
    ensures 0 <= start <= end ==> |r| <= end - start
    ensures 0 <= start <= end <= |s| ==> r == s[start..end]
    ensures forall i :: 0 <= i < |r| ==> r[i] in s
  {
    var a := Clamp(start, |s|);
    var b := Clamp(end, |s|);
    if a <= b then s[a..b] else s[b..a]
  }

  /** What `Math.random().toString(36)` can print for a value in [0, 1):
      "0", or "0." followed by lower-case base-36 digits. */
  predicate IsRandomText(r: string) {
    r == "0" || (|r| >= 2 && r[0] == '0' && r[1] == '.' && forall i :: 2 <= i < |r| ==> IsLowerDigit(r[i]))
  }

  /** `.substring(2, 15)` of the random text: the fractional digits, at
      most thirteen of them. */
  function RandomSegment(random: string): (seg: string)
    ensures |seg| <= 13
    ensures IsRandomText(random) ==> forall i :: 0 <= i < |seg| ==> IsLowerDigit(seg[i])
    ensures |random| >= 15 ==> seg == random[2..15]
  {
    Substring(random, 2, 15)
  }

  /** `generatePaymentToken`: base-36 clock, a dash, the random segment,
      all upper-cased. */
  function GeneratePaymentToken(now: nat, random: string): (token: string)
    ensures token == Upper(Encode(now)) + "-" + Upper(RandomSegment(random))
  {
    Upper(Encode(now) + "-" + RandomSegment(random))
  }

  /** Every token character is an upper-case base-36 digit or the dash, and
      the only dash sits right after the timestamp digits. */
  lemma TokenShape(now: nat, random: string)
    requires IsRandomText(random)
    ensures var token := GeneratePaymentToken(now, random);
      forall i :: 0 <= i < |token| ==> IsUpperDigit(token[i]) || token[i] == '-'
    ensures var token := GeneratePaymentToken(now, random);
      forall i :: 0 <= i < |token| ==> (token[i] == '-' <==> i == |Encode(now)|)
  {
    var token := GeneratePaymentToken(now, random);
    var head := Upper(Encode(now));
    var seg := Upper(RandomSegment(random));
    assert token == head + "-" + seg;
    forall i | 0 <= i < |token|
      ensures IsUpperDigit(token[i]) || token[i] == '-'
      ensures token[i] == '-' <==> i == |Encode(now)|
    {
      if i < |head| {
        assert token[i] == UpperChar(Encode(now)[i]);
      } else if i > |head| {
        assert token[i] == seg[i - |head| - 1];
        assert token[i] == UpperChar(RandomSegment(random)[i - |head| - 1]);
      }
    }
  }

  /** Splits a token at its first dash and reads the timestamp in front of
      it. */
  function ParseToken(token: string): (r: Option<(nat, string)>)
    ensures r.Some? ==> exists k :: 0 <= k < |token| && token[k] == '-' && Decode(token[..k]) == Some(r.value.0) && token[k + 1..] == r.value.1
  {
    match IndexOf(token, '-')
    case None => None
    case Some(k) =>
      match Decode(token[..k])
      case None => None
      case Some(t) => Some((t, token[k + 1..]))
  }

  /** The segment before the dash decodes to the clock reading the token was
      made from, and the rest is the upper-cased random segment. */
  lemma TokenRoundTrip(now: nat, random: string)
    requires IsRandomText(random)
    ensures ParseToken(GeneratePaymentToken(now, random)) == Some((now, Upper(RandomSegment(random))))
  {
    var token := GeneratePaymentToken(now, random);
    var head := Upper(Encode(now));
    TokenShape(now, random);
    var k := |Encode(now)|;
    IndexOfFirst(token, '-', k);
    assert token[..k] == head;
    assert token[k + 1..] == Upper(RandomSegment(random));
    DecodeEncode(now);
  }

  // ---------------------------------------------------------------------
  // QR payload
  // ---------------------------------------------------------------------

  /** The object `generateOrderQRData` serialises, in key order. */
  function QrObject(orderId: string, token: string, now: int): Document {
    Object([Member("orderId", JString(orderId)), Member("token", JString(token)), Member("timestamp", JNumber(now))])
  }

  function GenerateOrderQRData(orderId: string, token: string, now: int): (qr: string)
    ensures |qr| >= 2 && qr[0] == '{' && qr[|qr| - 1] == '}'
  {
    ObjectTextBraces(QrObject(orderId, token, now).members);
    Stringify(QrObject(orderId, token, now))
  }

  /** The pair `verifyOrderQRData` hands back. JavaScript does not check
      the member types, so each field is whatever scalar the text held. */
  datatype QrClaim = QrClaim(orderId: Scalar, token: Scalar)

  /** `verifyOrderQRData`: None for unparsable text, for a non-object (a
      property read on `null` throws and is caught), and when either field is
      missing or falsy. */
  function VerifyOrderQRData(qr: string): (r: Option<QrClaim>)
    ensures r.Some? ==> Truthy(r.value.orderId) && Truthy(r.value.token)
    ensures r.Some? <==> (Parse(qr).Some? && Parse(qr).value.Object?
      && Lookup(Parse(qr).value.members, "orderId").Some? && Truthy(Lookup(Parse(qr).value.members, "orderId").value)
      && Lookup(Parse(qr).value.members, "token").Some? && Truthy(Lookup(Parse(qr).value.members, "token").value))
  {
    match Parse(qr)
    case None => None
    case Some(Value(_)) => None
    case Some(Object(ms)) =>
      var o := Lookup(ms, "orderId");
      var t := Lookup(ms, "token");
      if o.Some? && Truthy(o.value) && t.Some? && Truthy(t.value) then Some(QrClaim(o.value, t.value))
      else None
  }

  /** Verifying a generated payload gives back the order id and token,
      exactly when both are non-empty. */
  lemma QrRoundTrip(orderId: string, token: string, now: int)
    ensures VerifyOrderQRData(GenerateOrderQRData(orderId, token, now))
      == if orderId != "" && token != "" then Some(QrClaim(JString(orderId), JString(token))) else None
  {
    StringifyRoundTrip(QrObject(orderId, token, now));
    QrLookups(orderId, token, now);
  }

  /** Both fields are found in the object, each holding its string. */
  lemma QrLookups(orderId: string, token: string, now: int)
    ensures Lookup(QrObject(orderId, token, now).members, "orderId") == Some(JString(orderId))
    ensures Lookup(QrObject(orderId, token, now).members, "token") == Some(JString(token))
  {
    var ms := QrObject(orderId, token, now).members;
    assert ms[..2] == [ms[0], ms[1]];
    assert ms[..2][..1] == [ms[0]];
  }

  /** Payloads that differ only in their timestamp verify alike. */
  lemma QrTimestampIrrelevant(orderId: string, token: string, now1: int, now2: int)
    ensures VerifyOrderQRData(GenerateOrderQRData(orderId, token, now1))
      == VerifyOrderQRData(GenerateOrderQRData(orderId, token, now2))
  {
    QrRoundTrip(orderId, token, now1);
    QrRoundTrip(orderId, token, now2);
  }
}
