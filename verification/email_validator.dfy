/** The e-mail checks of src/lib/email-validator.ts, written as scanners over
    the characters, each with a lemma tying it to the shape its regular
    expression describes. */
module EmailValidator {
  import opened Wrappers
  import opened Seqs

  const SritDomain: string := "@srit.ac.in"

  /** The character class `[a-zA-Z0-9._-]`. */
  predicate IsSritLocalChar(c: char) {
    ('a' <= c <= 'z') || ('A' <= c <= 'Z') || ('0' <= c <= '9') || c == '.' || c == '_' || c == '-'
  }

  /** Length of the longest prefix of `e` drawn from the local-part class. */
  function LocalRun(e: string): (k: nat)
    ensures k <= |e|
    ensures forall i :: 0 <= i < k ==> IsSritLocalChar(e[i])
    ensures k < |e| ==> !IsSritLocalChar(e[k])
  {
    if e == [] || !IsSritLocalChar(e[0]) then 0 else 1 + LocalRun(e[1..])
  }

  /** `isValidSRITEmail`: a non-empty run of local-part characters and then
      exactly `@srit.ac.in`, anchored at both ends and case-sensitive. */
  predicate IsValidSRITEmail(e: string) {
    var k := LocalRun(e);
    k > 0 && e[k..] == SritDomain
  }

  /** The shape `^[a-zA-Z0-9._-]+@srit\.ac\.in$` describes. */
  ghost predicate SritSplit(e: string, local: string) {
    local != [] && (forall i :: 0 <= i < |local| ==> IsSritLocalChar(local[i])) && e == local + SritDomain
  }

  /** The scanner accepts exactly the strings of that shape. */
  lemma SritMatchesPattern(e: string)
    ensures IsValidSRITEmail(e) <==> exists local :: SritSplit(e, local)
  {
    var k := LocalRun(e);
    if IsValidSRITEmail(e) {
      assert e == e[..k] + e[k..];
      assert SritSplit(e, e[..k]);
    }
    if exists local :: SritSplit(e, local) {
      var local :| SritSplit(e, local);
      assert !IsSritLocalChar(e[|local|]);
      LocalRunOfSplit(e, local);
      assert e[|local|..] == SritDomain;
    }
  }

  lemma LocalRunOfSplit(e: string, local: string)
    requires SritSplit(e, local)
    ensures LocalRun(e) == |local|
  {
    var k := LocalRun(e);
    assert e[|local|] == '@';
  }

  /** An accepted address holds exactly one '@', the one in front of the
      domain. */
  lemma SritSingleAt(e: string)
    requires IsValidSRITEmail(e)
    ensures forall i :: 0 <= i < |e| ==> (e[i] == '@' <==> i == |e| - |SritDomain|)
  {
    var k := LocalRun(e);
    forall i | 0 <= i < |e|
      ensures e[i] == '@' <==> i == |e| - |SritDomain|
    {
      if i >= k {
        assert e[i] == SritDomain[i - k];
      }
    }
  }

  /** The match is anchored at the end: nothing may follow the domain. */
  lemma SritRejectsTrailing(e: string, extra: string)
    requires IsValidSRITEmail(e) && extra != []
    ensures !IsValidSRITEmail(e + extra)
  {
    var k := LocalRun(e);
    assert (e + extra)[..k + 1] == e[..k + 1];
    LocalRunPrefix(e + extra, k);
    assert (e + extra)[k..] == SritDomain + extra;
  }

  /** A scan that stops at position k of a prefix stops there in the whole
      string too. */
  lemma {:induction false} LocalRunPrefix(e: string, k: nat)
    requires k < |e| && !IsSritLocalChar(e[k])
    requires forall i :: 0 <= i < k ==> IsSritLocalChar(e[i])
    ensures LocalRun(e) == k
    decreases k
  {
    if k > 0 {
      LocalRunPrefix(e[1..], k - 1);
    }
  }

  /** The domain is matched case-sensitively, and it needs a username. */
  lemma SritIsStrict()
    ensures !IsValidSRITEmail("ab@SRIT.AC.IN")
    ensures !IsValidSRITEmail(SritDomain)
  {
    var upper := "ab@SRIT.AC.IN";
    LocalRunPrefix(upper, 2);
    assert upper[2..][1] != SritDomain[1];
  }

  /** `extractUsername`: `email.split('@')[0]`, the text before the first
      '@', or the whole string when there is none. */
  function ExtractUsername(e: string): (r: string)
    ensures r <= e
    ensures '@' !in r
    ensures r == e || e[|r|] == '@'
  {
    if e == [] || e[0] == '@' then [] else [e[0]] + ExtractUsername(e[1..])
  }

  /** For an accepted SRIT address the username and the domain rebuild it. */
  lemma UsernameOfSrit(e: string)
    requires IsValidSRITEmail(e)
    ensures ExtractUsername(e) + SritDomain == e
  {
    var k := LocalRun(e);
    SritSingleAt(e);
    UsernameBeforeAt(e, k);
    assert e == e[..k] + e[k..];
  }

  lemma {:induction false} UsernameBeforeAt(e: string, k: nat)
    requires k < |e| && e[k] == '@'
    requires forall i :: 0 <= i < k ==> e[i] != '@'
    ensures ExtractUsername(e) == e[..k]
    decreases k
  {
    if k > 0 {
      UsernameBeforeAt(e[1..], k - 1);
      assert e[..k] == [e[0]] + e[1..][..k - 1];
    }
  }

  /** JavaScript's `\s`: the ECMAScript white-space and line-terminator
      characters. */
  predicate IsJsWhitespace(c: char) {
    var n := c as int;
    (0x09 <= n <= 0x0D) || n == 0x20 || n == 0xA0 || n == 0x1680 || (0x2000 <= n <= 0x200A)
    || n == 0x2028 || n == 0x2029 || n == 0x202F || n == 0x205F || n == 0x3000 || n == 0xFEFF
  }

  /** The class `[^\s@]`. */
  predicate IsAddressChar(c: char) {
    !IsJsWhitespace(c) && c != '@'
  }

  predicate AllAddressChars(s: string) {
    forall i :: 0 <= i < |s| ==> IsAddressChar(s[i])
  }

  /** `isValidEmail`: no white space, one '@' with text before it, and a
      domain after it with a '.' that is neither its first nor its last
      character. */
  predicate IsValidEmail(e: string) {
    match IndexOf(e, '@')
    case None => false
    case Some(k) =>
      var domain := e[k + 1..];
      k > 0 && AllAddressChars(e[..k]) && AllAddressChars(domain)
      && |domain| >= 3 && '.' in domain[1..|domain| - 1]
  }

  /** The shape `^[^\s@]+@[^\s@]+\.[^\s@]+$` describes. */
  ghost predicate EmailSplit(e: string, local: string, host: string, tld: string) {
    local != [] && host != [] && tld != []
    && AllAddressChars(local) && AllAddressChars(host) && AllAddressChars(tld)
    && e == local + "@" + host + "." + tld
  }

  lemma EmailMatchesPatternForward(e: string)
    requires IsValidEmail(e)
    ensures exists local, host, tld :: EmailSplit(e, local, host, tld)
  {
    var k := IndexOf(e, '@').value;
    var domain := e[k + 1..];
    var mid := domain[1..|domain| - 1];
    var m :| 0 <= m < |mid| && mid[m] == '.';
    var j := m + 1;
    assert domain[j] == '.';
    var local, host, tld := e[..k], domain[..j], domain[j + 1..];
    SplitAt(domain, j);
    SplitAt(e, k);
    Regroup(local, host, tld);
    assert EmailSplit(e, local, host, tld);
  }

  /** Cutting a string around position `k` and putting it back together. */
  lemma SplitAt(s: string, k: nat)
    requires k < |s|
    ensures s == s[..k] + [s[k]] + s[k + 1..]
    ensures AllAddressChars(s) ==> AllAddressChars(s[..k]) && AllAddressChars(s[k + 1..])
  {
  }

  lemma Regroup(local: string, host: string, tld: string)
    ensures local + "@" + (host + "." + tld) == local + "@" + host + "." + tld
  {
  }

  lemma EmailMatchesPatternBackward(e: string, local: string, host: string, tld: string)
    requires EmailSplit(e, local, host, tld)
    ensures IsValidEmail(e)
  {
    var k := |local|;
    assert e[k] == '@';
    forall i | 0 <= i < k
      ensures e[i] != '@'
    {
      assert e[i] == local[i];
    }
    IndexOfFirst(e, '@', k);
    assert e[..k] == local;
    var domain := e[k + 1..];
    assert domain == host + "." + tld;
    assert domain[1..|domain| - 1][|host| - 1] == '.';
  }

  /** The scanner accepts exactly the strings of the regular expression's
      shape. */
  lemma EmailMatchesPattern(e: string)
    ensures IsValidEmail(e) <==> exists local, host, tld :: EmailSplit(e, local, host, tld)
  {
    if IsValidEmail(e) {
      EmailMatchesPatternForward(e);
    }
    if exists local, host, tld :: EmailSplit(e, local, host, tld) {
      var local, host, tld :| EmailSplit(e, local, host, tld);
      EmailMatchesPatternBackward(e, local, host, tld);
    }
  }

  /** Every accepted SRIT address is also a valid e-mail address. */
  lemma SritIsValidEmail(e: string)
    requires IsValidSRITEmail(e)
    ensures IsValidEmail(e)
  {
    var k := LocalRun(e);
    var local := e[..k];
    assert e == local + "@" + "srit" + "." + "ac.in";
    assert EmailSplit(e, local, "srit", "ac.in");
    EmailMatchesPatternBackward(e, local, "srit", "ac.in");
  }
}
