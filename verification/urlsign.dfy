/** strconv.FormatInt and strconv.ParseInt in base 10 over 64-bit integers. */
module Decimal {
  import opened Prelude

  const PLUS: byte := 43
  const MINUS: byte := 45
  const ZERO: byte := 48

  predicate IsDigit(b: byte) {
    48 <= b <= 57
  }

  function Digit(d: nat): byte
    requires d < 10
  {
    (48 + d) as byte
  }

  function FormatNat(n: nat): Bytes {
    if n < 10 then [Digit(n)] else FormatNat(n / 10) + [Digit(n % 10)]
  }

  function FormatInt(n: int): Bytes {
    if n < 0 then [MINUS] + FormatNat(-n) else FormatNat(n)
  }

  predicate AllDigits(s: Bytes) {
    forall i :: 0 <= i < |s| ==> IsDigit(s[i])
  }

  function Value(s: Bytes): nat
    requires AllDigits(s)
  {
    if s == [] then 0 else Value(s[..|s| - 1]) * 10 + (s[|s| - 1] as int - 48)
  }

  /** An optional sign and at least one digit, in range; anything else is an error. */
  function ParseInt(s: Bytes): Option<int> {
    if s == [] then None
    else
      var digits := if s[0] == PLUS || s[0] == MINUS then s[1..] else s;
      if digits == [] || !AllDigits(digits) then None
      else
        var v: int := Value(digits);
        var n := if s[0] == MINUS then -v else v;
        if InInt64(n) then Some(n) else None
  }

  lemma {:induction false} FormatNatIsRead(n: nat)
    ensures FormatNat(n) != [] && AllDigits(FormatNat(n)) && Value(FormatNat(n)) == n
  {
    if n >= 10 {
      FormatNatIsRead(n / 10);
      var front := FormatNat(n / 10);
      assert FormatNat(n)[..|front|] == front;
    }
  }

  /** Every 64-bit integer is read back from its own text. */
  lemma ParsePrint(n: int)
    requires InInt64(n)
    ensures ParseInt(FormatInt(n)) == Some(n)
  {
    FormatNatIsRead(if n < 0 then -n else n);
    if n < 0 { assert FormatInt(n)[1..] == FormatNat(-n); }
  }

  /** Leading zeros do not change a value. */
  lemma {:induction false} LeadingZero(s: Bytes)
    requires AllDigits(s)
    ensures AllDigits([ZERO] + s) && Value([ZERO] + s) == Value(s)
    decreases |s|
  {
    if s == [] {
      assert ([ZERO] + s)[..0] == [];
    } else {
      LeadingZero(s[..|s| - 1]);
      assert ([ZERO] + s)[..|s|] == [ZERO] + s[..|s| - 1];
    }
  }

  /** The text of a number is not its only reading: a plus sign or leading zeros are read too. */
  lemma OtherSpellings(n: int)
    requires 0 <= n && InInt64(n)
    ensures ParseInt([PLUS] + FormatInt(n)) == Some(n) && ParseInt([ZERO] + FormatInt(n)) == Some(n)
    ensures [PLUS] + FormatInt(n) != FormatInt(n) && [ZERO] + FormatInt(n) != FormatInt(n)
  {
    FormatNatIsRead(n);
    LeadingZero(FormatNat(n));
    assert ([PLUS] + FormatInt(n))[1..] == FormatNat(n);
    assert |[ZERO] + FormatInt(n)| == |FormatInt(n)| + 1 == |[PLUS] + FormatInt(n)|;
  }

  // ---- all texts of a number ----

  function Zeros(k: nat): Bytes {
    seq(k, _ => ZERO)
  }

  /** `d` is the decimal text of `v`, possibly after some zeros. */
  ghost predicate DigitsOf(d: Bytes, v: nat) {
    exists k: nat :: d == Zeros(k) + FormatNat(v)
  }

  ghost predicate Spells(s: Bytes, n: int) {
    || (n >= 0 && DigitsOf(s, n))
    || (s != [] && s[0] == PLUS && n >= 0 && DigitsOf(s[1..], n))
    || (s != [] && s[0] == MINUS && n <= 0 && DigitsOf(s[1..], -n))
  }

  lemma {:induction false} ZerosAreRead(k: nat, v: nat)
    ensures AllDigits(Zeros(k) + FormatNat(v)) && Value(Zeros(k) + FormatNat(v)) == v
    decreases k
  {
    hide FormatNat, Value, AllDigits;
    FormatNatIsRead(v);
    if k == 0 {
      assert Zeros(0) + FormatNat(v) == FormatNat(v);
    } else {
      ZerosAreRead(k - 1, v);
      LeadingZero(Zeros(k - 1) + FormatNat(v));
      assert Zeros(k) + FormatNat(v) == [ZERO] + (Zeros(k - 1) + FormatNat(v));
    }
  }

  lemma OneDigit(d: nat)
    requires d < 10
    ensures DigitsOf([Digit(d)], d)
  {
    assert [Digit(d)] == Zeros(0) + FormatNat(d);
  }

  /** One more digit: a leading zero stays one, any other number grows by a place. */
  lemma AppendDigit(v: nat, k: nat, last: nat)
    requires last < 10
    ensures DigitsOf(Zeros(k) + FormatNat(v) + [Digit(last)], v * 10 + last)
  {
    hide FormatNat;
    var d := Zeros(k) + FormatNat(v) + [Digit(last)];
    TextGrows(v, last);
    if v == 0 {
      assert Zeros(k) + FormatNat(0) == Zeros(k + 1);
      assert d == Zeros(k + 1) + FormatNat(last);
    } else {
      assert d == Zeros(k) + FormatNat(v * 10 + last);
    }
  }

  lemma TextGrows(v: nat, last: nat)
    requires last < 10
    ensures FormatNat(0) == [ZERO] && FormatNat(last) == [Digit(last)]
    ensures v > 0 ==> FormatNat(v * 10 + last) == FormatNat(v) + [Digit(last)]
  {
    if v > 0 { assert (v * 10 + last) / 10 == v && (v * 10 + last) % 10 == last; }
  }

  /** A text of digits by its last one. */
  lemma LastDigit(d: Bytes) returns (front: Bytes, last: nat)
    requires d != [] && AllDigits(d)
    ensures |front| == |d| - 1 && AllDigits(front) && last < 10 && d == front + [Digit(last)]
    ensures Value(d) == Value(front) * 10 + last && Value([]) == 0
  {
    front, last := d[..|d| - 1], d[|d| - 1] as int - 48;
  }

  lemma {:induction false} DigitsAreSpelled(d: Bytes)
    requires d != [] && AllDigits(d)
    ensures DigitsOf(d, Value(d))
    decreases |d|
  {
    hide FormatNat, Value, AllDigits;
    var front, last := LastDigit(d);
    if front == [] {
      assert d == [Digit(last)];
      OneDigit(last);
    } else {
      DigitsAreSpelled(front);
      var v := Value(front);
      var k: nat :| front == Zeros(k) + FormatNat(v);
      AppendDigit(v, k, last);
    }
  }

  /** The texts read as `n`: its decimal digits, after any number of zeros and an optional sign. */
  lemma ReadsAsIff(s: Bytes, n: int)
    ensures ParseInt(s) == Some(n) <==> InInt64(n) && Spells(s, n)
  {
    hide FormatNat, Value;
    if ParseInt(s) == Some(n) {
      DigitsAreSpelled(if s[0] == PLUS || s[0] == MINUS then s[1..] else s);
    }
    if InInt64(n) && Spells(s, n) {
      var v: nat := if n < 0 then -n else n;
      FormatNatIsRead(v);
      if s[0] == PLUS || s[0] == MINUS {
        if DigitsOf(s, v) { DigitsStart(s, v); }
        var k: nat :| s[1..] == Zeros(k) + FormatNat(v);
        ZerosAreRead(k, v);
      } else {
        var k: nat :| s == Zeros(k) + FormatNat(v);
        ZerosAreRead(k, v);
      }
    }
  }

  lemma DigitsStart(d: Bytes, v: nat)
    requires DigitsOf(d, v)
    ensures d != [] && IsDigit(d[0])
  {
    var k: nat :| d == Zeros(k) + FormatNat(v);
    ZerosAreRead(k, v);
    FormatNatIsRead(v);
  }

  lemma DigitsAreLonger(d: Bytes, v: nat)
    requires DigitsOf(d, v)
    ensures |FormatNat(v)| <= |d|
    ensures |d| == |FormatNat(v)| ==> d == FormatNat(v)
  {
    hide FormatNat;
    var k: nat :| d == Zeros(k) + FormatNat(v);
    if k == 0 { assert Zeros(0) + FormatNat(v) == FormatNat(v); }
  }

  /** The text of a number is its shortest, and the only one of that length. */
  lemma PrintIsShortest(s: Bytes, n: int)
    requires ParseInt(s) == Some(n)
    ensures |FormatInt(n)| <= |s|
    ensures |s| == |FormatInt(n)| ==> s == FormatInt(n)
  {
    hide FormatNat, ParseInt, DigitsOf;
    ReadsAsIff(s, n);
    var v: nat := if n < 0 then -n else n;
    if n >= 0 && DigitsOf(s, v) {
      DigitsAreLonger(s, v);
    } else {
      DigitsAreLonger(s[1..], v);
      assert s == [s[0]] + s[1..];
    }
  }

  lemma NoNul(n: int)
    ensures 0 !in FormatInt(n)
  {
    FormatNatIsRead(if n < 0 then -n else n);
  }
}

/** internal/urlsign/urlsign.go: expiring, signed download links. */
module UrlSign {
  import opened Prelude
  import opened Files
  import opened Decimal

  /** `mac` stands for the hex-encoded HMAC-SHA256 (section 2 of RFC 2104) of a message under a key. */
  datatype Signer = Signer(key: Bytes, ttl: Time, mac: (Bytes, Bytes) -> Bytes)

  datatype Verdict = Accepted | Disabled | Expired | BadSignature

  function New(key: Bytes, ttl: Time, mac: (Bytes, Bytes) -> Bytes): Signer {
    if key == [] then Signer([], 0, mac) else Signer(key, ttl, mac)
  }

  predicate Enabled(s: Signer) {
    |s.key| > 0
  }

  /** time.Time.Unix: whole seconds, rounded down. */
  function Unix(t: Time): int {
    t / SECOND
  }

  lemma UnixIsFloor(t: Time)
    ensures 0 <= t - 1_000_000_000 * Unix(t) < 1_000_000_000
  {
  }

  function Frame(id: Bytes, exp: int): Bytes {
    id + [0] + FormatInt(exp)
  }

  function Sign(s: Signer, id: Bytes, exp: int): Bytes {
    s.mac(s.key, Frame(id, exp))
  }

  /** The `exp` and `sig` parameters of a link, before URL encoding; None for the empty query. */
  function Query(s: Signer, id: Bytes, now: Time): Option<(Bytes, Bytes)> {
    if !Enabled(s) then None
    else
      var exp := Unix(now + s.ttl);
      Some((FormatInt(exp), Sign(s, id, exp)))
  }

  function Verify(s: Signer, id: Bytes, expRaw: Bytes, sig: Bytes, now: Time): Verdict {
    if !Enabled(s) then Disabled
    else
      match ParseInt(expRaw)
      case None => BadSignature
      case Some(exp) =>
        if sig != Sign(s, id, exp) then BadSignature
        else if Unix(now) > exp then Expired
        else Accepted
  }

  /**
   * The window of a link made at `t`: accepted exactly while the second of its
   * expiry has not passed, hence always through t + ttl and never from one second
   * later on; outside the window the verdict is Expired.
   */
  lemma LinkWindow(s: Signer, id: Bytes, t: Time, at: Time)
    requires Enabled(s) && InInt64(Unix(t + s.ttl))
    ensures var q := Query(s, id, t);
      && q.Some?
      && var v := Verify(s, id, q.value.0, q.value.1, at);
         && (v == Accepted <==> Unix(at) <= Unix(t + s.ttl))
         && (v == Expired <==> Unix(at) > Unix(t + s.ttl))
         && (at <= t + s.ttl ==> v == Accepted)
         && (at >= t + s.ttl + SECOND ==> v == Expired)
  {
    ParsePrint(Unix(t + s.ttl));
  }

  /** A signer made with a key and a TTL makes links that work through that TTL and no longer a second later. */
  lemma MadeSignersLinks(key: Bytes, ttl: Time, mac: (Bytes, Bytes) -> Bytes, id: Bytes, t: Time, at: Time)
    requires key != [] && InInt64(Unix(t + ttl))
    ensures var s := New(key, ttl, mac);
            var q := Query(s, id, t);
      && q.Some?
      && q.value.1 == mac(key, id + [0] + q.value.0) && ParseInt(q.value.0) == Some(Unix(t + ttl))
      && (at <= t + ttl ==> Verify(s, id, q.value.0, q.value.1, at) == Accepted)
      && (at >= t + ttl + SECOND ==> Verify(s, id, q.value.0, q.value.1, at) == Expired)
  {
    LinkWindow(New(key, ttl, mac), id, t, at);
    ParsePrint(Unix(t + ttl));
  }

  /** A signer made without a key makes no links and verifies none. */
  lemma NoKeyNoLinks(ttl: Time, mac: (Bytes, Bytes) -> Bytes, id: Bytes, expRaw: Bytes, sig: Bytes, now: Time)
    ensures Query(New([], ttl, mac), id, now) == None && Verify(New([], ttl, mac), id, expRaw, sig, now) == Disabled
  {
  }

  /** The signed message determines id and expiry, whatever bytes the id holds. */
  lemma FrameIsInjective(id1: Bytes, exp1: int, id2: Bytes, exp2: int)
    requires InInt64(exp1) && InInt64(exp2)
    requires Frame(id1, exp1) == Frame(id2, exp2)
    ensures id1 == id2 && exp1 == exp2
  {
    NoNul(exp1);
    NoNul(exp2);
    LastNul(id1, FormatInt(exp1), id2, FormatInt(exp2));
    ParsePrint(exp1);
    ParsePrint(exp2);
  }

  lemma LastNul(a: Bytes, b: Bytes, c: Bytes, d: Bytes)
    requires 0 !in b && 0 !in d
    requires a + [0] + b == c + [0] + d
    ensures a == c && b == d
  {
    var left, right := a + [0] + b, c + [0] + d;
    assert left[|a|] == 0 && right[|c|] == 0;
    assert forall i :: |a| < i < |left| ==> left[i] == b[i - |a| - 1] && left[i] != 0;
    assert forall i :: |c| < i < |right| ==> right[i] == d[i - |c| - 1] && right[i] != 0;
    assert |a| == |c|;
    assert left[..|a|] == a && right[..|c|] == c;
    assert left[|a| + 1..] == b && right[|c| + 1..] == d;
  }

  /**
   * An ideal tag: two tags agree exactly for the same message under keys with the
   * same block. `block` stands for the key block of HMAC (section 2 of RFC 2104),
   * which pads short keys with zeros and hashes long ones.
   */
  ghost predicate Ideal(mac: (Bytes, Bytes) -> Bytes, block: Bytes -> Bytes) {
    forall k1, m1, k2, m2 :: mac(k1, m1) == mac(k2, m2) <==> block(k1) == block(k2) && m1 == m2
  }

  /** A tag that shows key and message, the key behind its length. */
  function PlainTag(key: Bytes, m: Bytes): Bytes {
    FormatNat(|key|) + [0] + (key + m)
  }

  /** There are ideal tags. */
  lemma IdealExists()
    ensures Ideal(PlainTag, (k: Bytes) => k)
  {
    forall k1, m1, k2, m2 | PlainTag(k1, m1) == PlainTag(k2, m2) ensures k1 == k2 && m1 == m2 {
      NoNul(|k1|);
      NoNul(|k2|);
      FirstNul(FormatNat(|k1|), k1 + m1, FormatNat(|k2|), k2 + m2);
      FormatNatIsRead(|k1|);
      FormatNatIsRead(|k2|);
      assert (k1 + m1)[..|k1|] == k1 && (k2 + m2)[..|k2|] == k2;
      assert (k1 + m1)[|k1|..] == m1 && (k2 + m2)[|k2|..] == m2;
    }
  }

  lemma FirstNul(a: Bytes, b: Bytes, c: Bytes, d: Bytes)
    requires 0 !in a && 0 !in c
    requires a + [0] + b == c + [0] + d
    ensures a == c && b == d
  {
    var left, right := a + [0] + b, c + [0] + d;
    assert left[|a|] == 0 && right[|c|] == 0;
    assert forall i :: 0 <= i < |a| ==> left[i] == a[i] && left[i] != 0;
    assert forall i :: 0 <= i < |c| ==> right[i] == c[i] && right[i] != 0;
    assert |a| == |c|;
    assert left[..|a|] == a && right[..|c|] == c;
    assert left[|a| + 1..] == b && right[|c| + 1..] == d;
  }

  /**
   * With an ideal tag, a signature minted by one signer for (id, exp) gets past
   * the signature check of another exactly for keys with the same block, the same
   * id and a spelling of the same expiry; a changed expiry is a bad signature,
   * never an expired link.
   */
  lemma SignatureIsBound(s: Signer, id: Bytes, exp: int, o: Signer, id': Bytes, expRaw: Bytes, now: Time,
                         block: Bytes -> Bytes)
    requires Enabled(s) && Enabled(o) && o.mac == s.mac && Ideal(s.mac, block)
    requires InInt64(exp)
    ensures Verify(o, id', expRaw, Sign(s, id, exp), now) != BadSignature <==>
              block(o.key) == block(s.key) && id' == id && Spells(expRaw, exp)
  {
    ReadsAsIff(expRaw, exp);
    match ParseInt(expRaw)
    case None =>
    case Some(e) =>
      assert InInt64(e);
      if Frame(id, exp) == Frame(id', e) { FrameIsInjective(id, exp, id', e); }
  }

  /**
   * The raw expiry matters only through its value, for every id, signature and
   * time: texts that are read alike, and so any two spellings of one number, get
   * the same verdict.
   */
  lemma SpellingIsFree(s: Signer, id: Bytes, raw1: Bytes, raw2: Bytes, sig: Bytes, at: Time)
    ensures ParseInt(raw1) == ParseInt(raw2) ==> Verify(s, id, raw1, sig, at) == Verify(s, id, raw2, sig, at)
    ensures forall exp | InInt64(exp) && Spells(raw1, exp) && Spells(raw2, exp) ::
              Verify(s, id, raw1, sig, at) == Verify(s, id, raw2, sig, at)
  {
    forall exp | InInt64(exp) && Spells(raw1, exp) && Spells(raw2, exp)
      ensures Verify(s, id, raw1, sig, at) == Verify(s, id, raw2, sig, at)
    {
      ReadsAsIff(raw1, exp);
      ReadsAsIff(raw2, exp);
    }
  }

  /** A text of no number is a bad signature. */
  lemma MisspelledIsBad(s: Signer, id: Bytes, raw: Bytes, sig: Bytes, at: Time)
    requires Enabled(s) && forall exp: int | InInt64(exp) :: !Spells(raw, exp)
    ensures Verify(s, id, raw, sig, at) == BadSignature
  {
    if ParseInt(raw).Some? { ReadsAsIff(raw, ParseInt(raw).value); }
  }

  /** A link also works with its own expiry spelled otherwise. */
  lemma RespelledLink(s: Signer, id: Bytes, t: Time, raw: Bytes, at: Time)
    requires Enabled(s) && InInt64(Unix(t + s.ttl)) && Spells(raw, Unix(t + s.ttl))
    ensures var q := Query(s, id, t).value;
            Verify(s, id, raw, q.1, at) == Verify(s, id, q.0, q.1, at)
  {
    hide ParseInt, FormatInt, Spells, Frame;
    var exp := Unix(t + s.ttl);
    ParsePrint(exp);
    ReadsAsIff(FormatInt(exp), exp);
    SpellingIsFree(s, id, raw, FormatInt(exp), Query(s, id, t).value.1, at);
  }
}
