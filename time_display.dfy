/** The `m:ss` text both revisions write into the current-time and duration
    fields on every `timeupdate`: whole minutes, a colon, and the seconds
    within the minute with a leading "0" below ten. Times are taken here as
    whole, non-negative seconds. */
module TimeDisplay {
  import opened Wrappers

  predicate IsDigit(c: char)
  {
    '0' <= c <= '9'
  }

  function DigitChar(d: nat): (c: char)
    requires d < 10
    ensures IsDigit(c)
  {
    ('0' as int + d) as char
  }

  function DigitValue(c: char): nat
    requires IsDigit(c)
  {
    c as int - '0' as int
  }

  /** JavaScript's decimal rendering of a non-negative integer. */
  function NatToString(n: nat): (s: string)
    ensures |s| >= 1
    ensures forall k :: 0 <= k < |s| ==> IsDigit(s[k])
    ensures n < 10 <==> |s| == 1
    ensures s[0] == '0' <==> n == 0
  {
    if n < 10 then [DigitChar(n)] else NatToString(n / 10) + [DigitChar(n % 10)]
  }

  /** Reading a string of decimal digits back as a number. */
  function ParseNat(s: string): nat
    requires forall k :: 0 <= k < |s| ==> IsDigit(s[k])
  {
    if |s| == 0 then 0 else 10 * ParseNat(s[..|s| - 1]) + DigitValue(s[|s| - 1])
  }

  lemma {:induction false} ParseNatToString(n: nat)
    ensures ParseNat(NatToString(n)) == n
  {
    var s := NatToString(n);
    if n >= 10 {
      assert s[..|s| - 1] == NatToString(n / 10);
      ParseNatToString(n / 10);
    }
  }

  /** The seconds field: `Math.floor(t % 60)`, with "0" put in front when it
      is below 10. */
  function SecondsField(t: nat): string
  {
    var ss := t % 60;
    if ss < 10 then "0" + NatToString(ss) else NatToString(ss)
  }

  /** `${minutes}:${seconds}` with `minutes = Math.floor(t / 60)`. */
  function Clock(t: nat): string
  {
    NatToString(t / 60) + ":" + SecondsField(t)
  }

  /** The seconds field is exactly two digits and reads back as a value in
      00..59, the remainder of `t` modulo 60. */
  lemma SecondsFieldIsTwoDigits(t: nat)
    ensures |SecondsField(t)| == 2
    ensures forall k :: 0 <= k < 2 ==> IsDigit(SecondsField(t)[k])
    ensures ParseNat(SecondsField(t)) == t % 60 < 60
  {
    var ss := t % 60;
    ParseNatToString(ss);
    if ss < 10 {
      assert SecondsField(t)[..1] == "0";
    }
  }

  /** Reads an `m:ss` text: the digits before the first colon are minutes,
      the digits after it seconds. */
  function ParseClock(s: string): Option<nat>
  {
    var k := FirstColon(s);
    if k < 0 then None
    else if forall i :: 0 <= i < |s| && i != k ==> IsDigit(s[i]) then
      Some(60 * ParseNat(s[..k]) + ParseNat(s[k + 1..]))
    else None
  }

  function FirstColon(s: string): (k: int)
    ensures -1 <= k < |s|
    ensures k >= 0 ==> s[k] == ':' && forall i :: 0 <= i < k ==> s[i] != ':'
    ensures k < 0 ==> forall i :: 0 <= i < |s| ==> s[i] != ':'
  {
    if |s| == 0 then -1
    else if s[0] == ':' then 0
    else var k := FirstColon(s[1..]); if k < 0 then -1 else k + 1
  }

  /** The displayed text determines the time: reading it back gives `t`. */
  lemma {:induction false} ClockRoundTrip(t: nat)
    ensures ParseClock(Clock(t)) == Some(t)
  {
    var m := NatToString(t / 60);
    var ss := SecondsField(t);
    var s := Clock(t);
    assert s == m + ":" + ss;
    SecondsFieldIsTwoDigits(t);
    ParseNatToString(t / 60);
    assert s[|m|] == ':';
    forall i | 0 <= i < |m| ensures s[i] != ':' {
      assert s[i] == m[i];
    }
    assert FirstColon(s) == |m|;
    assert s[..|m|] == m;
    assert s[|m| + 1..] == ss;
    forall i | 0 <= i < |s| && i != |m| ensures IsDigit(s[i]) {
      if i < |m| { assert s[i] == m[i]; } else { assert s[i] == ss[i - |m| - 1]; }
    }
  }

  /** Two different times never show the same text. */
  lemma ClockInjective(t: nat, u: nat)
    requires Clock(t) == Clock(u)
    ensures t == u
  {
    ClockRoundTrip(t);
    ClockRoundTrip(u);
  }
}
