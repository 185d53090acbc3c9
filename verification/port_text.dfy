/**
 The text the scanner writes into a record's `PortRange`: an f-string that
 renders the from-port, a dash, and the to-port. An integer renders as
 Python's `str` does (decimal, a leading minus sign when negative, no leading
 zeros); an absent port renders as `None`. The parser here is the partner of
 that rendering: it recovers both ports from the text.
 */
module PortText {
  import opened Wrappers

  predicate IsDigit(c: char) {
    '0' <= c <= '9'
  }

  predicate AllDigits(s: string) {
    forall i :: 0 <= i < |s| ==> IsDigit(s[i])
  }

  function DigitChar(d: nat): (c: char)
    requires d < 10
    ensures IsDigit(c)
  {
    ('0' as int + d) as char
  }

  function DigitValue(c: char): (d: nat)
    requires IsDigit(c)
    ensures d < 10
  {
    c as int - '0' as int
  }

  /** Python's `str` of a non-negative integer: decimal digits, no leading zero. */
  function NatText(n: nat): (s: string)
    ensures 1 <= |s| && AllDigits(s)
    ensures s[0] == '0' ==> n == 0
    decreases n
  {
    if n < 10 then [DigitChar(n)] else NatText(n / 10) + [DigitChar(n % 10)]
  }

  /** The number a string of decimal digits denotes, most significant digit first. */
  function DigitsValue(s: string): nat
    requires AllDigits(s)
    decreases |s|
  {
    if |s| == 0 then 0 else DigitsValue(s[..|s| - 1]) * 10 + DigitValue(s[|s| - 1])
  }

  lemma {:induction false} NatTextRoundTrip(n: nat)
    ensures DigitsValue(NatText(n)) == n
    decreases n
  {
    if n >= 10 {
      var s := NatText(n);
      assert s[..|s| - 1] == NatText(n / 10);
      NatTextRoundTrip(n / 10);
    }
  }

  /** Python's `str` of any integer. */
  function IntText(n: int): (s: string)
    ensures 1 <= |s|
    ensures s[0] == '-' <==> n < 0
    ensures AllDigits(s[1..])
  {
    if n < 0 then "-" + NatText(-n) else NatText(n)
  }

  /** Reads an integer written as `IntText` writes it; `None` for any other text. */
  function ParseInt(s: string): Option<int> {
    if 1 <= |s| && AllDigits(s) then Some(DigitsValue(s))
    else if 2 <= |s| && s[0] == '-' && AllDigits(s[1..]) then Some(-(DigitsValue(s[1..]) as int))
    else None
  }

  lemma IntTextRoundTrip(n: int)
    ensures ParseInt(IntText(n)) == Some(n)
  {
    if n < 0 {
      var s := IntText(n);
      assert s[1..] == NatText(-n);
      assert !IsDigit(s[0]);
      NatTextRoundTrip(-n);
    } else {
      NatTextRoundTrip(n);
    }
  }

  /** How Python formats the value `None`. */
  const NoneText: string := "None"

  /** The f-string rendering of an optional port. */
  function RenderPort(p: Option<int>): (s: string)
    ensures 1 <= |s|
    ensures forall i :: 1 <= i < |s| ==> s[i] != '-'
  {
    match p
    case None => NoneText
    case Some(n) => IntText(n)
  }

  /** Reads back one rendered port: `Some(p)` when the text is a rendering, `None` otherwise. */
  function ParsePort(s: string): Option<Option<int>> {
    if s == NoneText then Some(None)
    else match ParseInt(s)
      case Some(n) => Some(Some(n))
      case None => None
  }

  lemma RenderPortRoundTrip(p: Option<int>)
    ensures ParsePort(RenderPort(p)) == Some(p)
  {
    match p
    case None =>
    case Some(n) =>
      var s := IntText(n);
      assert s != NoneText by {
        if n < 0 {
          assert s[0] == '-';
        } else {
          assert IsDigit(s[0]);
        }
      }
      IntTextRoundTrip(n);
  }

  /** The `PortRange` field of a record: from-port, a dash, to-port. */
  function PortRangeText(fromPort: Option<int>, toPort: Option<int>): string {
    RenderPort(fromPort) + "-" + RenderPort(toPort)
  }

  /** The index of the first dash at or after `i`, or `|s|` when there is none. */
  function FirstDashFrom(s: string, i: nat): (k: nat)
    requires i <= |s|
    ensures i <= k <= |s|
    ensures k < |s| ==> s[k] == '-'
    ensures forall j :: i <= j < k ==> s[j] != '-'
    decreases |s| - i
  {
    if i == |s| then i
    else if s[i] == '-' then i
    else FirstDashFrom(s, i + 1)
  }

  /**
   Splits a port-range text at its separator: the first dash after the first
   character (a dash in first position is the from-port's minus sign).
   */
  function SplitPortRange(s: string): Option<(string, string)> {
    if |s| == 0 then None
    else
      var k := FirstDashFrom(s, 1);
      if k == |s| then None else Some((s[..k], s[k + 1..]))
  }

  /** Reads both ports back from a `PortRange` text; `None` for text no pair of ports renders to. */
  function ParsePortRange(s: string): Option<(Option<int>, Option<int>)> {
    match SplitPortRange(s)
    case None => None
    case Some((a, b)) =>
      match (ParsePort(a), ParsePort(b))
      case (Some(f), Some(t)) => Some((f, t))
      case _ => None
  }

  /**
   The port-range text loses nothing: it splits at the first dash after its
   first character back into the two renderings, and both ports read back.
   */
  lemma PortRangeRoundTrip(fromPort: Option<int>, toPort: Option<int>)
    ensures ParsePortRange(PortRangeText(fromPort, toPort)) == Some((fromPort, toPort))
  {
    var a := RenderPort(fromPort);
    var b := RenderPort(toPort);
    var s := PortRangeText(fromPort, toPort);
    assert s == a + "-" + b;
    assert s[|a|] == '-';
    assert forall j :: 1 <= j < |a| ==> s[j] == a[j];
    var k := FirstDashFrom(s, 1);
    assert k == |a|;
    assert s[..k] == a;
    assert s[k + 1..] == b;
    RenderPortRoundTrip(fromPort);
    RenderPortRoundTrip(toPort);
  }

  /**
   A port-range text always holds its separator, so it is never the bare
   text of an allowed port: a rule on port 80 is written `80-80`.
   */
  lemma PortRangeNeverBarePort(fromPort: Option<int>, toPort: Option<int>)
    ensures PortRangeText(fromPort, toPort) != "80"
    ensures PortRangeText(fromPort, toPort) != "443"
  {
    PortRangeRoundTrip(fromPort, toPort);
    assert FirstDashFrom("80", 1) == 2 by {
      assert FirstDashFrom("80", 2) == 2;
    }
    assert ParsePortRange("80") == None;
    assert FirstDashFrom("443", 1) == 3 by {
      assert FirstDashFrom("443", 3) == 3;
      assert FirstDashFrom("443", 2) == 3;
    }
    assert ParsePortRange("443") == None;
  }

  /** Different port pairs never share a port-range text. */
  lemma PortRangeInjective(f: Option<int>, t: Option<int>, f': Option<int>, t': Option<int>)
    requires PortRangeText(f, t) == PortRangeText(f', t')
    ensures f == f' && t == t'
  {
    PortRangeRoundTrip(f, t);
    PortRangeRoundTrip(f', t');
  }

  /** Worked rendering of a plain range: 80 to 8080. */
  lemma PortRangeTextExample()
    ensures PortRangeText(Some(80), Some(8080)) == "80-8080"
  {
    assert NatText(8) == "8" && NatText(0) == "0";
    assert NatText(80) == "80";
    assert NatText(808) == "808";
    assert NatText(8080) == "8080";
  }

  /** Worked rendering of ICMP's all-types rule, whose ports are both -1. */
  lemma NegativePortRangeTextExample()
    ensures PortRangeText(Some(-1), Some(-1)) == "-1--1"
  {
    assert NatText(1) == "1";
    assert IntText(-1) == "-1";
  }

  /** Worked rendering of a rule without ports (protocol "-1"). */
  lemma AbsentPortRangeTextExample()
    ensures PortRangeText(None, None) == "None-None"
  {
  }
}
