/** Names of StatefulSet pods and the hostnames AIS nodes report for them. */
module PodNaming {

  // ---------------------------------------------------------------- ordinals

  function Digit(d: nat): (c: char)
    requires d < 10
    ensures '0' <= c <= '9'
  {
    "0123456789"[d]
  }

  function DigitValue(c: char): (d: nat)
    requires '0' <= c <= '9'
    ensures d < 10
  {
    (c as int) - ('0' as int)
  }

  predicate IsNumeral(s: string) {
    forall k :: 0 <= k < |s| ==> '0' <= s[k] <= '9'
  }

  /** The decimal numeral of an ordinal, as `%d` prints it. */
  function Decimal(n: nat): (s: string)
    ensures |s| > 0 && IsNumeral(s)
  {
    if n < 10 then [Digit(n)] else Decimal(n / 10) + [Digit(n % 10)]
  }

  function Value(s: string): nat
    requires IsNumeral(s)
  {
    if s == "" then 0 else 10 * Value(s[..|s| - 1]) + DigitValue(s[|s| - 1])
  }

  lemma {:induction false} ValueOfDecimal(n: nat)
    ensures Value(Decimal(n)) == n
  {
    var s := Decimal(n);
    if n >= 10 {
      ValueOfDecimal(n / 10);
      assert s[..|s| - 1] == Decimal(n / 10);
    } else {
      assert s[..0] == "";
    }
  }

  /** Two ordinals never share a numeral. */
  lemma DecimalInjective(i: nat, j: nat)
    requires Decimal(i) == Decimal(j)
    ensures i == j
  {
    ValueOfDecimal(i);
    ValueOfDecimal(j);
  }

  // --------------------------------------------------------- names and hosts

  function PodName(base: string, idx: nat): string {
    base + "-" + Decimal(idx)
  }

  predicate HostnameMatchesPod(hostname: string, podName: string) {
    hostname == podName || podName + "." <= hostname
  }

  /** The hostname is the pod's own, or that in some domain. */
  lemma HostnameMatchesExactly(hostname: string, podName: string)
    ensures HostnameMatchesPod(hostname, podName) <==>
            hostname == podName || exists domain :: hostname == podName + "." + domain
  {
    if podName + "." <= hostname {
      assert hostname == podName + "." + hostname[|podName| + 1..];
    }
  }

  lemma PodNameInjective(base: string, i: nat, j: nat)
    requires PodName(base, i) == PodName(base, j)
    ensures i == j
  {
    assert Decimal(i) == PodName(base, i)[|base| + 1..];
    assert Decimal(j) == PodName(base, j)[|base| + 1..];
    DecimalInjective(i, j);
  }

  /** What follows the numeral in a matching hostname is nothing or a dotted domain. */
  lemma MatchedHostname(hostname: string, base: string, i: nat)
    requires HostnameMatchesPod(hostname, PodName(base, i))
    ensures var d := Decimal(i); var from := |base| + 1;
            && |hostname| >= from + |d|
            && hostname[..from] == base + "-"
            && hostname[from..from + |d|] == d
            && (|hostname| == from + |d| || hostname[from + |d|] == '.')
  {
    var name := PodName(base, i);
    assert name == hostname[..|name|];
    assert name[|base| + 1..] == Decimal(i);
    assert name[..|base| + 1] == base + "-";
  }

  /** A numeral that a dot or the end of the text closes is determined by the text. */
  lemma LeadingNumeral(text: string, d: string, e: string)
    requires IsNumeral(d) && d <= text && (|text| == |d| || text[|d|] == '.')
    requires IsNumeral(e) && e <= text && (|text| == |e| || text[|e|] == '.')
    ensures d == e
  {
    assert forall k :: 0 <= k < |d| ==> text[k] == d[k];
    assert forall k :: 0 <= k < |e| ==> text[k] == e[k];
  }

  /** A hostname belongs to at most one ordinal of a StatefulSet, whatever dots the base name holds. */
  lemma OneOrdinalPerHostname(hostname: string, base: string, i: nat, j: nat)
    requires HostnameMatchesPod(hostname, PodName(base, i))
    requires HostnameMatchesPod(hostname, PodName(base, j))
    ensures i == j
  {
    MatchedHostname(hostname, base, i);
    MatchedHostname(hostname, base, j);
    LeadingNumeral(hostname[|base| + 1..], Decimal(i), Decimal(j));
    DecimalInjective(i, j);
  }

  /** Plain prefix matching would not do: ordinal 1 prefixes ordinal 10. */
  lemma PrefixMatchingIsAmbiguous(base: string)
    ensures PodName(base, 1) <= PodName(base, 10)
    ensures !HostnameMatchesPod(PodName(base, 10), PodName(base, 1))
  {
    assert Decimal(10) == "10" by {
      assert Decimal(1) == "1";
      assert 10 % 10 == 0 && 10 / 10 == 1;
    }
    var ten, one := PodName(base, 10), PodName(base, 1);
    assert ten == one + "0";
    assert ten[|one|] == '0' && (one + ".")[|one|] == '.';
  }
}
