/** The motor-sample averaging of UpdateMotor (main.c): the integer mean of
    the recent servo angles of one axis. */
module Averaging {
  import opened CTypes

  function Sum(s: seq<uint32>): int
  {
    if s == [] then 0 else Sum(s[..|s| - 1]) + s[|s| - 1] as int
  }

  /** Integer mean, truncated like C's unsigned division. */
  function Mean(s: seq<uint32>): uint32
    requires |s| > 0
  {
    QuotientWithin(s, 0, 0xFFFF_FFFF);
    (Sum(s) / |s|) as uint32
  }

  predicate AllWithin(s: seq<uint32>, lo: int, hi: int)
  {
    forall k | 0 <= k < |s| :: lo <= s[k] as int <= hi
  }

  lemma {:induction false} SumWithin(s: seq<uint32>, lo: int, hi: int)
    requires AllWithin(s, lo, hi)
    ensures |s| * lo <= Sum(s) <= |s| * hi
  {
    if s != [] {
      var n := |s| - 1;
      assert AllWithin(s[..n], lo, hi);
      SumWithin(s[..n], lo, hi);
      assert (n + 1) * lo == n * lo + lo && (n + 1) * hi == n * hi + hi;
    }
  }

  lemma {:induction false} QuotientWithin(s: seq<uint32>, lo: nat, hi: int)
    requires |s| > 0 && AllWithin(s, lo, hi)
    ensures lo <= Sum(s) / |s| <= hi
  {
    var n := |s|;
    SumWithin(s, lo, hi);
    DivMonotone(n * lo, Sum(s), n);
    DivModUnique(n * lo, n, lo, 0);
    DivMonotone(Sum(s), n * hi, n);
    DivModUnique(n * hi, n, hi, 0);
  }

  /** Averaging never leaves the range of the samples, so clamped servo
      angles stay clamped after smoothing. */
  lemma {:induction false} MeanWithin(s: seq<uint32>, lo: nat, hi: int)
    requires |s| > 0 && AllWithin(s, lo, hi)
    ensures lo <= Mean(s) as int <= hi
  {
    QuotientWithin(s, lo, hi);
  }

  /** With a single sample the mean is that sample. */
  lemma MeanOfOne(s: seq<uint32>)
    requires |s| == 1
    ensures Mean(s) == s[0]
  {
    assert s[..0] == [];
    assert Sum(s) == s[0] as int;
  }

  /** The running sum of a prefix grows by the next sample. */
  lemma SumStep(s: seq<uint32>, i: nat)
    requires i < |s|
    ensures Sum(s[..i + 1]) == Sum(s[..i]) + s[i] as int
  {
    assert s[..i + 1][..i] == s[..i];
  }
}
