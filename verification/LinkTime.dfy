/** The link-time filter: round trips in 10 ms ticks, smoothed in 32-bit integer
  * arithmetic and reported in 100 ms units.
  */
module LinkTime {

  const U32: nat := 0x1_0000_0000
  const SAMPLE_MAX := 6000

  datatype Filter = Filter(smoothed: nat, count: nat)

  /** One accepted sample, with the wrap-around of the C types written out. */
  function Accept(f: Filter, sample: nat): Filter
  {
    Filter(if f.count == 0 then sample else ((f.smoothed * 3) % U32 + sample) % U32 / 4, (f.count + 1) % U32)
  }

  function Reported(smoothed: nat): (wire: nat)
    ensures 1 <= wire <= 4095
  {
    var w := (smoothed + 5) % U32 / 10;
    if w < 1 then 1 else if w > 4095 then 4095 else w
  }

  predicate Plausible(sample: nat) { 1 <= sample <= SAMPLE_MAX }

  /** What one call of flex_link_time_sample measures: ticks since the stamp, in
      32-bit arithmetic. */
  function Elapsed(now: nat, stamp: nat): nat { (now - stamp) % U32 }

  class LinkTimer {
    var filter: Filter
    var stamp: nat
    var pending: bool
    var ourLinkTime: int

    constructor ()
      ensures filter == Filter(0, 0) && !pending && ourLinkTime == 2
    {
      filter, stamp, pending, ourLinkTime := Filter(0, 0), 0, false, 2;
    }

    /** flex_send_link_time arms the measurement. */
    method Stamp(now: nat)
      modifies this`stamp, this`pending
      ensures stamp == now && pending
    {
      stamp, pending := now, true;
    }

    /** flex_link_time_sample: every measurement is used at most once; an
        implausible one is thrown away. */
    method Sample(now: nat)
      modifies this`filter, this`pending, this`ourLinkTime
      ensures !pending
      ensures var s := Elapsed(now, stamp);
              if old(pending) && Plausible(s)
              then filter == Accept(old(filter), s) && ourLinkTime == Reported(filter.smoothed)
              else filter == old(filter) && ourLinkTime == old(ourLinkTime)
    {
      if !pending {
        return;
      }
      var sample := (now - stamp) % U32;
      pending := false;
      if sample == 0 || sample > SAMPLE_MAX {
        return;
      }
      var smoothed := sample;
      if filter.count != 0 {
        smoothed := ((filter.smoothed * 3) % U32 + sample) % U32 / 4;
      }
      filter := Filter(smoothed, (filter.count + 1) % U32);
      var wire := (filter.smoothed + 5) % U32 / 10;
      if wire < 1 {
        wire := 1;
      }
      if wire > 4095 {
        wire := 4095;
      }
      ourLinkTime := wire;
    }
  }

  // ----- runs

  /** The filter after a run of accepted samples. */
  function AcceptAll(f: Filter, xs: seq<nat>): Filter
  {
    if xs == [] then f else Accept(AcceptAll(f, xs[..|xs| - 1]), xs[|xs| - 1])
  }

  /** The largest intermediate value of one step fits 32 bits, so the arithmetic
      never wraps: it is the ordinary weighted mean. */
  lemma {:induction false} NeverWraps(f: Filter, sample: nat)
    requires Plausible(sample) && (f.count != 0 ==> f.smoothed <= SAMPLE_MAX)
    ensures f.count != 0 ==> f.smoothed * 3 + sample < U32
    ensures Accept(f, sample).smoothed == if f.count == 0 then sample else (3 * f.smoothed + sample) / 4
    ensures Accept(f, sample).smoothed <= SAMPLE_MAX
    ensures Reported(Accept(f, sample).smoothed) <= 600
  {
    hide Reported;
    if f.count != 0 {
      NoWrap(f.smoothed * 3);
      NoWrap(f.smoothed * 3 + sample);
    }
    ReportedSmall(Accept(f, sample).smoothed);
  }

  lemma {:induction false} NoWrap(a: nat)
    requires a < U32
    ensures a % U32 == a
  {
  }

  lemma {:induction false} ReportedSmall(smoothed: nat)
    requires smoothed <= SAMPLE_MAX
    ensures Reported(smoothed) == (if smoothed < 5 then 1 else (smoothed + 5) / 10) <= 600
  {
    NoWrap(smoothed + 5);
  }

  /** After any run of accepted samples, the smoothed value lies within the range
      of the samples seen, and the reported time is between 1 and 600. */
  lemma {:induction false} StaysInRange(start: nat, xs: seq<nat>, lo: nat, hi: nat)
    requires xs != [] && 1 <= lo && hi <= SAMPLE_MAX
    requires forall i :: 0 <= i < |xs| ==> lo <= xs[i] <= hi
    ensures var f := AcceptAll(Filter(start, 0), xs);
            lo <= f.smoothed <= hi && 1 <= Reported(f.smoothed) <= 600
  {
    var n := |xs| - 1;
    if n > 0 {
      StaysInRange(start, xs[..n], lo, hi);
    } else {
      assert xs[..0] == [];
    }
    NeverWraps(AcceptAll(Filter(start, 0), xs[..n]), xs[n]);
  }

  /** The measurement is the time that passed, even when the 32-bit clock started over in
      between. */
  lemma {:induction false} ElapsedSurvivesWrap(t: nat, d: nat)
    requires d < 0x1_0000_0000
    ensures Elapsed((t + d) % 0x1_0000_0000, t % 0x1_0000_0000) == d
  {
    ModDifference(t, d);
  }

  lemma {:induction false} ModDifference(t: nat, d: nat)
    requires d < U32
    ensures ((t + d) % U32 - t % U32) % U32 == d
  {
    var r := t % U32;
    assert (t + d) % U32 == (r + d) % U32 by {
      var q := t / U32;
      assert t + d == q * U32 + (r + d);
    }
  }

  /** Measurements that are used lie between a tick and a minute, and so does the smoothed
      value after any number of them. */
  lemma {:induction false} SmoothedIsPlausible(start: nat, xs: seq<nat>)
    requires xs != [] && forall i :: 0 <= i < |xs| ==> Plausible(xs[i])
    ensures 1 <= AcceptAll(Filter(start, 0), xs).smoothed <= 6000
    ensures forall i :: 0 <= i < |xs| ==> 1 <= xs[i] <= 6000
  {
    StaysInRange(start, xs, 1, 6000);
  }

  function Repeat(x: nat, n: nat): (xs: seq<nat>)
    ensures |xs| == n && forall i :: 0 <= i < n ==> xs[i] == x
  {
    seq(n, i => x)
  }

  function Distance(a: nat, b: nat): nat { if a <= b then b - a else a - b }

  predicate Settled(smoothed: nat, x: nat) { smoothed <= x <= smoothed + 3 }

  /** Under a constant sample x the filter reaches [x - 3, x] after at most as many
      samples as it is away, stays there, and reports a time within one tick of x. A
      filter that has seen no sample takes the first one as it is. */
  lemma {:induction false} SettlesOnConstant(f: Filter, x: nat, n: nat)
    requires Plausible(x) && (f.count != 0 || n == 0 ==> Plausible(f.smoothed))
    ensures var g := AcceptAll(f, Repeat(x, n));
            && Plausible(g.smoothed)
            && (Settled(g.smoothed, x) || Distance(g.smoothed, x) + n <= Distance(f.smoothed, x))
            && (n > Distance(f.smoothed, x) ==> Settled(g.smoothed, x))
            && (Settled(g.smoothed, x) ==> Distance(Reported(g.smoothed), Reported(x)) <= 1)
  {
    hide Accept, Reported, Repeat;
    if n > 0 {
      var h := AcceptAll(f, Repeat(x, n - 1));
      AcceptOneMore(f, x, n);
      FreshMean(h, x);
      if n > 1 || f.count != 0 {
        SettlesOnConstant(f, x, n - 1);
        NeverWraps(h, x);
        MovesTowards(h.smoothed, x);
      } else {
        assert h == f by { assert Repeat(x, 0) == []; }
      }
    }
    SettledReports(AcceptAll(f, Repeat(x, n)).smoothed, x);
  }

  lemma {:induction false} AcceptOneMore(f: Filter, x: nat, n: nat)
    requires n > 0
    ensures AcceptAll(f, Repeat(x, n)) == Accept(AcceptAll(f, Repeat(x, n - 1)), x)
  {
    assert Repeat(x, n)[..n - 1] == Repeat(x, n - 1);
  }

  /** The weighted mean moves towards the sample until it is within three of it. */
  lemma {:induction false} MovesTowards(s: nat, x: nat)
    requires Plausible(s) && Plausible(x)
    ensures var m := (3 * s + x) / 4;
            && Plausible(m) && (Settled(s, x) ==> Settled(m, x))
            && (Settled(m, x) || Distance(m, x) + 1 <= Distance(s, x))
  {
  }

  lemma {:induction false} FreshMean(f: Filter, x: nat)
    ensures f.count == 0 ==> Accept(f, x).smoothed == x
  {
  }

  lemma {:induction false} SettledReports(smoothed: nat, x: nat)
    requires Plausible(x) && smoothed <= SAMPLE_MAX
    ensures Settled(smoothed, x) ==> Distance(Reported(smoothed), Reported(x)) <= 1
  {
    hide Reported;
    ReportedSmall(smoothed);
    ReportedSmall(x);
  }
}
