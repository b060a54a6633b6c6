/**
  Round-trip smoothing, src/util.c.  Words are 32 bits wide: the subtraction of
  timestamps and the multiplications by 7 and 3 wrap.
 */
module Rtt {
  import opened Common

  datatype Estimate = Estimate(rtt: nat, dev: nat)

  function Distance(a: nat, b: nat): nat {
    if a > b then a - b else b - a
  }

  /** One update with an elapsed-time sample. */
  function Absorb(e: Estimate, sample: nat): Estimate {
    var rtt := if e.rtt == 0 then sample else (e.rtt * 7 % WORD) / 8 + sample / 8;
    var spread := Distance(sample, rtt);
    Estimate(rtt, if e.dev == 0 then spread else (e.dev * 3 % WORD) / 4 + spread / 4)
  }

  /** The update for a packet stamped ts and acknowledged at now; a zero stamp is ignored. */
  function Update(e: Estimate, ts: nat, now: nat): Estimate {
    if ts == 0 then e else Absorb(e, (now - ts) % WORD)
  }

  method UpdateRtt(rtt: nat, dev: nat, ts: nat, now: nat) returns (rtt': nat, dev': nat)
    ensures Estimate(rtt', dev') == Update(Estimate(rtt, dev), ts, now)
  {
    rtt', dev' := rtt, dev;
    if ts == 0 {
      return;
    }
    var sample := (now - ts) % WORD;
    if rtt' == 0 {
      rtt' := sample;
    } else {
      rtt' := (rtt' * 7 % WORD) / 8 + sample / 8;
    }
    var spread := if sample > rtt' then sample - rtt' else rtt' - sample;
    if dev' == 0 {
      dev' := spread;
    } else {
      dev' := (dev' * 3 % WORD) / 4 + spread / 4;
    }
  }

  /** The estimate after a whole run of samples, oldest first. */
  function Smooth(e: Estimate, samples: seq<nat>): Estimate {
    if samples == [] then e else Absorb(Smooth(e, samples[..|samples| - 1]), samples[|samples| - 1])
  }

  // ---------------------------------------------------------------- bounds

  /** Samples of lo and more keep the estimate at this multiple of eight. */
  function Floor(lo: nat): nat {
    8 * (lo / 8)
  }

  /** The least an estimate can become from e on, when all samples are at least lo. */
  function Least(e: Estimate, lo: nat): nat {
    if e.rtt == 0 then Floor(lo) else Min(e.rtt, Floor(lo))
  }

  ghost predicate Within(e: Estimate, least: nat, most: nat, width: nat) {
    least <= e.rtt <= most && e.dev <= width
  }

  lemma EstimateStaysWithin(rtt: nat, sample: nat, least: nat, lo: nat, most: nat)
    requires least <= Floor(lo) && lo <= sample <= most && 7 * most < WORD
    requires least <= rtt <= most
    ensures least <= (rtt * 7 % WORD) / 8 + sample / 8 <= most
  {
    var m := lo / 8;
    assert m <= sample / 8 && rtt * 7 % WORD == rtt * 7;
    assert least * 7 / 8 <= rtt * 7 / 8;
    assert rtt * 7 / 8 <= 7 * most / 8 && sample / 8 <= most / 8;
  }

  lemma SpreadStaysWithin(dev: nat, spread: nat, width: nat)
    requires dev <= width && spread <= width && 3 * width < WORD
    ensures (dev * 3 % WORD) / 4 + spread / 4 <= width
  {
    assert dev * 3 % WORD == dev * 3;
  }

  lemma AbsorbStaysWithin(e: Estimate, sample: nat, least: nat, lo: nat, most: nat, width: nat)
    requires least <= Floor(lo) && lo <= sample <= most && 7 * most < WORD
    requires most - least <= width && 3 * width < WORD
    requires (e.rtt == 0 && e.dev <= width) || Within(e, least, most, width)
    ensures Within(Absorb(e, sample), least, most, width)
  {
    if e.rtt != 0 {
      EstimateStaysWithin(e.rtt, sample, least, lo, most);
    }
    SpreadStaysWithin(e.dev, Distance(sample, Absorb(e, sample).rtt), width);
  }

  lemma {:induction false} RunStaysWithin(e: Estimate, samples: seq<nat>, least: nat, lo: nat, most: nat, width: nat)
    requires least <= Floor(lo) && 7 * most < WORD && most - least <= width && 3 * width < WORD
    requires forall i :: 0 <= i < |samples| ==> lo <= samples[i] <= most
    requires (e.rtt == 0 && e.dev <= width) || Within(e, least, most, width)
    ensures samples != [] || e.rtt != 0 ==> Within(Smooth(e, samples), least, most, width)
  {
    hide Absorb, Within, Floor;
    if samples != [] {
      var front := samples[..|samples| - 1];
      RunStaysWithin(e, front, least, lo, most, width);
      AbsorbStaysWithin(Smooth(e, front), samples[|samples| - 1], least, lo, most, width);
    }
  }

  /**
    Over any run of samples in [lo, hi], from any start, the truncating update keeps the
    estimate between the smaller of its start and lo rounded down to a multiple of eight,
    and the larger of its start and hi; the deviation stays within that width or its own
    start.  A start at zero, which means "not started", counts for neither bound.
   */
  lemma SmoothingDoesNotDrift(e: Estimate, samples: seq<nat>, lo: nat, hi: nat)
    requires lo <= hi && 7 * Max(e.rtt, hi) < WORD && 3 * e.dev < WORD && samples != []
    requires forall i :: 0 <= i < |samples| ==> lo <= samples[i] <= hi
    ensures Least(e, lo) <= Smooth(e, samples).rtt <= Max(e.rtt, hi)
    ensures Smooth(e, samples).dev <= Max(e.dev, Max(e.rtt, hi) - Least(e, lo))
  {
    hide Smooth;
    RunStaysWithin(e, samples, Least(e, lo), lo, Max(e.rtt, hi), Max(e.dev, Max(e.rtt, hi) - Least(e, lo)));
  }

  /**
    The old estimate weighs seven eighths and the sample one; of the deviation, three
    quarters are old and one is the distance of the sample from the new estimate.  What
    truncation loses is less than two.  A zero, which means "not started", weighs nothing.
   */
  lemma WeightsOfTheUpdate(e: Estimate, sample: nat)
    requires 7 * e.rtt < WORD && 3 * e.dev < WORD
    ensures var f := Absorb(e, sample);
            && (if e.rtt == 0 then f.rtt == sample else 8 * f.rtt <= 7 * e.rtt + sample < 8 * (f.rtt + 2))
            && var d := if f.rtt <= sample then sample - f.rtt else f.rtt - sample;
               if e.dev == 0 then f.dev == d else 4 * f.dev <= 3 * e.dev + d < 4 * (f.dev + 2)
  {
    assert e.rtt * 7 % WORD == 7 * e.rtt && e.dev * 3 % WORD == 3 * e.dev;
  }

  /** n equal samples. */
  function Steady(sample: nat, n: nat): seq<nat> {
    seq(n, _ => sample)
  }

  lemma SteadyUnfolds(e: Estimate, sample: nat, n: nat)
    requires n > 0
    ensures Smooth(e, Steady(sample, n)) == Absorb(Smooth(e, Steady(sample, n - 1)), sample)
  {
    assert Steady(sample, n)[..n - 1] == Steady(sample, n - 1);
  }

  /**
    The lower bound is attained.  A steady sample brings every estimate above the floor
    down to exactly the floor, and an estimate at most seven below it stays where it is.
   */
  lemma {:induction false} SteadySampleSettles(e: Estimate, sample: nat, n: nat)
    requires 8 <= sample && 7 * Max(e.rtt, sample) < WORD && e.rtt >= Floor(sample) - 7 && e.rtt > 0
    ensures var r := Smooth(e, Steady(sample, n)).rtt;
            if e.rtt <= Floor(sample) then r == e.rtt
            else Floor(sample) <= r <= Max(Floor(sample), e.rtt - n)
    decreases n
  {
    if n > 0 {
      SteadyUnfolds(e, sample, n);
      SteadySampleSettles(e, sample, n - 1);
      hide Smooth;
      SteadyStep(Smooth(e, Steady(sample, n - 1)), sample);
    }
  }

  lemma SteadyStep(e: Estimate, sample: nat)
    requires 8 <= sample && 7 * e.rtt < WORD && e.rtt >= Floor(sample) - 7 && e.rtt > 0
    ensures var r := Absorb(e, sample).rtt;
            if e.rtt <= Floor(sample) then r == e.rtt else Floor(sample) <= r < e.rtt
  {
    var m := sample / 8;
    assert e.rtt * 7 % WORD == e.rtt * 7;
    if e.rtt <= Floor(sample) {
      var j := 8 * m - e.rtt;
      assert (7 * (8 * m - j)) / 8 == 7 * m - j;
    } else {
      var j := e.rtt - 8 * m;
      assert e.rtt * 7 == 8 * (7 * m) + 7 * j;
      assert 7 * m <= e.rtt * 7 / 8 < 7 * m + j;
    }
  }

  /** Every sample is at least eight exactly when no run of them can bring a started estimate back to zero. */
  lemma NeverZeroAgainIffSamplesReachEight(lo: nat, hi: nat)
    requires lo <= hi && 7 * hi < WORD
    ensures (forall samples: seq<nat> ::
               samples != [] && (forall i :: 0 <= i < |samples| ==> lo <= samples[i] <= hi) ==>
                 Smooth(Estimate(0, 0), samples).rtt > 0)
            <==> 8 <= lo
  {
    if 8 <= lo {
      forall samples: seq<nat> | samples != [] && forall i :: 0 <= i < |samples| ==> lo <= samples[i] <= hi
        ensures Smooth(Estimate(0, 0), samples).rtt > 0
      {
        SmoothingDoesNotDrift(Estimate(0, 0), samples, lo, hi);
      }
    } else {
      SmallSampleFallsBack(lo, lo);
      assert Smooth(Estimate(0, 0), Steady(lo, lo + 1)).rtt == 0;
    }
  }

  /** A steady sample below eight lowers the estimate by one each time. */
  lemma {:induction false} SmallSampleFallsBack(sample: nat, n: nat)
    requires sample < 8 && n <= sample
    ensures Smooth(Estimate(0, 0), Steady(sample, n + 1)).rtt == sample - n
  {
    SteadyUnfolds(Estimate(0, 0), sample, n + 1);
    if n == 0 {
      FirstSample(sample);
    } else {
      hide *;
      SmallSampleFallsBack(sample, n - 1);
      SmallStep(Smooth(Estimate(0, 0), Steady(sample, n)), sample);
    }
  }

  lemma FirstSample(sample: nat)
    ensures Smooth(Estimate(0, 0), Steady(sample, 1)).rtt == sample
  {
    SteadyUnfolds(Estimate(0, 0), sample, 1);
    assert Smooth(Estimate(0, 0), Steady(sample, 0)) == Estimate(0, 0);
  }

  lemma SmallStep(e: Estimate, sample: nat)
    requires sample < 8 && 0 < e.rtt < 8
    ensures Absorb(e, sample).rtt == e.rtt - 1
  {
  }
}
