/**
  How long a receiver waits, and what it samples.
 */
module ReceiverRuns {
  import opened Common
  import opened Receiver
  import RingWindow
  import Rtt

  /** The silence a receiver bears: the whole default before there is an estimate, half of it from then on. */
  function Patience(d: Download): nat {
    if d.rtt == 0 then DEFAULT_TIMEOUT else DEFAULT_TIMEOUT / 2
  }

  /** A tick is a timeout exactly when the silence since the last packet or timeout has used up the patience. */
  lemma TimesOutAfterPatience(d: Download, now: nat, t: nat)
    ensures var e := CheckTimeout(d, now, t);
            && (e.timeoutCnt == d.timeoutCnt + 1 <==> !d.finished && now - d.ts >= Patience(d))
            && (e == d <==> d.finished || now - d.ts < Patience(d))
            && (e != d ==> e.ts == t && e.blockUpdate && e.rtt == d.rtt)
  {
  }

  /** The acks of a timeout carry the number before the least missing one; nothing received is lost or made up. */
  lemma TimeoutKeepsWhatIsThere(d: Download, now: nat, t: nat)
    ensures var e := CheckTimeout(d, now, t);
            && e.buffer == d.buffer && (forall s: nat :: RingWindow.Has(e.win, s) <==> RingWindow.Has(d.win, s))
            && (e != d ==> !RingWindow.Has(d.win, AckNumber(e) + 1)
                           && forall s: nat :: s <= AckNumber(e) ==> RingWindow.Has(d.win, s))
  {
    RingWindow.SlideFindsLeastMissing(d.win);
    hide RingWindow.Slide;
  }

  /** One tick: the reading that is compared, and the one taken after the acks have gone out. */
  datatype Tick = Tick(now: nat, t: nat)

  function AfterTicks(d: Download, ticks: seq<Tick>): Download {
    if ticks == [] then d
    else CheckTimeout(AfterTicks(d, ticks[..|ticks| - 1]), ticks[|ticks| - 1].now, ticks[|ticks| - 1].t)
  }

  /**
    A receiver that hears nothing: n timeouts take n times its patience, so that it is
    given up for dead after six of them and not before 30 seconds, or 15 once packets have
    been timed.
   */
  lemma {:induction false} TimeoutsTakePatience(d: Download, ticks: seq<Tick>)
    requires forall i :: 0 <= i < |ticks| ==> ticks[i].now <= ticks[i].t
    ensures var e := AfterTicks(d, ticks);
            && e.rtt == d.rtt && e.finished == d.finished && e.timeoutCnt >= d.timeoutCnt
            && d.ts + (e.timeoutCnt - d.timeoutCnt) * Patience(d) <= e.ts
            && (e.timeoutCnt - d.timeoutCnt > MAX_TIMEOUT_CNT ==> e.ts >= d.ts + 6 * Patience(d))
  {
    if ticks != [] {
      var front, last := ticks[..|ticks| - 1], ticks[|ticks| - 1];
      TimeoutsTakePatience(d, front);
      var e := AfterTicks(d, front);
      hide AfterTicks;
      assert AfterTicks(d, ticks) == CheckTimeout(e, last.now, last.t) by {
        LastTick(d, ticks);
      }
      TimesOutAfterPatience(e, last.now, last.t);
      hide CheckTimeout;
      var n := e.timeoutCnt - d.timeoutCnt;
      assert (n + 1) * Patience(d) == n * Patience(d) + Patience(d);
      EnoughTimeouts(AfterTicks(d, ticks).timeoutCnt - d.timeoutCnt, Patience(d));
    }
  }

  lemma LastTick(d: Download, ticks: seq<Tick>)
    requires ticks != []
    ensures AfterTicks(d, ticks) ==
            CheckTimeout(AfterTicks(d, ticks[..|ticks| - 1]), ticks[|ticks| - 1].now, ticks[|ticks| - 1].t)
  {
  }

  lemma EnoughTimeouts(n: nat, wait: nat)
    ensures n > MAX_TIMEOUT_CNT ==> n * wait >= 6 * wait
  {
  }

  /**
    The packet right after the start or after a timeout gives the payload length and no
    sample; every other one is a sample of the time since the last.
   */
  lemma FirstPacketIsNotTimed(d: Download, p: Data, now: nat, t: nat)
    requires !d.finished && d.ts > 0
    ensures var e := Recv(d, p, now, t);
            && e.started && !e.blockUpdate
            && (if d.started && !d.blockUpdate
                then Rtt.Estimate(e.rtt, e.dev) == Rtt.Absorb(Rtt.Estimate(d.rtt, d.dev), (now - d.ts) % WORD)
                     && e.dataLength == d.dataLength
                else e.rtt == d.rtt && e.dev == d.dev && e.dataLength == |p.payload|)
  {
    hide Rtt.Absorb, RingWindow.Mark, RingWindow.Slide;
  }
}
