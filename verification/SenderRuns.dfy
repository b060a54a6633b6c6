/**
  Statements about whole runs of the sender: every sequence of acks (in any order, of
  any value, repeated or not) and timer ticks after start_upload.
 */
module SenderRuns {
  import opened Common
  import opened Sender
  import Rtt

  /** start_upload followed by some events. */
  datatype History = History(hasIndex: nat, clock: nat -> Time, events: seq<Event>) {
    ghost function Before(): History
      requires events != []
    {
      History(hasIndex, clock, events[..|events| - 1])
    }

    ghost function Last(): Event
      requires events != []
    {
      events[|events| - 1]
    }
  }

  ghost function After(h: History): Upload
    decreases |h.events|
  {
    if h.events == [] then Start(h.hasIndex, h.clock) else Step(After(h.Before()), h.Last())
  }

  /** How often DATA with number s has been put on the wire. */
  ghost function Sent(h: History, s: nat): nat
    decreases |h.events|
  {
    if h.events == [] then if s == 1 then 1 else 0
    else Sent(h.Before(), s) + if Transmits(After(h.Before()), h.Last(), s) then 1 else 0
  }

  /** How many acks carrying a have arrived. */
  ghost function Arrivals(h: History, a: nat): nat
    decreases |h.events|
  {
    if h.events == [] then 0
    else Arrivals(h.Before(), a) + if h.Last().Ack? && h.Last().ack == a then 1 else 0
  }

  /** How many ticks found the timer at the head of the window expired. */
  ghost function Timeouts(h: History): nat
    decreases |h.events|
  {
    if h.events == [] then 0
    else Timeouts(h.Before()) + if h.Last().Tick? && TimesOut(After(h.Before()), h.Last().now) then 1 else 0
  }

  /** check_all_timeout kills an upload whose count exceeds MAX_TIMEOUT_CNT: no event follows that one. */
  ghost predicate NotKilledBefore(h: History)
    decreases |h.events|
  {
    h.events == [] || (NotKilledBefore(h.Before()) && After(h.Before()).timeoutCnt <= MAX_TIMEOUT_CNT)
  }

  lemma {:induction false} InvariantHolds(h: History)
    ensures Invariant(After(h))
    decreases |h.events|
  {
    if h.events == [] {
      StartHolds(h.hasIndex, h.clock);
    } else {
      InvariantHolds(h.Before());
      StepKeeps(After(h.Before()), h.Last());
    }
  }

  /**
    Congestion control after every event: status, window and threshold belong together,
    the window bounds what is outstanding, and FastRecovery is never entered.
   */
  lemma WindowFollowsStatus(h: History)
    ensures var u := After(h);
            && u.ssThreshold >= 2 && u.lastSent - u.lastAcked <= u.window
            && (u.status == SlowStart ==> 1 <= u.window <= u.ssThreshold + 1)
            && (u.status == CongestionAvoidance ==> u.window > u.ssThreshold)
            && (u.status == FastRetransmit ==> u.window == 1)
            && (u.status == FastRetransmitSS ==> 2 <= u.window <= u.ssThreshold)
            && (u.status == FastRetransmitCA ==> u.window > u.ssThreshold)
            && u.status != FastRecovery
  {
    InvariantHolds(h);
  }

  /**
    Sequence numbers after every event: acknowledged, sent and highest sent are in order,
    finished means all acknowledged, and an unfinished sender has its head timer running.
   */
  lemma NumbersInOrder(h: History)
    ensures var u := After(h);
            && u.lastAcked <= u.lastSent <= u.maxSent <= LAST_SEQ
            && (u.finished <==> u.lastAcked == LAST_SEQ)
            && (!u.finished ==> u.seqTimeout[u.lastAcked + 1] > 0 && u.lastSent > u.lastAcked)
  {
    InvariantHolds(h);
    HeadTimerIsArmed(After(h));
  }

  /** What ul_send is about to transmit, on entry to it. */
  lemma EnteringFacts(u: Upload, e: Event)
    requires Invariant(u)
    ensures var v := Entering(u, e);
            && Bookkeeping(v) && v.maxSent == u.maxSent && u.maxRetransmit <= v.maxRetransmit
            && (Transmits(u, e, 0) <==> false)
            && Step(u, e).maxRetransmit == v.maxRetransmit
            && Step(u, e).maxSent == Max(u.maxSent, if e.Ack? || TimesOut(u, e.now) then SendLimit(v) else 0)
  {
    match e
    case Ack(ack, now, clock) =>
      HandleAckKeeps(u, ack, now);
    case Tick(now, clock) =>
      if TimesOut(u, now) {
        BackOffKeeps(u, now);
      } else {
        AdditiveKeeps(u, now);
      }
  }

  /**
    The numbers put on the wire are exactly 1 to maxSent, and a number put there twice is
    at or below the retransmission mark.
   */
  lemma {:induction false} SentExactlyUpToMax(h: History, s: nat)
    ensures Sent(h, s) > 0 <==> 1 <= s <= After(h).maxSent
    ensures Sent(h, s) > 1 ==> s <= After(h).maxRetransmit
    decreases |h.events|
  {
    if h.events == [] {
      StartHolds(h.hasIndex, h.clock);
    } else {
      SentExactlyUpToMax(h.Before(), s);
      InvariantHolds(h.Before());
      EnteringFacts(After(h.Before()), h.Last());
    }
  }

  /** The stamps record exactly which numbers have been put on the wire. */
  lemma StampsRecordSending(h: History, s: nat)
    requires s <= LAST_SEQ
    ensures After(h).seqTs[s] != 0 <==> Sent(h, s) > 0
    ensures 1 <= s ==> (After(h).seqTimeout[s] != 0 <==> Sent(h, s) > 0)
  {
    InvariantHolds(h);
    HeadTimerIsArmed(After(h));
    SentExactlyUpToMax(h, s);
  }

  /** The clock reading for the last time DATA with number s was put on the wire, zero if it never was. */
  ghost function LastSending(h: History, s: nat): nat
    decreases |h.events|
  {
    if h.events == [] then if s == 1 then h.clock(1) else 0
    else if Transmits(After(h.Before()), h.Last(), s) then h.Last().clock(s)
    else LastSending(h.Before(), s)
  }

  /** How long the timer was set for then. */
  ghost function LastTimeout(h: History, s: nat): nat
    decreases |h.events|
  {
    if h.events == [] then if s == 1 then DEFAULT_TIMEOUT else 0
    else if Transmits(After(h.Before()), h.Last(), s) then Rto(Entering(After(h.Before()), h.Last()))
    else LastTimeout(h.Before(), s)
  }

  /** The stamp of a number is when it was last sent, and its timer runs from then on. */
  lemma {:induction false} StampIsLastSending(h: History, s: nat)
    requires s <= LAST_SEQ
    ensures After(h).seqTs[s] == LastSending(h, s)
    ensures After(h).seqTimeout[s] == LastSending(h, s) + LastTimeout(h, s)
    decreases |h.events|
  {
    if h.events == [] {
      StartStamps(h.hasIndex, h.clock, s);
    } else {
      StampIsLastSending(h.Before(), s);
      StepStamps(After(h.Before()), h.Last(), s);
    }
  }

  lemma StartStamps(hasIndex: nat, clock: nat -> Time, s: nat)
    requires s <= LAST_SEQ
    ensures Start(hasIndex, clock).seqTs[s] == if s == 1 then clock(1) else 0
    ensures Start(hasIndex, clock).seqTimeout[s] == if s == 1 then clock(1) + DEFAULT_TIMEOUT else 0
  {
  }

  lemma StepStamps(u: Upload, e: Event, s: nat)
    requires s <= LAST_SEQ
    ensures Step(u, e).seqTs[s] == if Transmits(u, e, s) then e.clock(s) else u.seqTs[s]
    ensures Step(u, e).seqTimeout[s] == if Transmits(u, e, s) then e.clock(s) + Rto(Entering(u, e)) else u.seqTimeout[s]
  {
    hide Rtt.Update;
  }

  /** A sampled round trip runs from the last sending of the number acknowledged. */
  lemma SampleRunsFromLastSending(h: History, ack: nat, now: Time)
    requires YieldsSample(h, ack)
    ensures var u, v := After(h), HandleAck(After(h), ack, now);
            LastSending(h, ack) > 0 && Rtt.Estimate(v.rtt, v.dev) ==
            Rtt.Absorb(Rtt.Estimate(u.rtt, u.dev), (now - LastSending(h, ack)) % WORD)
  {
    hide *;
    SampledNumberIsStamped(h, ack);
    StampIsLastSending(h, ack);
    EstimateAfterAck(After(h), ack, now);
  }

  lemma SampledNumberIsStamped(h: History, ack: nat)
    requires YieldsSample(h, ack)
    ensures ack <= LAST_SEQ && Accepts(After(h), ack) && Sampling(After(h)) && After(h).seqTs[ack] > 0
  {
    InvariantHolds(h);
  }

  lemma EstimateAfterAck(u: Upload, ack: nat, now: Time)
    requires Accepts(u, ack) && Sampling(u) && u.seqTs[ack] > 0
    ensures var v := HandleAck(u, ack, now);
            Rtt.Estimate(v.rtt, v.dev) == Rtt.Absorb(Rtt.Estimate(u.rtt, u.dev), (now - u.seqTs[ack]) % WORD)
  {
    hide Rtt.Absorb;
  }

  /** The arriving ack feeds update_rtt with the stamp of its own number. */
  ghost predicate YieldsSample(h: History, ack: nat) {
    Accepts(After(h), ack) && Sampling(After(h))
  }

  /**
    Karn's rule (section 3 of RFC 6298) for acks that advance the window: the sampled
    number was transmitted once, so the sample is unambiguous.
   */
  lemma AdvancingSampleIsUnambiguous(h: History, ack: nat)
    requires YieldsSample(h, ack) && ack > After(h).lastAcked
    ensures Sent(h, ack) == 1
  {
    InvariantHolds(h);
    SentExactlyUpToMax(h, ack);
  }

  /**
    A repeated ack is sampled too.  It is unambiguous when above the retransmission mark,
    which leaves one family: the last acknowledged number being the mark itself.
   */
  lemma SampleAboveMarkIsUnambiguous(h: History, ack: nat)
    requires YieldsSample(h, ack)
    ensures ack > After(h).maxRetransmit ==> Sent(h, ack) == 1
    ensures ack <= After(h).maxRetransmit ==> ack == After(h).lastAcked == After(h).maxRetransmit
  {
    InvariantHolds(h);
    SentExactlyUpToMax(h, ack);
  }

  /**
    Counters never exceed three or the acks that arrived, and are zero above the last ack;
    repairs can make them negative.
   */
  lemma {:induction false} CountersFollowArrivals(h: History, a: nat)
    requires a <= LAST_SEQ
    ensures After(h).ackCnt[a] <= MAX_DUP_ACK
    ensures After(h).ackCnt[a] <= Arrivals(h, a)
    ensures a > After(h).lastAcked ==> After(h).ackCnt[a] == 0
    decreases |h.events|
  {
    InvariantHolds(h);
    if h.events != [] {
      CountersFollowArrivals(h.Before(), a);
      InvariantHolds(h.Before());
      StepCounts(After(h.Before()), h.Last(), a);
    }
  }

  lemma StepCounts(u: Upload, e: Event, a: nat)
    requires Invariant(u) && a <= LAST_SEQ
    ensures Step(u, e).ackCnt[a] <= Max(0, u.ackCnt[a]) + if e.Ack? && e.ack == a then 1 else 0
  {
    if e.Ack? {
      HandleAckCounts(u, e.ack, e.now, a);
    }
    hide HandleAck;
  }

  lemma HandleAckCounts(u: Upload, ack: nat, now: Time, a: nat)
    requires Invariant(u) && a <= LAST_SEQ
    ensures HandleAck(u, ack, now).ackCnt[a] <= Max(0, u.ackCnt[a]) + if ack == a then 1 else 0
  {
    hide Sample, Stamped;
    if Accepts(u, ack) {
      SampleKeeps(u, ack, now);
    }
  }

  /**
    Fast retransmit (section 3.2 of RFC 5681): an ack-triggered loss repeats the last
    acknowledged number, in slow start or congestion avoidance only, after at least
    three duplicates of that ack.
   */
  lemma FastRetransmitNeedsThreeDuplicates(h: History, ack: nat)
    requires AckSignalsLoss(After(h), ack)
    ensures ack == After(h).lastAcked && Sampling(After(h))
    ensures Arrivals(h, ack) >= 3
  {
    InvariantHolds(h);
    CountersFollowArrivals(h, ack);
  }

  // ---------------------------------------------------------------- bounded retries

  lemma StepSpendsAllowance(u: Upload, e: Event)
    requires Invariant(u) && u.timeoutCnt <= MAX_TIMEOUT_CNT
    ensures var v := Step(u, e);
            5 * v.lastAcked + v.timeoutCnt + (if e.Ack? && e.ack == 0 then 5 else 0)
            >= 5 * u.lastAcked + u.timeoutCnt + (if e.Tick? && TimesOut(u, e.now) then 1 else 0)
    ensures var v := Step(u, e);
            v.timeoutCnt <= MAX_TIMEOUT_CNT + 1
  {
    match e
    case Ack(ack, now, clock) =>
      HandleAckKeeps(u, ack, now);
      if Accepts(u, ack) {
        SampleKeeps(u, ack, now);
      }
    case Tick(now, clock) =>
      if TimesOut(u, now) {
        BackOffKeeps(u, now);
      }
  }

  /**
    A run that is still going suffers at most 2561 timeouts, plus five for every zero ack
    (which resets the count without acknowledging anything).
   */
  lemma {:induction false} RetriesAreBounded(h: History)
    requires NotKilledBefore(h)
    ensures Timeouts(h) <= 2561 + 5 * Arrivals(h, 0)
    ensures Timeouts(h) <= 5 * After(h).lastAcked + After(h).timeoutCnt + 5 * Arrivals(h, 0)
    ensures After(h).timeoutCnt <= MAX_TIMEOUT_CNT + 1
    decreases |h.events|
  {
    InvariantHolds(h);
    if h.events != [] {
      RetriesAreBounded(h.Before());
      InvariantHolds(h.Before());
      StepSpendsAllowance(After(h.Before()), h.Last());
    }
  }

  // ---------------------------------------------------------------- backing off

  /**
    Backing off, on the event that times out: the head of the window goes out again under
    the new timeout, which is longer than the one the estimate stood for if and only if
    that estimate was neither zero nor as much as a quarter of the default.  It stays as
    it was at zero and at exactly a quarter, and is cut down to half the default above.
   */
  lemma TimeoutLengthensIffEstimateIsShort(u: Upload, now: Time, clock: nat -> Time)
    requires Invariant(u) && TimesOut(u, now)
    ensures var v, head := Step(u, Tick(now, clock)), u.lastAcked + 1;
            && v.seqTimeout[head] == v.seqTs[head] + v.rto && v.seqTs[head] == clock(head)
            && (v.rto > Rto(u) <==> 0 < u.rtt < DEFAULT_TIMEOUT / 4)
            && (v.rto == Rto(u) <==> u.rtt == 0 || u.rtt == DEFAULT_TIMEOUT / 4)
            && (u.rtt > 0 ==> v.rto <= DEFAULT_TIMEOUT / 2)
  {
    TimeoutDoublesEstimate(u, now, clock);
    BackOffKeeps(u, now);
    var v := BackOff(u, now);
    assert v.lastSent < u.lastAcked + 1 <= SendLimit(v);
  }

  lemma TimeoutDoublesEstimate(u: Upload, now: Time, clock: nat -> Time)
    requires TimesOut(u, now)
    ensures Step(u, Tick(now, clock)).rtt == Min(2 * u.rtt, DEFAULT_TIMEOUT / 4)
  {
  }

  lemma QuietTickKeepsEstimate(u: Upload, now: Time, clock: nat -> Time)
    requires !TimesOut(u, now)
    ensures Step(u, Tick(now, clock)).rtt == u.rtt
  {
  }

  function Pow2(n: nat): (r: nat)
    ensures r >= 1
  {
    if n == 0 then 1 else 2 * Pow2(n - 1)
  }

  /** The estimate after n timeouts with no sample between them. */
  function BackedOff(rtt: nat, n: nat): nat {
    if n == 0 then rtt else Min(2 * BackedOff(rtt, n - 1), DEFAULT_TIMEOUT / 4)
  }

  lemma {:induction false} BackedOffInClosedForm(rtt: nat, n: nat)
    ensures n > 0 ==> BackedOff(rtt, n) == Min(Pow2(n) * rtt, DEFAULT_TIMEOUT / 4)
  {
    if n > 0 {
      BackedOffInClosedForm(rtt, n - 1);
      assert Pow2(n) * rtt == 2 * (Pow2(n - 1) * rtt);
    }
  }

  /** h followed by some ticks of the timer and no ack. */
  function Ticked(h: History, ticks: seq<Event>): History {
    History(h.hasIndex, h.clock, h.events + ticks)
  }

  lemma {:induction false} EstimateAfterTicks(h: History, ticks: seq<Event>)
    requires forall i :: 0 <= i < |ticks| ==> ticks[i].Tick?
    ensures Timeouts(h) <= Timeouts(Ticked(h, ticks))
    ensures After(Ticked(h, ticks)).rtt == BackedOff(After(h).rtt, Timeouts(Ticked(h, ticks)) - Timeouts(h))
    decreases |ticks|
  {
    hide *;
    if ticks == [] {
      NoTicks(h);
      BackedOffUnfolds(After(h).rtt, 0);
    } else {
      var front, g := Ticked(h, ticks[..|ticks| - 1]), Ticked(h, ticks);
      LastTick(h, ticks);
      EstimateAfterTicks(h, ticks[..|ticks| - 1]);
      EstimateAfterTick(g);
      BackedOffUnfolds(After(h).rtt, Timeouts(front) - Timeouts(h));
    }
  }

  lemma NoTicks(h: History)
    ensures Ticked(h, []) == h
  {
    assert h.events + [] == h.events;
  }

  lemma LastTick(h: History, ticks: seq<Event>)
    requires ticks != []
    ensures var g := Ticked(h, ticks);
            g.events != [] && g.Before() == Ticked(h, ticks[..|ticks| - 1]) && g.Last() == ticks[|ticks| - 1]
  {
    var g := Ticked(h, ticks);
    assert g.events[..|g.events| - 1] == h.events + ticks[..|ticks| - 1];
  }

  lemma BackedOffUnfolds(rtt: nat, n: nat)
    ensures BackedOff(rtt, 0) == rtt
    ensures BackedOff(rtt, n + 1) == Min(2 * BackedOff(rtt, n), DEFAULT_TIMEOUT / 4)
  {
  }

  lemma EstimateAfterTick(g: History)
    requires g.events != [] && g.Last().Tick?
    ensures var timeout := TimesOut(After(g.Before()), g.Last().now);
            && Timeouts(g) == Timeouts(g.Before()) + (if timeout then 1 else 0)
            && After(g).rtt == if timeout then Min(2 * After(g.Before()).rtt, DEFAULT_TIMEOUT / 4)
                               else After(g.Before()).rtt
  {
    hide Step, TimesOut;
    var u, e := After(g.Before()), g.Last();
    if TimesOut(u, e.now) {
      TimeoutDoublesEstimate(u, e.now, e.clock);
    } else {
      QuietTickKeepsEstimate(u, e.now, e.clock);
    }
  }

  /**
    Timeouts in a row double the timeout only up to half the default and then leave it
    alone; a zero estimate keeps the whole default.  From the start of a transfer, where
    the estimate is half the default, every timeout until the first ack gives the same
    half of the timeout that packet 1 was first sent under.
   */
  lemma TimeoutsInARow(h: History, ticks: seq<Event>)
    requires forall i :: 0 <= i < |ticks| ==> ticks[i].Tick?
    ensures var n, r := Timeouts(Ticked(h, ticks)) - Timeouts(h), After(h).rtt;
            n > 0 ==> Rto(After(Ticked(h, ticks))) ==
                      if r == 0 then DEFAULT_TIMEOUT else Min(2 * (Pow2(n) * r), DEFAULT_TIMEOUT / 2)
    ensures h.events == [] && Timeouts(Ticked(h, ticks)) > 0 ==>
              Rto(After(Ticked(h, ticks))) == DEFAULT_TIMEOUT / 2 && Rto(After(h)) == DEFAULT_TIMEOUT
  {
    hide After, Timeouts;
    EstimateAfterTicks(h, ticks);
    var n, r := Timeouts(Ticked(h, ticks)) - Timeouts(h), After(h).rtt;
    BackedOffInClosedForm(r, n);
    hide BackedOff, Pow2;
    if n > 0 {
      PowerTimes(n, r);
    }
    if h.events == [] {
      FreshEstimate(h);
    }
  }

  lemma PowerTimes(n: nat, r: nat)
    ensures r <= Pow2(n) * r
    ensures Pow2(n) * r == 0 <==> r == 0
  {
  }

  lemma FreshEstimate(h: History)
    requires h.events == []
    ensures After(h).rtt == DEFAULT_TIMEOUT / 2 && Timeouts(h) == 0
  {
  }

  // ---------------------------------------------------------------- slow start

  /**
    In slow start the window grows by the number of packets newly acknowledged, so by one,
    as the documentation has it for every valid ack, if and only if the ack is the next one.
   */
  lemma SlowStartGrowsByPacketsAcked(u: Upload, ack: nat, now: Time)
    requires Invariant(u) && u.status == SlowStart && Accepts(u, ack) && u.lastAcked < ack
    ensures HandleAck(u, ack, now).window == u.window + (ack - u.lastAcked)
    ensures HandleAck(u, ack, now).window == u.window + 1 <==> ack == u.lastAcked + 1
  {
    NewAckAdvances(u, ack, now);
  }
}
