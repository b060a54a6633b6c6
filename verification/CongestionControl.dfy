/**
  What single events do to status, window, threshold and counters of the sender, said
  without its functions: when a repair ends, what a loss costs, when the window grows.
 */
module CongestionControl {
  import opened Common
  import opened Sender
  import opened SenderRuns
  import R = Receiver
  import Rtt

  // ---------------------------------------------------------------- the status

  /**
    A repair ends, and round trips are sampled again, exactly when the ack reaches the
    retransmission mark: in slow start or in congestion avoidance, whichever side of the
    threshold the repair was on.
   */
  lemma RepairEndsAtTheMark(u: Upload, ack: nat, now: Time)
    requires Invariant(u) && Repairing(u) && Accepts(u, ack) && u.lastAcked < ack
    ensures var v := HandleAck(u, ack, now);
            && (Sampling(v) <==> ack >= u.maxRetransmit)
            && (Repairing(v) <==> ack < u.maxRetransmit)
            && (Sampling(v) ==> v.status == if u.status == FastRetransmitSS then SlowStart else CongestionAvoidance)
            && (Repairing(v) ==> (v.status == FastRetransmitCA <==> v.window > v.ssThreshold))
            && v.window == u.window + (if u.status == FastRetransmitSS then 1 else 0)
            && v.ssThreshold == u.ssThreshold
  {
    NewAckAdvances(u, ack, now);
  }

  /** Fast retransmit is left exactly when the packet it resent is acknowledged, with a window of two. */
  lemma RetransmitEndsWithItsPacket(u: Upload, ack: nat, now: Time)
    requires Invariant(u) && u.status == FastRetransmit && Accepts(u, ack) && u.lastAcked < ack
    ensures var v := HandleAck(u, ack, now);
            && (v.status == FastRetransmitSS <==> ack >= u.lastSent)
            && (v.status == FastRetransmit <==> ack < u.lastSent)
            && v.window == if ack >= u.lastSent then 2 else 1
  {
    NewAckAdvances(u, ack, now);
  }

  /**
    Slow start is left by an ack exactly when the grown window passes the threshold;
    congestion avoidance is not left by an advancing ack, and its window does not grow.
   */
  lemma SlowStartEndsAtTheThreshold(u: Upload, ack: nat, now: Time)
    requires Invariant(u) && Sampling(u) && Accepts(u, ack) && u.lastAcked < ack
    ensures var v := HandleAck(u, ack, now);
            && Sampling(v) && v.ssThreshold == u.ssThreshold
            && (v.status == CongestionAvoidance <==> v.window > v.ssThreshold)
            && v.window == u.window + (if u.status == SlowStart then ack - u.lastAcked else 0)
  {
    NewAckAdvances(u, ack, now);
  }

  // ---------------------------------------------------------------- losses

  predicate Loses(u: Upload, e: Event) {
    if e.Ack? then AckSignalsLoss(u, e.ack) else TimesOut(u, e.now)
  }

  /** The window at the moment of the loss: a tick may have enlarged it first. */
  function WindowAtLoss(u: Upload, e: Event): nat {
    if e.Ack? then u.window else Additive(u, e.now).window
  }

  /**
    Whatever way a loss shows, the threshold becomes half the window but not less than
    two, the window one, the mark the highest number sent so far, and exactly one packet
    goes out, the first one not acknowledged.
   */
  lemma LossHalvesAndResendsTheHead(u: Upload, e: Event, s: nat)
    requires Invariant(u) && Loses(u, e)
    ensures var v, w := Step(u, e), WindowAtLoss(u, e);
            && u.window <= w <= u.window + 1
            && (if w < 6 then v.ssThreshold == 2 else w - 1 <= 2 * v.ssThreshold <= w)
            && v.window == 1 && v.status == FastRetransmit && v.maxRetransmit == u.maxSent && v.lastAcked == u.lastAcked
    ensures Transmits(u, e, s) <==> s == u.lastAcked + 1
  {
    hide Stamped, Rtt.Update;
    LossIsOnlyBeforeTheEnd(u, e);
    if e.Ack? {
      SampleKeeps(u, e.ack, e.now);
    }
  }

  lemma LossIsOnlyBeforeTheEnd(u: Upload, e: Event)
    requires Invariant(u) && Loses(u, e)
    ensures !u.finished && u.lastAcked < LAST_SEQ
  {
  }

  /**
    While round trips are sampled a repetition of the last ack signals a loss exactly when
    three have been counted already, and is counted otherwise; it moves nothing else but
    the estimate.
   */
  lemma FourthArrivalIsALoss(u: Upload, now: Time)
    requires Invariant(u) && Sampling(u) && Accepts(u, u.lastAcked)
    ensures AckSignalsLoss(u, u.lastAcked) <==> u.ackCnt[u.lastAcked] == MAX_DUP_ACK
    ensures var v := HandleAck(u, u.lastAcked, now);
            !AckSignalsLoss(u, u.lastAcked) ==>
              v == u.(ackCnt := u.ackCnt[u.lastAcked := u.ackCnt[u.lastAcked] + 1], rtt := v.rtt, dev := v.dev)
  {
    SampleKeeps(u, u.lastAcked, now);
    hide Rtt.Update;
  }

  /**
    During a repair no repetition signals a loss: it sets the counter of the last ack to
    one, and a new ack that skips k numbers starts its counter at 1 - k, so that k more
    repetitions than usual are needed later.  In fast retransmit nothing is counted.
   */
  lemma RepairCountsAnew(u: Upload, ack: nat, now: Time)
    requires Invariant(u) && !Sampling(u) && Accepts(u, ack)
    ensures !AckSignalsLoss(u, ack)
    ensures var count := HandleAck(u, ack, now).ackCnt[ack];
            Repairing(u) ==> count == if ack == u.lastAcked then 1 else 1 - (ack - u.lastAcked - 1)
    ensures u.status == FastRetransmit ==> HandleAck(u, ack, now).ackCnt == u.ackCnt
  {
    if u.status == FastRetransmit {
      assert u.ackCnt[ack := u.ackCnt[ack]] == u.ackCnt;
    }
  }

  /** One of these events is a loss. */
  ghost predicate LosesWithin(u: Upload, es: seq<Event>)
    decreases |es|
  {
    es != [] && (Loses(u, es[0]) || LosesWithin(Step(u, es[0]), es[1..]))
  }

  lemma RepetitionIsCounted(u: Upload, e: Event)
    requires Invariant(u) && Sampling(u) && e.Ack? && e.ack == u.lastAcked && Accepts(u, e.ack) && !Loses(u, e)
    ensures var v := Step(u, e);
            Invariant(v) && Sampling(v) && v.lastAcked == u.lastAcked && Accepts(v, e.ack)
            && v.ackCnt[e.ack] == u.ackCnt[e.ack] + 1
  {
    StepKeeps(u, e);
    FourthArrivalIsALoss(u, e.now);
    hide HandleAck, Invariant;
  }

  /** While round trips are sampled, repetitions of the last ack lose exactly if they bring its count to four. */
  lemma {:induction false} RepetitionsUntilLoss(u: Upload, es: seq<Event>)
    requires Invariant(u) && Sampling(u) && Accepts(u, u.lastAcked)
    requires forall i :: 0 <= i < |es| ==> es[i].Ack? && es[i].ack == u.lastAcked
    ensures LosesWithin(u, es) <==> es != [] && u.ackCnt[u.lastAcked] + |es| > MAX_DUP_ACK
    decreases |es|
  {
    hide HandleAck, Invariant, Step;
    CountIsAtMostThree(u);
    if es != [] {
      FourthArrivalIsALoss(u, es[0].now);
      if !Loses(u, es[0]) {
        RepetitionIsCounted(u, es[0]);
        RepetitionsUntilLoss(Step(u, es[0]), es[1..]);
      }
    }
  }

  lemma CountIsAtMostThree(u: Upload)
    requires Invariant(u)
    ensures u.ackCnt[u.lastAcked] <= MAX_DUP_ACK
  {
  }

  /**
    What the acks are for that a receiver sends when it times out: they make a sender that
    samples round trips go back exactly if it has had that ack before.
   */
  lemma ReceiverTimeoutForcesALoss(u: Upload, es: seq<Event>)
    requires Invariant(u) && Sampling(u) && Accepts(u, u.lastAcked)
    requires |es| == R.LOSS_ACK_NUM && forall i :: 0 <= i < |es| ==> es[i].Ack? && es[i].ack == u.lastAcked
    ensures LosesWithin(u, es) <==> u.ackCnt[u.lastAcked] >= 1
  {
    RepetitionsUntilLoss(u, es);
  }

  // ---------------------------------------------------------------- sending

  /** After every ack everything the window allows is out: as many numbers as it holds, or all there are. */
  lemma AckFillsTheWindow(u: Upload, e: Event)
    requires Invariant(u) && e.Ack? && !Step(u, e).finished
    ensures var v := Step(u, e);
            v.lastSent - v.lastAcked == Min(v.window, LAST_SEQ - v.lastAcked)
  {
    HandleAckKeeps(u, e.ack, e.now);
  }

  // ---------------------------------------------------------------- additive increase

  /**
    A tick enlarges the window, by one, exactly when congestion is being avoided and the
    pause since the last enlargement, or since the first tick, is over; the next pause
    lasts one round trip.
   */
  lemma IncreaseAfterThePause(u: Upload, now: Time)
    ensures var v := Additive(u, now);
            && (v.window == u.window + 1 <==> Avoiding(u) && 0 < u.caTs < now)
            && (v.window == u.window <==> !(Avoiding(u) && 0 < u.caTs < now))
            && (v.caTs != u.caTs ==> v.caTs == now + u.rtt)
            && (v.caTs == u.caTs <== v.window == u.window && (u.caTs > 0 || !Avoiding(u)))
            && (u.caTs == 0 && Avoiding(u) ==> v.caTs == now + u.rtt)
            && (v.window > u.window ==> v.caTs == now + u.rtt)
  {
  }

  /** Ticks at these times, none of which finds a timer expired. */
  function AfterTicks(u: Upload, times: seq<Time>): Upload {
    if times == [] then u else Additive(AfterTicks(u, times[..|times| - 1]), times[|times| - 1])
  }

  /** However often the timer ticks, each enlargement is more than a round trip after the one before it. */
  lemma {:induction false} OneIncreasePerRoundTrip(u: Upload, times: seq<Time>)
    requires u.caTs > 0 && times != []
    requires forall i, j :: 0 <= i < j < |times| ==> times[i] <= times[j]
    ensures var v, last := AfterTicks(u, times), times[|times| - 1];
            && v.window >= u.window && v.rtt == u.rtt && v.status == u.status && v.caTs > 0
            && u.caTs + (v.window - u.window) * (u.rtt + 1) <= v.caTs
            && (v.window > u.window ==> v.caTs <= last + u.rtt)
  {
    var front, last := times[..|times| - 1], times[|times| - 1];
    var w := AfterTicks(u, front);
    if front != [] {
      OneIncreasePerRoundTrip(u, front);
      assert front[|front| - 1] <= last;
    }
    hide AfterTicks;
    IncreaseAfterThePause(w, last);
    var k := w.window - u.window;
    assert (k + 1) * (u.rtt + 1) == k * (u.rtt + 1) + u.rtt + 1;
  }
}
