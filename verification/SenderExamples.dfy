/**
  Concrete runs of the sender that show where a stated rule fails.
 */
module SenderExamples {
  import opened Common
  import opened Sender
  import opened SenderRuns

  function At(t: Time): nat -> Time {
    (s: nat) => t
  }

  /** start_upload at time 1. */
  function Started(): History {
    History(0, At(1), [])
  }

  function Extend(h: History, e: Event): History {
    History(h.hasIndex, h.clock, h.events + [e])
  }

  lemma ExtendUnfolds(h: History, e: Event, s: nat)
    ensures After(Extend(h, e)) == Step(After(h), e)
    ensures Sent(Extend(h, e), s) == Sent(h, s) + if Transmits(After(h), e, s) then 1 else 0
  {
    var g := Extend(h, e);
    assert g.events[..|g.events| - 1] == h.events;
    assert g.Before() == h && g.Last() == e;
  }

  lemma NothingSentAbove(s: nat)
    requires s > 1
    ensures After(Started()) == Start(0, At(1)) && Sent(Started(), s) == 0
  {
  }

  /** Ack 1, a timeout, then acks 2 and 3: number 3 goes out twice and slow start resumes at it. */
  function Resent(): History {
    var h0 := Started();
    var h1 := Extend(h0, Ack(1, 2, At(2)));
    var h2 := Extend(h1, Tick(10000, At(10000)));
    var h3 := Extend(h2, Ack(2, 10001, At(10001)));
    Extend(h3, Ack(3, 10002, At(10002)))
  }

  lemma FirstAck(u: Upload)
    requires u == Start(0, At(1))
    ensures var v := Step(u, Ack(1, 2, At(2)));
            && v.status == SlowStart && !v.finished && v.window == 2
            && v.lastAcked == 1 && v.lastSent == v.maxSent == 3 && v.maxRetransmit == 0
            && v.seqTimeout[2] == 4376 && v.seqTs[3] == 2 && v.rtt == 2187 && v.ssThreshold == 64 && v.ackCnt[3] == 0
    ensures !Transmits(u, Ack(1, 2, At(2)), 1) && Transmits(u, Ack(1, 2, At(2)), 3)
            && !Transmits(u, Ack(1, 2, At(2)), 7)
  {
    assert u.lastSent == u.maxSent == 1 && u.window == 1 && u.rtt == 2500 && u.dev == 0;
    assert u.ackCnt[1] == 0 && u.seqTs[1] == 1;
    var s := Sample(u, 1, 2);
    assert s.rtt == 2187;
  }

  lemma Expiry(u: Upload)
    requires u.status == SlowStart && !u.finished && u.window == 2
    requires u.lastAcked == 1 && u.lastSent == u.maxSent == 3
    requires u.seqTimeout[2] == 4376
    ensures var v := Step(u, Tick(10000, At(10000)));
            && v.status == FastRetransmit && !v.finished && v.window == 1 && v.ssThreshold == 2
            && v.lastAcked == 1 && v.lastSent == 2 && v.maxSent == v.maxRetransmit == 3
    ensures !Transmits(u, Tick(10000, At(10000)), 3)
  {
  }

  lemma SecondAck(u: Upload)
    requires u.status == FastRetransmit && !u.finished && u.window == 1 && u.ssThreshold == 2
    requires u.lastAcked == 1 && u.lastSent == 2 && u.maxSent == u.maxRetransmit == 3
    ensures var v := Step(u, Ack(2, 10001, At(10001)));
            && v.status == FastRetransmitSS && !v.finished && v.window == 2 && v.ssThreshold == 2
            && v.lastAcked == 2 && v.lastSent == v.maxSent == 4 && v.maxRetransmit == 3
    ensures Transmits(u, Ack(2, 10001, At(10001)), 3)
  {
  }

  lemma ThirdAck(u: Upload)
    requires u.status == FastRetransmitSS && !u.finished && u.window == 2 && u.ssThreshold == 2
    requires u.lastAcked == 2 && u.lastSent == u.maxSent == 4 && u.maxRetransmit == 3
    ensures var v := Step(u, Ack(3, 10002, At(10002)));
            && v.status == SlowStart && !v.finished
            && v.lastAcked == v.maxRetransmit == 3 && v.maxSent == 6
    ensures !Transmits(u, Ack(3, 10002, At(10002)), 3)
  {
  }

  lemma SampledAtTheMark(h: History, ack: nat)
    requires var u := After(h); u.status == SlowStart && !u.finished && 0 < ack == u.lastAcked <= u.maxSent
    ensures YieldsSample(h, ack)
  {
  }

  /**
    The documented rule that acks of retransmitted packets are not used for the RTT fails
    for repeated acks: here number 3 has been sent twice, the ack of it is a duplicate,
    and the sample is taken all the same.
   */
  lemma RepeatedAckMaySampleResentNumber()
    ensures YieldsSample(Resent(), 3) && Sent(Resent(), 3) == 2
    ensures After(Resent()).lastAcked == After(Resent()).maxRetransmit == 3
  {
    var h0 := Started();
    var e1, e2, e3, e4 := Ack(1, 2, At(2)), Tick(10000, At(10000)), Ack(2, 10001, At(10001)), Ack(3, 10002, At(10002));
    var h1 := Extend(h0, e1);
    var h2 := Extend(h1, e2);
    var h3 := Extend(h2, e3);
    NothingSentAbove(3);
    assert Resent() == Extend(h3, e4);
    hide *;
    ExtendUnfolds(h0, e1, 3);
    FirstAck(After(h0));
    ExtendUnfolds(h1, e2, 3);
    Expiry(After(h1));
    ExtendUnfolds(h2, e3, 3);
    SecondAck(After(h2));
    ExtendUnfolds(h3, e4, 3);
    ThirdAck(After(h3));
    SampledAtTheMark(Resent(), 3);
  }

  /** Acks 1 and 3, a timeout, then acks 4 and 7: slow start resumes at 7 before it would have been sent again. */
  function Overtaken(): History {
    var h0 := Started();
    var h1 := Extend(h0, Ack(1, 2, At(2)));
    var h2 := Extend(h1, Ack(3, 3, At(3)));
    var h3 := Extend(h2, Tick(10000, At(10000)));
    var h4 := Extend(h3, Ack(4, 10001, At(10001)));
    Extend(h4, Ack(7, 10002, At(10002)))
  }

  lemma DoubleAck(u: Upload)
    requires u.status == SlowStart && !u.finished && u.window == 2 && u.ssThreshold == 64 && u.ackCnt[3] == 0
    requires u.lastAcked == 1 && u.lastSent == u.maxSent == 3 && 0 < u.rtt <= 2187 && u.seqTs[3] == 2
    ensures var v := Step(u, Ack(3, 3, At(3)));
            && v.status == SlowStart && !v.finished && v.window == 4
            && v.lastAcked == 3 && v.lastSent == v.maxSent == 7 && 0 < v.seqTimeout[4] <= 10000
    ensures Transmits(u, Ack(3, 3, At(3)), 7)
  {
    assert Sample(u, 3, 3).rtt <= 2188;
  }

  lemma LaterExpiry(u: Upload)
    requires u.status == SlowStart && !u.finished && u.window == 4
    requires u.lastAcked == 3 && u.lastSent == u.maxSent == 7 && 0 < u.seqTimeout[4] <= 10000
    ensures var v := Step(u, Tick(10000, At(10000)));
            && v.status == FastRetransmit && !v.finished && v.window == 1 && v.ssThreshold == 2
            && v.lastAcked == 3 && v.lastSent == 4 && v.maxSent == v.maxRetransmit == 7
    ensures !Transmits(u, Tick(10000, At(10000)), 7)
  {
  }

  lemma RepairBegins(u: Upload)
    requires u.status == FastRetransmit && !u.finished && u.window == 1 && u.ssThreshold == 2
    requires u.lastAcked == 3 && u.lastSent == 4 && u.maxSent == u.maxRetransmit == 7
    ensures var v := Step(u, Ack(4, 10001, At(10001)));
            && v.status == FastRetransmitSS && !v.finished && v.window == 2 && v.ssThreshold == 2
            && v.lastAcked == 4 && v.lastSent == 6 && v.maxSent == v.maxRetransmit == 7
    ensures !Transmits(u, Ack(4, 10001, At(10001)), 7)
  {
  }

  lemma RepairOvertaken(u: Upload)
    requires u.status == FastRetransmitSS && !u.finished && u.window == 2 && u.ssThreshold == 2
    requires u.lastAcked == 4 && u.lastSent == 6 && u.maxSent == u.maxRetransmit == 7
    ensures var v := Step(u, Ack(7, 10002, At(10002)));
            && v.status == SlowStart && !v.finished && v.lastAcked == v.maxRetransmit == 7 && v.maxSent == 10
    ensures !Transmits(u, Ack(7, 10002, At(10002)), 7)
  {
  }

  /** At the mark the sample may be unambiguous as well: here number 7 has been sent only once. */
  lemma RepeatedAckMaySampleNumberSentOnce()
    ensures YieldsSample(Overtaken(), 7) && Sent(Overtaken(), 7) == 1
    ensures After(Overtaken()).lastAcked == After(Overtaken()).maxRetransmit == 7
  {
    var h0 := Started();
    var e1, e2, e3 := Ack(1, 2, At(2)), Ack(3, 3, At(3)), Tick(10000, At(10000));
    var e4, e5 := Ack(4, 10001, At(10001)), Ack(7, 10002, At(10002));
    var h1 := Extend(h0, e1);
    var h2 := Extend(h1, e2);
    var h3 := Extend(h2, e3);
    var h4 := Extend(h3, e4);
    NothingSentAbove(7);
    assert Overtaken() == Extend(h4, e5);
    hide *;
    ExtendUnfolds(h0, e1, 7);
    FirstAck(After(h0));
    ExtendUnfolds(h1, e2, 7);
    DoubleAck(After(h1));
    ExtendUnfolds(h2, e3, 7);
    LaterExpiry(After(h2));
    ExtendUnfolds(h3, e4, 7);
    RepairBegins(After(h3));
    ExtendUnfolds(h4, e5, 7);
    RepairOvertaken(After(h4));
    SampledAtTheMark(Overtaken(), 7);
  }

  // ---------------------------------------------------------------- backing off

  /** Packet 1 alone is out and its timer expires: what a timeout makes of the record. */
  lemma FirstPacketTimesOut(u: Upload, t: Time)
    requires u.status == SlowStart || u.status == FastRetransmit
    requires !u.finished && u.lastAcked == 0 && u.lastSent == u.maxSent == u.window == 1 && u.rtt >= 1250
    requires 0 < u.seqTimeout[1] <= t
    ensures TimesOut(u, t) && Transmits(u, Tick(t, At(t)), 1)
    ensures Step(u, Tick(t, At(t))) ==
            u.(ssThreshold := 2, status := FastRetransmit, maxRetransmit := 1, rtt := 1250, rto := 2500,
               timeoutCnt := u.timeoutCnt + 1,
               seqTs := u.seqTs[1 := t], seqTimeout := u.seqTimeout[1 := t + 2500])
  {
    assert BackOff(u, t) == u.(ssThreshold := 2, status := FastRetransmit, maxRetransmit := 1, lastSent := 0,
                               rtt := 1250, timeoutCnt := u.timeoutCnt + 1);
    assert SendLimit(BackOff(u, t)) == 1;
    EmitNothing(BackOff(u, t), At(t));
    EmitNext(BackOff(u, t), 0, At(t));
  }

  function OneTimeout(t: Time): History {
    Extend(Started(), Tick(t, At(t)))
  }

  function TwoTimeouts(t: Time): History {
    Extend(OneTimeout(10000), Tick(t, At(t)))
  }

  lemma StartedFacts()
    ensures var u := After(Started());
            && u.status == SlowStart && !u.finished && u.lastAcked == 0 && u.lastSent == u.maxSent == u.window == 1
            && u.rtt == 2500 && u.rto == 5000 && u.seqTimeout[1] == 5001 && u.timeoutCnt == 0
    ensures Timeouts(Started()) == 0 && Sent(Started(), 1) == 1
  {
  }

  lemma TimeoutCounts(h: History, t: Time)
    ensures Timeouts(Extend(h, Tick(t, At(t)))) == Timeouts(h) + if TimesOut(After(h), t) then 1 else 0
  {
    var g := Extend(h, Tick(t, At(t)));
    assert g.events[..|g.events| - 1] == h.events;
    assert g.Before() == h;
  }

  lemma OneTimeoutFacts(t: Time)
    requires t >= 5001
    ensures var u := After(Started());
            After(OneTimeout(t)) ==
            u.(ssThreshold := 2, status := FastRetransmit, maxRetransmit := 1, rtt := 1250, rto := 2500,
               timeoutCnt := 1, seqTs := u.seqTs[1 := t], seqTimeout := u.seqTimeout[1 := t + 2500])
    ensures Timeouts(OneTimeout(t)) == 1 && Sent(OneTimeout(t), 1) == 2
  {
    StartedFacts();
    hide After, Timeouts, Sent, Step, TimesOut, Transmits;
    ExtendUnfolds(Started(), Tick(t, At(t)), 1);
    TimeoutCounts(Started(), t);
    FirstPacketTimesOut(After(Started()), t);
  }

  lemma TwoTimeoutsFacts(t: Time)
    requires t >= 12500
    ensures After(TwoTimeouts(t)) == After(OneTimeout(t)).(timeoutCnt := 2)
    ensures Timeouts(TwoTimeouts(t)) == 2 && Sent(TwoTimeouts(t), 1) == 3
  {
    StartedFacts();
    hide After, Timeouts, Sent, Step, TimesOut, Transmits;
    OneTimeoutFacts(10000);
    OneTimeoutFacts(t);
    ExtendUnfolds(OneTimeout(10000), Tick(t, At(t)), 1);
    TimeoutCounts(OneTimeout(10000), t);
    FirstPacketTimesOut(After(OneTimeout(10000)), t);
    var u := After(Started());
    assert u.seqTs[1 := 10000][1 := t] == u.seqTs[1 := t];
    assert u.seqTimeout[1 := 12500][1 := t + 2500] == u.seqTimeout[1 := t + 2500];
  }

  /** Two timeouts from the start of a transfer: the first halves the timeout, the second leaves it there. */
  lemma FirstTimeoutsDoNotBackOff()
    ensures After(Started()).rto == 5000
    ensures Timeouts(OneTimeout(10000)) == 1 && After(OneTimeout(10000)).rto == 2500
    ensures Timeouts(TwoTimeouts(20000)) == 2 && After(TwoTimeouts(20000)).rto == 2500
  {
    StartedFacts();
    OneTimeoutFacts(10000);
    OneTimeoutFacts(20000);
    TwoTimeoutsFacts(20000);
  }

  // ---------------------------------------------------------------- slow start

  /** One ack for two packets makes the slow-start window grow by two. */
  lemma CumulativeAckGrowsByTwo()
    ensures var h := Extend(Started(), Ack(1, 2, At(2)));
            var g := Extend(h, Ack(3, 3, At(3)));
            && After(h).status == SlowStart && After(h).lastAcked == 1 && After(h).window == 2
            && Accepts(After(h), 3) && After(g).window == 4
  {
    var h := Extend(Started(), Ack(1, 2, At(2)));
    ExtendUnfolds(Started(), Ack(1, 2, At(2)), 1);
    FirstAck(After(Started()));
    ExtendUnfolds(h, Ack(3, 3, At(3)), 1);
    hide After, Step;
    DoubleAck(After(h));
  }
}
