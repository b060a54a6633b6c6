/**
  At the retransmission mark nothing in the record tells whether the sampled number went
  out once or twice: two histories with equal records, one of each kind.
 */
module SenderAmbiguity {
  import opened Common
  import opened Sender
  import opened SenderRuns
  import opened SenderExamples
  import Rtt

  // ---------------------------------------------------------------- a clock that never runs backwards

  /** No reading of the clock lies before an earlier one. */
  ghost predicate NeverFalls(h: History) {
    && (forall i, n: nat :: 0 <= i < |h.events| ==> h.clock(n) <= h.events[i].now <= h.events[i].clock(n))
    && (forall i, j, n: nat :: 0 <= i < j < |h.events| ==> h.events[i].clock(n) <= h.events[j].now)
  }

  /** Every reading so far has been t at most. */
  ghost predicate Until(h: History, t: Time) {
    && NeverFalls(h) && (forall n: nat :: h.clock(n) <= t)
    && forall i, n: nat :: 0 <= i < |h.events| ==> h.events[i].clock(n) <= t
  }

  lemma ClockGoesOn(h: History, t: Time, e: Event)
    requires Until(h, t) && t <= e.now && e.clock == At(e.now)
    ensures Until(Extend(h, e), e.now)
  {
    var g := Extend(h, e);
    assert forall i :: 0 <= i < |g.events| ==> g.events[i] == if i < |h.events| then h.events[i] else e;
  }

  function AckAt(ack: nat, now: Time): Event {
    Ack(ack, now, At(now))
  }

  function TickAt(now: Time): Event {
    Tick(now, At(now))
  }

  /** h has come to t, its record is u, and number 20 has gone out n times. */
  ghost predicate Now(h: History, t: Time, u: Upload, n: nat) {
    After(h) == u && Until(h, t) && Sent(h, 20) == n
  }

  lemma GoesOn(h: History, t: Time, u: Upload, n: nat, e: Event, v: Upload, m: nat)
    requires Now(h, t, u, n) && t <= e.now && e.clock == At(e.now)
    requires v == Step(u, e) && m == n + if Transmits(u, e, 20) then 1 else 0
    ensures Now(Extend(h, e), e.now, v, m)
  {
    hide After, Sent, Until, Step, Transmits, Extend;
    ExtendUnfolds(h, e, 20);
    ClockGoesOn(h, t, e);
  }

  // ---------------------------------------------------------------- the way both have in common

  ghost predicate Is(u: Upload, status: Status, window: nat, threshold: nat, acked: nat, sent: nat, top: nat,
                     mark: nat) {
    && u.status == status && !u.finished && u.window == window && u.ssThreshold == threshold
    && u.lastAcked == acked && u.lastSent == sent && u.maxSent == top && u.maxRetransmit == mark
  }

  lemma Step1(u: Upload)
    requires u == Start(0, At(1))
    ensures var v := Step(u, AckAt(1, 2));
            Is(v, SlowStart, 2, 64, 1, 3, 3, 0) && v.rtt == 2187 && v.caTs == 0 && v.seqTimeout[2] == 4376
    ensures !Transmits(u, AckAt(1, 2), 20)
  {
    FirstAck(u);
    hide Rtt.Update;
  }

  lemma Step2(u: Upload)
    requires Is(u, SlowStart, 2, 64, 1, 3, 3, 0) && u.rtt == 2187 && u.caTs == 0 && u.seqTimeout[2] == 4376
    ensures var v := Step(u, TickAt(10000));
            Is(v, FastRetransmit, 1, 2, 1, 2, 3, 3) && v.rtt == 1250 && v.caTs == 0
    ensures !Transmits(u, TickAt(10000), 20)
  {
  }

  lemma Step3(u: Upload)
    requires Is(u, FastRetransmit, 1, 2, 1, 2, 3, 3) && u.rtt == 1250 && u.caTs == 0
    ensures var v := Step(u, AckAt(2, 10001));
            Is(v, FastRetransmitSS, 2, 2, 2, 4, 4, 3) && v.rtt == 1250 && v.caTs == 0
    ensures !Transmits(u, AckAt(2, 10001), 20)
  {
  }

  lemma Step4(u: Upload)
    requires Is(u, FastRetransmitSS, 2, 2, 2, 4, 4, 3) && u.rtt == 1250 && u.caTs == 0
    ensures var v := Step(u, AckAt(3, 10002));
            Is(v, SlowStart, 3, 2, 3, 6, 6, 3) && v.rtt == 1250 && v.caTs == 0 && v.seqTs[6] == 10002
    ensures !Transmits(u, AckAt(3, 10002), 20)
  {
  }

  lemma Step5(u: Upload)
    requires Invariant(u) && Is(u, SlowStart, 3, 2, 3, 6, 6, 3) && u.rtt == 1250 && u.caTs == 0 && u.seqTs[6] == 10002
    ensures var v := Step(u, AckAt(6, 10003));
            && Is(v, CongestionAvoidance, 6, 2, 6, 12, 12, 3) && v.rtt == 1093 && v.caTs == 0
            && v.seqTs[12] == 10003 && v.seqTimeout[7] == 12189
    ensures !Transmits(u, AckAt(6, 10003), 20)
  {
    var s := Sample(u, 6, 10003);
    assert s.rtt == 1093;
    hide Rtt.Update;
  }

  lemma Step6(u: Upload)
    requires Is(u, CongestionAvoidance, 6, 2, 6, 12, 12, 3) && u.rtt == 1093 && u.caTs == 0 && u.seqTimeout[7] == 12189
    ensures Step(u, TickAt(10004)) == u.(caTs := 11097)
    ensures !Transmits(u, TickAt(10004), 20)
  {
  }

  lemma Step7(u: Upload)
    requires Is(u, CongestionAvoidance, 6, 2, 6, 12, 12, 3) && u.rtt == 1093 && u.caTs == 11097
            && u.seqTimeout[7] == 12189
    ensures Step(u, TickAt(11500)) == u.(window := 7, caTs := 12593)
    ensures !Transmits(u, TickAt(11500), 20)
  {
  }

  lemma Step8(u: Upload)
    requires Is(u, CongestionAvoidance, 7, 2, 6, 12, 12, 3) && u.rtt == 1093 && u.caTs == 12593 && u.seqTs[12] == 10003
    ensures var v := Step(u, AckAt(1, 11501));
            && Is(v, CongestionAvoidance, 7, 2, 6, 13, 13, 3) && v.rtt == 1093 && v.caTs == 12593
            && v.seqTs[12] == 10003 && v.seqTimeout[13] == 13687
    ensures !Transmits(u, AckAt(1, 11501), 20)
  {
  }

  /** Nineteen numbers are out, twelve acknowledged, and the window is about to open further. */
  ghost predicate Parting(u: Upload) {
    && Invariant(u) && Is(u, CongestionAvoidance, 7, 2, 12, 19, 19, 3) && u.rtt == 1143 && u.caTs == 12593
    && u.seqTimeout[13] == 13687
  }

  lemma Step9(u: Upload)
    requires Invariant(u) && Is(u, CongestionAvoidance, 7, 2, 6, 13, 13, 3) && u.rtt == 1093 && u.caTs == 12593
    requires u.seqTs[12] == 10003 && u.seqTimeout[13] == 13687
    ensures var v := Step(u, AckAt(12, 11502));
            Is(v, CongestionAvoidance, 7, 2, 12, 19, 19, 3) && v.rtt == 1143 && v.caTs == 12593
                && v.seqTimeout[13] == 13687
    ensures !Transmits(u, AckAt(12, 11502), 20)
  {
    var s := Sample(u, 12, 11502);
    assert s.rtt == 1143;
    hide Rtt.Update;
  }

  /** The first four events, then one more ack, two ticks and two more acks. */
  function Shared(k: nat): History {
    if k == 0 then Started() else Extend(Shared(k - 1), SharedEvent(k))
  }

  function SharedEvent(k: nat): Event {
    match k
    case 1 => AckAt(1, 2)
    case 2 => TickAt(10000)
    case 3 => AckAt(2, 10001)
    case 4 => AckAt(3, 10002)
    case 5 => AckAt(6, 10003)
    case 6 => TickAt(10004)
    case 7 => TickAt(11500)
    case 8 => AckAt(1, 11501)
    case _ => AckAt(12, 11502)
  }

  lemma SharedStart()
    ensures Now(Shared(0), 1, Start(0, At(1)), 0)
  {
    NothingSentAbove(20);
  }

  lemma SharedGoesOn(k: nat, t: Time, u: Upload)
    requires k > 0 && Now(Shared(k - 1), t, u, 0) && t <= SharedEvent(k).now && !Transmits(u, SharedEvent(k), 20)
    ensures Now(Shared(k), SharedEvent(k).now, Step(u, SharedEvent(k)), 0)
  {
    hide Now, Step, Transmits, Extend;
    GoesOn(Shared(k - 1), t, u, 0, SharedEvent(k), Step(u, SharedEvent(k)), 0);
  }

  lemma RecordIsSound(h: History, t: Time, u: Upload, n: nat)
    requires Now(h, t, u, n)
    ensures Invariant(u)
  {
    InvariantHolds(h);
  }

  lemma FourEvents()
    ensures var u := After(Shared(4));
            && Now(Shared(4), 10002, u, 0)
            && Is(u, SlowStart, 3, 2, 3, 6, 6, 3) && u.rtt == 1250 && u.caTs == 0 && u.seqTs[6] == 10002
  {
    SharedStart();
    var u0 := Start(0, At(1));
    hide Now, Step, Transmits, Is, Shared, Start;
    Step1(u0);
    SharedGoesOn(1, 1, u0);
    var u1 := Step(u0, AckAt(1, 2));
    Step2(u1);
    SharedGoesOn(2, 2, u1);
    var u2 := Step(u1, TickAt(10000));
    Step3(u2);
    SharedGoesOn(3, 10000, u2);
    var u3 := Step(u2, AckAt(2, 10001));
    Step4(u3);
    SharedGoesOn(4, 10001, u3);
    NowIs(Shared(4), 10002, Step(u3, AckAt(3, 10002)), 0);
  }

  lemma NowIs(h: History, t: Time, u: Upload, n: nat)
    requires Now(h, t, u, n)
    ensures After(h) == u
  {
  }

  lemma NineEvents()
    ensures Now(Shared(9), 11502, After(Shared(9)), 0) && Parting(After(Shared(9)))
  {
    hide Now, Step, Transmits, Is, Shared, Invariant, After;
    FourEvents();
    var u4 := After(Shared(4));
    RecordIsSound(Shared(4), 10002, u4, 0);
    Step5(u4);
    SharedGoesOn(5, 10002, u4);
    var u5 := Step(u4, AckAt(6, 10003));
    Step6(u5);
    SharedGoesOn(6, 10003, u5);
    SameButForTimer(u5, 11097);
    var u6 := Step(u5, TickAt(10004));
    Step7(u6);
    SharedGoesOn(7, 10004, u6);
    WiderWindow(u6, 12593);
    var u7 := Step(u6, TickAt(11500));
    Step8(u7);
    SharedGoesOn(8, 11500, u7);
    var u8 := Step(u7, AckAt(1, 11501));
    RecordIsSound(Shared(8), 11501, u8, 0);
    Step9(u8);
    SharedGoesOn(9, 11501, u8);
    RecordIsSound(Shared(9), 11502, Step(u8, AckAt(12, 11502)), 0);
    NowIs(Shared(9), 11502, Step(u8, AckAt(12, 11502)), 0);
  }

  lemma SameButForTimer(u: Upload, t: nat)
    requires Is(u, CongestionAvoidance, 6, 2, 6, 12, 12, 3)
    ensures Is(u.(caTs := t), CongestionAvoidance, 6, 2, 6, 12, 12, 3)
  {
  }

  lemma WiderWindow(u: Upload, t: nat)
    requires Is(u, CongestionAvoidance, 6, 2, 6, 12, 12, 3)
    ensures Is(u.(window := 7, caTs := t), CongestionAvoidance, 7, 2, 6, 12, 12, 3)
  {
  }

  // ---------------------------------------------------------------- the detour of the second history

  /** The window opens by one and number 20 goes out. */
  function Detoured(u: Upload): Upload {
    u.(window := 8, caTs := 13843, lastSent := 20, maxSent := 20, rto := 2286,
       seqTs := u.seqTs[20 := 12701], seqTimeout := u.seqTimeout[20 := 14987])
  }

  lemma Opening(u: Upload)
    requires Parting(u)
    ensures Step(u, TickAt(12700)) == u.(window := 8, caTs := 13843) && !Transmits(u, TickAt(12700), 20)
  {
  }

  lemma Sending20(u: Upload)
    requires Parting(u)
    ensures var v := u.(window := 8, caTs := 13843);
            Step(v, AckAt(1, 12701)) == Detoured(u) && Transmits(v, AckAt(1, 12701), 20)
  {
    var v := u.(window := 8, caTs := 13843);
    assert HandleAck(v, 1, 12701) == v && SendLimit(v) == 20;
    EmitNothing(v, At(12701));
    EmitNext(v, 19, At(12701));
  }

  // ---------------------------------------------------------------- the way back together

  /** The record of the second history while its only difference is that 20 has been out already. */
  function Ahead(v: Upload): Upload {
    v.(maxSent := 20, maxRetransmit := 20, seqTs := v.seqTs[20 := 12701], seqTimeout := v.seqTimeout[20 := 14987])
  }

  function Lost(u: Upload): Upload {
    u.(ssThreshold := 4, window := 1, status := FastRetransmit, lastSent := 13, maxRetransmit := 19,
       rtt := 1250, rto := 2500, caTs := 21143, timeoutCnt := u.timeoutCnt + 1,
       seqTs := u.seqTs[13 := 20000], seqTimeout := u.seqTimeout[13 := 22500])
  }

  lemma LossStep(u: Upload)
    requires Parting(u)
    ensures Step(u, TickAt(20000)) == Lost(u) && !Transmits(u, TickAt(20000), 20)
  {
    var b := BackOff(u, 20000);
    assert b.lastSent == 12 && SendLimit(b) == 13;
    EmitNothing(b, At(20000));
    EmitNext(b, 12, At(20000));
  }

  lemma LossStepAhead(u: Upload)
    requires Parting(u)
    ensures Step(Detoured(u), TickAt(20000)) == Ahead(Lost(u)) && !Transmits(Detoured(u), TickAt(20000), 20)
  {
    var b := BackOff(Detoured(u), 20000);
    assert b.lastSent == 12 && SendLimit(b) == 13;
    EmitNothing(b, At(20000));
    EmitNext(b, 12, At(20000));
    assert u.seqTs[20 := 12701][13 := 20000] == u.seqTs[13 := 20000][20 := 12701];
    assert u.seqTimeout[20 := 14987][13 := 22500] == u.seqTimeout[13 := 22500][20 := 14987];
  }

  /** A repair that the ack moves on without ending it. */
  ghost predicate Repairs(v: Upload, ack: nat) {
    && !v.finished && v.rtt == 1250 && v.rto == 2500 && v.lastAcked < ack < v.maxRetransmit <= v.maxSent
    && v.lastSent <= v.lastAcked + v.window && v.lastSent < ack + v.window + 1 <= LAST_SEQ
    && ((v.status == FastRetransmit && v.window == 1 && v.lastSent <= ack)
        || (v.status == FastRetransmitSS && v.window < v.ssThreshold))
  }

  function Repaired(v: Upload, ack: nat, now: Time): Upload
    requires v.lastAcked < ack && ack + v.window + 1 <= LAST_SEQ
  {
    var first, last := Max(v.lastSent, ack), ack + v.window + 1;
    v.(status := FastRetransmitSS, window := v.window + 1, timeoutCnt := 0, lastAcked := ack,
       lastSent := last, maxSent := Max(v.maxSent, last),
       ackCnt := if v.status == FastRetransmit then v.ackCnt else v.ackCnt[ack := Min(0, v.lastAcked + 1 - ack) + 1],
       seqTs := Stamped(v.seqTs, first, last, At(now), 0),
       seqTimeout := Stamped(v.seqTimeout, first, last, At(now), 2500))
  }

  lemma RepairStep(v: Upload, ack: nat, now: Time)
    requires Repairs(v, ack)
    ensures Step(v, AckAt(ack, now)) == Repaired(v, ack, now)
    ensures Transmits(v, AckAt(ack, now), 20) <==> Max(v.lastSent, ack) < 20 <= ack + v.window + 1
  {
    var h := HandleAck(v, ack, now);
    assert h == v.(status := FastRetransmitSS, window := v.window + 1, timeoutCnt := 0, lastAcked := ack,
                   lastSent := Max(v.lastSent, ack),
                   ackCnt := if v.status == FastRetransmit then v.ackCnt
                             else v.ackCnt[ack := Min(0, v.lastAcked + 1 - ack) + 1]);
    assert SendLimit(h) == ack + v.window + 1;
  }

  /** As long as 20 is not reached the second history stays ahead by the same. */
  lemma StaysAhead(v: Upload, ack: nat, now: Time)
    requires Repairs(v, ack) && ack + v.window + 1 < 20 && v.maxSent == v.maxRetransmit == 19
    ensures Repairs(Ahead(v), ack) && Repaired(Ahead(v), ack, now) == Ahead(Repaired(v, ack, now))
    ensures Repaired(v, ack, now).maxSent == 19
  {
    var a, b := Repaired(Ahead(v), ack, now), Ahead(Repaired(v, ack, now));
    assert a.seqTs == b.seqTs && a.seqTimeout == b.seqTimeout;
  }

  /** Once 20 goes out in both, the stamps agree and only the mark differs. */
  lemma CatchesUp(v: Upload, ack: nat, now: Time)
    requires Repairs(v, ack) && ack + v.window + 1 == 20 && v.maxSent == v.maxRetransmit == 19
    ensures Repairs(Ahead(v), ack) && Repaired(Ahead(v), ack, now) == Repaired(v, ack, now).(maxRetransmit := 20)
  {
    var a, b := Repaired(Ahead(v), ack, now), Repaired(v, ack, now);
    assert a.seqTs == b.seqTs && a.seqTimeout == b.seqTimeout;
  }

  /** A loss puts the mark anew, whatever it was. */
  lemma LossForgetsTheMark(v: Upload, now: Time)
    requires TimesOut(v, now) && v.maxSent == 20
    ensures Step(v.(maxRetransmit := 20), TickAt(now)) == Step(v, TickAt(now))
    ensures Transmits(v.(maxRetransmit := 20), TickAt(now), 20) <==> Transmits(v, TickAt(now), 20)
  {
    assert BackOff(v.(maxRetransmit := 20), now) == BackOff(v, now);
    hide BackOff, Send;
  }

  /** The second loss, after which the records are equal. */
  lemma SecondLoss(v: Upload)
    requires Is(v, FastRetransmitSS, 4, 4, 16, 20, 20, 19) && v.rtt == 1250 && 0 < v.seqTimeout[17] <= 30000
    ensures TimesOut(v, 30000) && !Transmits(v, TickAt(30000), 20)
    ensures var w := Step(v, TickAt(30000));
            Is(w, FastRetransmit, 1, 2, 16, 17, 20, 20) && w.rtt == 1250 && w.rto == 2500
  {
  }

  /** Ack 17 repairs once more, and ack 20 ends the repair at the mark. */
  lemma TailRepairs(w: Upload)
    requires Is(w, FastRetransmit, 1, 2, 16, 17, 20, 20) && w.rtt == 1250 && w.rto == 2500
    ensures var x := Step(w, AckAt(17, 30001));
            && !Transmits(w, AckAt(17, 30001), 20) && Is(x, FastRetransmitSS, 2, 2, 17, 19, 20, 20)
  {
    RepairStep(w, 17, 30001);
  }

  lemma TailEnds(x: Upload)
    requires Is(x, FastRetransmitSS, 2, 2, 17, 19, 20, 20)
    ensures var y := Step(x, AckAt(20, 30002));
            && !Transmits(x, AckAt(20, 30002), 20)
            && y.status == SlowStart && !y.finished && y.lastAcked == y.maxRetransmit == 20 <= y.maxSent
  {
  }

  // ---------------------------------------------------------------- the two histories

  function Detour(h: History): History {
    Extend(Extend(h, TickAt(12700)), AckAt(1, 12701))
  }

  function Rejoin(h: History): History {
    Extend(Extend(Extend(Extend(h, TickAt(20000)), AckAt(13, 20001)), AckAt(14, 20002)), AckAt(16, 20003))
  }

  function Finish(h: History): History {
    Extend(Extend(Extend(h, TickAt(30000)), AckAt(17, 30001)), AckAt(20, 30002))
  }

  /** Where the three acks of the repair lead. */
  ghost function Rejoined(u: Upload): Upload
    requires Parting(u)
  {
    Repaired(Repaired(Repaired(Lost(u), 13, 20001), 14, 20002), 16, 20003)
  }

  lemma RejoinedFacts(u: Upload)
    requires Parting(u)
    ensures var v1 := Lost(u);
            var v2 := Repaired(v1, 13, 20001);
            var v3 := Repaired(v2, 14, 20002);
            && Repairs(v1, 13) && v1.window == 1 && v1.maxSent == v1.maxRetransmit == 19
            && Repairs(v2, 14) && v2.window == 2 && v2.maxSent == v2.maxRetransmit == 19
            && Repairs(v3, 16) && v3.window == 3 && v3.maxSent == v3.maxRetransmit == 19 && v3.lastSent < 20
    ensures Is(Rejoined(u), FastRetransmitSS, 4, 4, 16, 20, 20, 19) && Rejoined(u).rtt == 1250
    ensures 0 < Rejoined(u).seqTimeout[17] <= 30000
  {
  }

  lemma FirstHistory(h: History, u: Upload)
    requires Parting(u) && Now(h, 11502, u, 0)
    ensures Now(Rejoin(h), 20003, Rejoined(u), 1)
  {
    RejoinedFacts(u);
    LossStep(u);
    var v1 := Lost(u);
    var v2 := Repaired(v1, 13, 20001);
    var v3 := Repaired(v2, 14, 20002);
    hide Now, Step, Transmits, Extend, Repaired, Repairs, Lost, Is, Parting;
    GoesOn(h, 11502, u, 0, TickAt(20000), v1, 0);
    RepairStep(v1, 13, 20001);
    var h1 := Extend(h, TickAt(20000));
    GoesOn(h1, 20000, v1, 0, AckAt(13, 20001), v2, 0);
    RepairStep(v2, 14, 20002);
    var h2 := Extend(h1, AckAt(13, 20001));
    GoesOn(h2, 20001, v2, 0, AckAt(14, 20002), v3, 0);
    RepairStep(v3, 16, 20003);
    var h3 := Extend(h2, AckAt(14, 20002));
    GoesOn(h3, 20002, v3, 0, AckAt(16, 20003), Rejoined(u), 1);
  }

  lemma SecondHistory(h: History, u: Upload)
    requires Parting(u) && Now(h, 11502, u, 0)
    ensures Now(Rejoin(Detour(h)), 20003, Rejoined(u).(maxRetransmit := 20), 2)
  {
    RejoinedFacts(u);
    DetourTaken(h, u);
    LossStepAhead(u);
    var v1 := Lost(u);
    var v2 := Repaired(v1, 13, 20001);
    var v3 := Repaired(v2, 14, 20002);
    StaysAhead(v1, 13, 20001);
    StaysAhead(v2, 14, 20002);
    CatchesUp(v3, 16, 20003);
    AheadFacts(v1);
    AheadFacts(v2);
    AheadFacts(v3);
    hide Now, Step, Transmits, Extend, Repaired, Repairs, Lost, Is, Parting, Ahead, Detoured;
    var d := Detour(h);
    GoesOn(d, 12701, Detoured(u), 1, TickAt(20000), Ahead(v1), 1);
    RepairStep(Ahead(v1), 13, 20001);
    var h1 := Extend(d, TickAt(20000));
    GoesOn(h1, 20000, Ahead(v1), 1, AckAt(13, 20001), Ahead(v2), 1);
    RepairStep(Ahead(v2), 14, 20002);
    var h2 := Extend(h1, AckAt(13, 20001));
    GoesOn(h2, 20001, Ahead(v2), 1, AckAt(14, 20002), Ahead(v3), 1);
    RepairStep(Ahead(v3), 16, 20003);
    var h3 := Extend(h2, AckAt(14, 20002));
    GoesOn(h3, 20002, Ahead(v3), 1, AckAt(16, 20003), Rejoined(u).(maxRetransmit := 20), 2);
  }

  lemma AheadFacts(v: Upload)
    ensures var a := Ahead(v); a.window == v.window && a.lastSent == v.lastSent && a.lastAcked == v.lastAcked
  {
  }

  lemma DetourTaken(h: History, u: Upload)
    requires Parting(u) && Now(h, 11502, u, 0)
    ensures Now(Detour(h), 12701, Detoured(u), 1)
  {
    hide Now, Step, Transmits, Extend, Parting, Detoured;
    Opening(u);
    GoesOn(h, 11502, u, 0, TickAt(12700), u.(window := 8, caTs := 13843), 0);
    Sending20(u);
    GoesOn(Extend(h, TickAt(12700)), 12700, u.(window := 8, caTs := 13843), 0, AckAt(1, 12701), Detoured(u), 1);
  }

  /** From equal records, but for the mark, to equal records at the mark in slow start. */
  lemma Finished(h: History, v: Upload, w: Upload, n: nat)
    requires Is(v, FastRetransmitSS, 4, 4, 16, 20, 20, 19) && v.rtt == 1250 && 0 < v.seqTimeout[17] <= 30000
    requires w == v || w == v.(maxRetransmit := 20)
    requires Now(h, 20003, w, n)
    ensures Now(Finish(h), 30002, Last(v), n)
  {
    SecondLoss(v);
    LossForgetsTheMark(v, 30000);
    hide Now, Step, Transmits, Extend, Is, TimesOut;
    var x := Step(v, TickAt(30000));
    GoesOn(h, 20003, w, n, TickAt(30000), x, n);
    TailRepairs(x);
    var h1 := Extend(h, TickAt(30000));
    var y := Step(x, AckAt(17, 30001));
    GoesOn(h1, 30000, x, n, AckAt(17, 30001), y, n);
    TailEnds(y);
    var h2 := Extend(h1, AckAt(17, 30001));
    GoesOn(h2, 30001, y, n, AckAt(20, 30002), Step(y, AckAt(20, 30002)), n);
  }

  ghost function Last(v: Upload): Upload {
    Step(Step(Step(v, TickAt(30000)), AckAt(17, 30001)), AckAt(20, 30002))
  }

  lemma LastFacts(v: Upload)
    requires Is(v, FastRetransmitSS, 4, 4, 16, 20, 20, 19) && v.rtt == 1250 && 0 < v.seqTimeout[17] <= 30000
    ensures var y := Last(v); y.status == SlowStart && !y.finished && y.lastAcked == y.maxRetransmit == 20 <= y.maxSent
  {
    hide Step, Is, Transmits;
    SecondLoss(v);
    TailRepairs(Step(v, TickAt(30000)));
    TailEnds(Step(Step(v, TickAt(30000)), AckAt(17, 30001)));
  }

  lemma NowFacts(h: History, t: Time, u: Upload, n: nat)
    requires Now(h, t, u, n)
    ensures After(h) == u && NeverFalls(h) && Sent(h, 20) == n
  {
  }

  /**
    No test on the record tells at the mark: these two histories, under a clock that never
    runs backwards, leave the same record, in which a repeated ack of 20 is sampled, and 20
    has been sent once in the one and twice in the other.
   */
  lemma NoTestOnTheRecordDecides()
    ensures var a, b := Finish(Rejoin(Shared(9))), Finish(Rejoin(Detour(Shared(9))));
            && NeverFalls(a) && NeverFalls(b)
            && After(a) == After(b) && After(a).lastAcked == After(a).maxRetransmit == 20
            && YieldsSample(a, 20) && YieldsSample(b, 20)
            && Sent(a, 20) == 1 && Sent(b, 20) == 2
  {
    hide Now, Step, Transmits, Extend, Is, Parting, Rejoined, Shared, Finish, Rejoin, Detour, After, Sent,
        NeverFalls, Last;
    NineEvents();
    var h, u := Shared(9), After(Shared(9));
    var a, b := Finish(Rejoin(h)), Finish(Rejoin(Detour(h)));
    RejoinedFacts(u);
    FirstHistory(h, u);
    SecondHistory(h, u);
    var v := Rejoined(u);
    Finished(Rejoin(h), v, v, 1);
    Finished(Rejoin(Detour(h)), v, v.(maxRetransmit := 20), 2);
    LastFacts(v);
    NowFacts(a, 30002, Last(v), 1);
    NowFacts(b, 30002, Last(v), 2);
    SampledAtTheMark(a, 20);
    SampledAtTheMark(b, 20);
  }
}
