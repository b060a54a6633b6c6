/**
  The sending half of one chunk transfer, src/upload.c, as functions on the value of
  an upload_t.  Uploader.dfy holds the imperative form and proves it equal to these.
 */
module Sender {
  import opened Common
  import Rtt

  const SS_THRESH: nat := 64      // src/include/upload.h:10
  const MAX_DUP_ACK: nat := 3     // src/include/upload.h:11

  datatype Status =
    | SlowStart | CongestionAvoidance
    | FastRetransmit | FastRetransmitSS | FastRetransmitCA | FastRecovery

  datatype UploadFields = UploadFields(
    hasIndex: nat,
    ackCnt: seq<int>, seqTs: seq<nat>, seqTimeout: seq<nat>,
    ssThreshold: nat, lastAcked: nat, lastSent: nat, maxSent: nat, maxRetransmit: nat,
    rtt: nat, dev: nat, rto: nat, window: nat, caTs: nat, timeoutCnt: nat,
    status: Status, finished: bool)

  /** What the array bounds of the original need; everything else is in Invariant below. */
  ghost predicate InBounds(u: UploadFields) {
    && |u.ackCnt| == |u.seqTs| == |u.seqTimeout| == LAST_SEQ + 1
    && u.lastSent <= LAST_SEQ && u.maxSent <= LAST_SEQ && u.lastAcked <= LAST_SEQ
    && (u.finished || u.lastAcked < LAST_SEQ)
  }

  function Zeros(): seq<nat> {
    seq(LAST_SEQ + 1, _ => 0)
  }

  function Cleared(hasIndex: nat): UploadFields {
    UploadFields(hasIndex, Zeros(), Zeros(), Zeros(), SS_THRESH, 0, 0, 0, 0,
                 DEFAULT_TIMEOUT / 2, 0, DEFAULT_TIMEOUT, 1, 0, 0, SlowStart, false)
  }

  type Upload = u: UploadFields | InBounds(u) ghost witness Cleared(0)

  /** ul_init */
  function Init(hasIndex: nat): Upload {
    Cleared(hasIndex)
  }

  /** The highest number ul_send may reach. */
  function SendLimit(u: Upload): nat {
    Max(u.lastSent, Min(u.lastAcked + u.window, LAST_SEQ))
  }

  function Rto(u: Upload): nat {
    if u.rtt == 0 then DEFAULT_TIMEOUT else 2 * u.rtt
  }

  /** s with the positions first+1 to last overwritten by the clock reading for the position plus an offset. */
  function Stamped(s: seq<nat>, first: nat, last: nat, clock: nat -> Time, offset: nat): (r: seq<nat>)
    requires |s| == LAST_SEQ + 1
    ensures |r| == LAST_SEQ + 1
    ensures forall i :: 0 <= i <= LAST_SEQ ==> r[i] == if first < i <= last then clock(i) + offset else s[i]
  {
    var at: nat -> nat := (i: nat) => if i > LAST_SEQ then 0 else if first < i <= last then clock(i) + offset else s[i];
    seq(LAST_SEQ + 1, at)
  }

  /** The loop of ul_send once it has reached number last; clock(s) is the reading taken for number s. */
  function Emit(u: Upload, last: nat, clock: nat -> Time): Upload
    requires u.lastSent <= last <= LAST_SEQ
  {
    u.(lastSent := last,
       rto := if u.lastSent < last then Rto(u) else u.rto,
       seqTs := Stamped(u.seqTs, u.lastSent, last, clock, 0),
       seqTimeout := Stamped(u.seqTimeout, u.lastSent, last, clock, Rto(u)))
  }

  /** One turn of that loop. */
  function EmitOne(v: Upload, clock: nat -> Time): Upload
    requires v.lastSent < LAST_SEQ
  {
    var next := v.lastSent + 1;
    v.(lastSent := next, rto := Rto(v), seqTs := v.seqTs[next := clock(next)],
       seqTimeout := v.seqTimeout[next := clock(next) + Rto(v)])
  }

  /** ul_send: numbers lastSent+1 to SendLimit go out. */
  function Send(u: Upload, clock: nat -> Time): Upload {
    var v := Emit(u, SendLimit(u), clock);
    v.(maxSent := Max(u.maxSent, v.lastSent))
  }

  lemma EmitNothing(u: Upload, clock: nat -> Time)
    ensures Emit(u, u.lastSent, clock) == u
  {
    var v := Emit(u, u.lastSent, clock);
    assert v.seqTs == u.seqTs && v.seqTimeout == u.seqTimeout;
  }

  lemma EmitFacts(u: Upload, clock: nat -> Time)
    ensures forall last: nat :: u.lastSent <= last <= LAST_SEQ ==>
              var v := Emit(u, last, clock);
              v.lastSent == last && v.lastAcked == u.lastAcked && v.window == u.window && v.maxSent == u.maxSent
  {
  }

  lemma EmitNext(u: Upload, last: nat, clock: nat -> Time)
    requires u.lastSent <= last < LAST_SEQ
    ensures Emit(u, last + 1, clock) == EmitOne(Emit(u, last, clock), clock)
  {
    var v, w := Emit(u, last + 1, clock), EmitOne(Emit(u, last, clock), clock);
    assert v.seqTs == w.seqTs && v.seqTimeout == w.seqTimeout;
  }

  /** ul_loss */
  function Loss(u: Upload): Upload {
    u.(ssThreshold := Max(u.window / 2, 2), window := 1, lastSent := u.lastAcked,
       status := FastRetransmit, maxRetransmit := u.maxSent)
  }

  predicate Accepts(u: Upload, ack: nat) {
    !u.finished && 0 < ack && u.lastAcked <= ack <= u.maxSent
  }

  predicate Sampling(u: Upload) {
    u.status == SlowStart || u.status == CongestionAvoidance
  }

  predicate Repairing(u: Upload) {
    u.status == FastRetransmitSS || u.status == FastRetransmitCA
  }

  function Sample(u: Upload, ack: nat, now: Time): Upload
    requires Accepts(u, ack)
  {
    if Sampling(u) then
      var e := Rtt.Update(Rtt.Estimate(u.rtt, u.dev), u.seqTs[ack], now);
      u.(rtt := e.rtt, dev := e.dev)
    else u
  }

  /** The duplicate counter of ack once this arrival has been counted. */
  function Counted(u: Upload, ack: nat): int
    requires Accepts(u, ack)
  {
    if u.status == FastRetransmit then u.ackCnt[ack]
    else if Repairing(u) then Min(0, u.lastAcked + 1 - ack) + 1
    else u.ackCnt[ack] + 1
  }

  predicate AckSignalsLoss(u: Upload, ack: nat) {
    Accepts(u, ack) && u.status != FastRetransmit && Counted(u, ack) > MAX_DUP_ACK
  }

  /** The status switch of ul_handle_ack for an advancing ack. */
  function Grow(u: Upload, ack: nat): Upload
    requires u.lastAcked < ack
  {
    match u.status
    case SlowStart =>
      var w := u.window + (ack - u.lastAcked);
      u.(window := w, status := if w > u.ssThreshold then CongestionAvoidance else SlowStart)
    case FastRetransmit =>
      if ack >= u.lastSent then u.(window := u.window + 1, status := FastRetransmitSS) else u
    case FastRetransmitSS =>
      var w := u.window + 1;
      u.(window := w, status := if ack >= u.maxRetransmit then SlowStart
                                else if w > u.ssThreshold then FastRetransmitCA else FastRetransmitSS)
    case FastRetransmitCA =>
      if ack >= u.maxRetransmit then u.(status := CongestionAvoidance) else u
    case CongestionAvoidance => u
    case FastRecovery => u
  }

  /** The branch of ul_handle_ack that moves the window. */
  function Advance(w: Upload, ack: nat): Upload
    requires w.lastAcked < ack <= LAST_SEQ
  {
    Grow(w, ack).(lastSent := Max(w.lastSent, ack), timeoutCnt := 0, lastAcked := ack, finished := ack >= LAST_SEQ)
  }

  /** ul_handle_ack */
  function HandleAck(u: Upload, ack: nat, now: Time): Upload {
    if u.finished then u
    else if ack == 0 then u.(timeoutCnt := 0)
    else if !Accepts(u, ack) then u
    else
      var v := Sample(u, ack, now);
      if AckSignalsLoss(u, ack) then Loss(v.(ackCnt := v.ackCnt[ack := 0]))
      else
        var w := v.(ackCnt := v.ackCnt[ack := Counted(u, ack)]);
        if ack > u.lastAcked then
          Advance(w, ack)
        else w
  }

  predicate Avoiding(u: Upload) {
    u.status == CongestionAvoidance || u.status == FastRetransmitCA
  }

  /** The additive increase at the head of ul_check_timeout. */
  function Additive(u: Upload, now: Time): Upload {
    var v := if u.caTs == 0 && Avoiding(u) then u.(caTs := now + u.rtt) else u;
    if Avoiding(u) && now > v.caTs then v.(window := v.window + 1, caTs := now + v.rtt) else v
  }

  predicate TimesOut(u: Upload, now: Time) {
    !u.finished && u.seqTimeout[u.lastAcked + 1] != 0 && now >= u.seqTimeout[u.lastAcked + 1]
  }

  /** One more consecutive timeout: the estimate doubles up to its cap and the window collapses. */
  function Expired(v: Upload): Upload {
    Loss(v.(rtt := Min(v.rtt * 2, DEFAULT_TIMEOUT / 4), timeoutCnt := v.timeoutCnt + 1))
  }

  /** The state in which a timer tick enters ul_send. */
  function BackOff(u: Upload, now: Time): Upload {
    Expired(Additive(u, now))
  }

  /** ul_check_timeout; its result is -1 when finished and timeoutCnt of the new state otherwise. */
  function CheckTimeout(u: Upload, now: Time, clock: nat -> Time): Upload {
    if u.finished then u
    else if TimesOut(u, now) then Send(BackOff(u, now), clock)
    else Additive(u, now)
  }

  // ---------------------------------------------------------------- events

  datatype Event =
    | Ack(ack: nat, now: Time, clock: nat -> Time)   // update_upload
    | Tick(now: Time, clock: nat -> Time)            // ul_check_timeout

  /** The state in which the event enters ul_send, if it does. */
  function Entering(u: Upload, e: Event): Upload {
    match e
    case Ack(ack, now, _) => HandleAck(u, ack, now)
    case Tick(now, _) => if TimesOut(u, now) then BackOff(u, now) else Additive(u, now)
  }

  function Step(u: Upload, e: Event): Upload {
    match e
    case Ack(ack, now, clock) => Send(HandleAck(u, ack, now), clock)
    case Tick(now, clock) => CheckTimeout(u, now, clock)
  }

  /** The event transmits DATA with number s. */
  predicate Transmits(u: Upload, e: Event, s: nat) {
    (e.Ack? || TimesOut(u, e.now)) && Entering(u, e).lastSent < s <= SendLimit(Entering(u, e))
  }

  /** start_upload */
  function Start(hasIndex: nat, clock: nat -> Time): Upload {
    Send(Init(hasIndex), clock)
  }

  // ---------------------------------------------------------------- the invariant

  /** How status, window and threshold belong together. */
  ghost predicate Congestion(u: Upload) {
    && 1 <= u.window && 2 <= u.ssThreshold
    && match u.status
       case SlowStart => u.window <= u.ssThreshold + 1
       case CongestionAvoidance => u.window > u.ssThreshold
       case FastRetransmit => u.window == 1
       case FastRetransmitSS => 2 <= u.window <= u.ssThreshold
       case FastRetransmitCA => u.window > u.ssThreshold
       case FastRecovery => false
  }

  /** Sequence-number bookkeeping that holds on entry to ul_send as well. */
  ghost predicate Bookkeeping(u: Upload) {
    && u.lastAcked <= u.lastSent <= u.maxSent
    && u.lastSent - u.lastAcked <= u.window
    && u.maxRetransmit <= u.maxSent
    && (u.lastSent < u.maxSent ==> u.maxSent == u.maxRetransmit)
    && (Sampling(u) ==> u.maxRetransmit <= u.lastAcked)
    && (u.finished <==> u.lastAcked == LAST_SEQ)
    && (forall s :: 1 <= s <= u.maxSent ==> u.seqTs[s] > 0 && u.seqTimeout[s] > 0)
    && u.seqTs[0] == 0
    && (forall s :: u.maxSent < s <= LAST_SEQ ==> u.seqTs[s] == 0 && u.seqTimeout[s] == 0)
    && (forall a :: 0 <= a <= LAST_SEQ ==> u.ackCnt[a] <= MAX_DUP_ACK)
    && (forall a :: u.lastAcked < a <= LAST_SEQ ==> u.ackCnt[a] == 0)
    && (u.timeoutCnt > 0 ==> u.status == FastRetransmit)
    && (u.lastAcked == 0 ==> u.window == 1 && u.maxSent <= 1)
  }

  ghost predicate Invariant(u: Upload) {
    && Congestion(u) && Bookkeeping(u)
    && (!u.finished ==> u.lastAcked < u.lastSent)
  }

  /** What the invariant says about the timer at the head of the window. */
  lemma HeadTimerIsArmed(u: Upload)
    requires Invariant(u)
    ensures !u.finished <==> u.lastAcked < LAST_SEQ
    ensures !u.finished ==> u.seqTimeout[u.lastAcked + 1] > 0 && u.seqTs[u.lastAcked + 1] > 0
    ensures forall s :: 1 <= s <= LAST_SEQ ==> (u.seqTs[s] != 0 <==> s <= u.maxSent)
  {
  }

  lemma SendKeeps(u: Upload, clock: nat -> Time)
    requires Congestion(u) && Bookkeeping(u)
    ensures Invariant(Send(u, clock))
  {
  }

  lemma LossKeeps(u: Upload)
    requires Congestion(u) && Bookkeeping(u) && !u.finished
    ensures Congestion(Loss(u)) && Bookkeeping(Loss(u))
  {
  }

  /** An ack above the last one is new: its counter is still clear, so it cannot signal a loss. */
  lemma NewAckAdvances(u: Upload, ack: nat, now: Time)
    requires Invariant(u) && Accepts(u, ack) && u.lastAcked < ack
    ensures !AckSignalsLoss(u, ack) && HandleAck(u, ack, now).lastAcked == ack
  {
  }

  lemma SampleKeeps(u: Upload, ack: nat, now: Time)
    requires Accepts(u, ack)
    ensures var v := Sample(u, ack, now); v == u.(rtt := v.rtt, dev := v.dev)
    ensures Congestion(u) && Bookkeeping(u) ==> Congestion(Sample(u, ack, now)) && Bookkeeping(Sample(u, ack, now))
  {
  }

  lemma GrowKeepsCongestion(w: Upload, ack: nat)
    requires Congestion(w) && Bookkeeping(w) && w.lastAcked < ack <= w.maxSent
    ensures var g := Grow(w, ack);
            && Congestion(g) && g.window >= w.window
            && g == w.(window := g.window, status := g.status)
            && g.status != FastRetransmit
            && (Sampling(g) && !Sampling(w) ==> w.maxRetransmit <= ack)
  {
  }

  lemma AdvanceKeeps(w: Upload, ack: nat)
    requires w.lastAcked < ack <= w.maxSent && w.ackCnt[ack] <= MAX_DUP_ACK
    requires Congestion(w) && Bookkeeping(w.(ackCnt := w.ackCnt[ack := 0]))
    ensures var v := Advance(w, ack);
            && Congestion(v) && Bookkeeping(v)
            && v.lastAcked == ack && v.maxSent == w.maxSent && v.maxRetransmit == w.maxRetransmit
  {
    var z := w.(ackCnt := w.ackCnt[ack := 0]);
    GrowKeepsCongestion(z, ack);
    var v, g := Advance(w, ack), Grow(w, ack);
    assert Grow(z, ack) == g.(ackCnt := z.ackCnt);
    assert forall a :: 0 <= a <= LAST_SEQ && a != ack ==> v.ackCnt[a] == z.ackCnt[a];
  }

  /** Counting an arrival that does not signal a loss. */
  lemma CountingKeeps(u: Upload, v: Upload, ack: nat)
    requires Invariant(u) && Accepts(u, ack) && !AckSignalsLoss(u, ack)
    requires v == u.(rtt := v.rtt, dev := v.dev)
    ensures var w := v.(ackCnt := v.ackCnt[ack := Counted(u, ack)]);
            && Congestion(w) && w.ackCnt[ack] <= MAX_DUP_ACK
            && Bookkeeping(w.(ackCnt := w.ackCnt[ack := u.ackCnt[ack]]))
            && (ack == u.lastAcked ==> Bookkeeping(w))
  {
    var w := v.(ackCnt := v.ackCnt[ack := Counted(u, ack)]);
    assert w.ackCnt[ack := u.ackCnt[ack]] == u.ackCnt;
  }

  /** The branch of ul_handle_ack for the fourth arrival. */
  lemma DuplicateLossKeeps(u: Upload, v: Upload, ack: nat)
    requires Invariant(u) && Accepts(u, ack) && v == u.(rtt := v.rtt, dev := v.dev)
    ensures var l := Loss(v.(ackCnt := v.ackCnt[ack := 0]));
            Congestion(l) && Bookkeeping(l)
  {
    LossKeeps(v.(ackCnt := v.ackCnt[ack := 0]));
  }

  lemma ResetKeeps(u: Upload)
    requires Invariant(u)
    ensures Congestion(u) && Bookkeeping(u) && Bookkeeping(u.(timeoutCnt := 0)) && Congestion(u.(timeoutCnt := 0))
  {
  }

  lemma HandleAckKeeps(u: Upload, ack: nat, now: Time)
    requires Invariant(u)
    ensures var v := HandleAck(u, ack, now);
            && Congestion(v) && Bookkeeping(v)
            && u.lastAcked <= v.lastAcked && u.maxSent == v.maxSent && u.maxRetransmit <= v.maxRetransmit
  {
    hide Sample, Counted, Advance, Congestion, Bookkeeping;
    ResetKeeps(u);
    if Accepts(u, ack) {
      SampleKeeps(u, ack, now);
      var v := Sample(u, ack, now);
      if AckSignalsLoss(u, ack) {
        DuplicateLossKeeps(u, v, ack);
      } else {
        CountingKeeps(u, v, ack);
        if ack > u.lastAcked {
          AdvanceKeeps(v.(ackCnt := v.ackCnt[ack := Counted(u, ack)]), ack);
        }
      }
    }
  }

  lemma AdditiveKeeps(u: Upload, now: Time)
    requires Invariant(u)
    ensures Invariant(Additive(u, now))
    ensures var v := Additive(u, now); v == u.(window := v.window, caTs := v.caTs)
  {
  }

  lemma ExpiredKeeps(u: Upload)
    requires Congestion(u) && Bookkeeping(u) && !u.finished
    ensures Congestion(Expired(u)) && Bookkeeping(Expired(u))
  {
  }

  lemma BackOffKeeps(u: Upload, now: Time)
    requires Invariant(u) && !u.finished
    ensures var v := BackOff(u, now);
            && Congestion(v) && Bookkeeping(v)
            && v.lastAcked == u.lastAcked && v.maxSent == u.maxSent && v.timeoutCnt == u.timeoutCnt + 1
  {
    hide Congestion, Bookkeeping, Additive;
    AdditiveKeeps(u, now);
    ExpiredKeeps(Additive(u, now));
  }

  /** Every event keeps the invariant, and neither acknowledged nor highest sent number falls back. */
  lemma StepKeeps(u: Upload, e: Event)
    requires Invariant(u)
    ensures Invariant(Step(u, e))
    ensures u.lastAcked <= Step(u, e).lastAcked && u.maxSent <= Step(u, e).maxSent
  {
    match e
    case Ack(ack, now, clock) =>
      HandleAckKeeps(u, ack, now);
      SendKeeps(HandleAck(u, ack, now), clock);
    case Tick(now, clock) =>
      if TimesOut(u, now) {
        BackOffKeeps(u, now);
        SendKeeps(BackOff(u, now), clock);
      } else {
        AdditiveKeeps(u, now);
      }
  }

  /** How far an event moves the window: no further than the ack it carries, or than the numbers it sends. */
  lemma StepMoves(u: Upload, e: Event)
    requires Invariant(u)
    ensures var v := Step(u, e);
            && (v.lastAcked == u.lastAcked || (e.Ack? && v.lastAcked == e.ack))
            && (e.Ack? ==> v.timeoutCnt <= u.timeoutCnt)
            && SendLimit(Entering(u, e)) <= LAST_SEQ
            && (e.Ack? || TimesOut(u, e.now) ==> SendLimit(Entering(u, e)) <= v.maxSent)
  {
    match e
    case Ack(ack, now, clock) =>
      if Accepts(u, ack) {
        SampleKeeps(u, ack, now);
      }
    case Tick(now, clock) =>
  }

  lemma StartHolds(hasIndex: nat, clock: nat -> Time)
    ensures Invariant(Start(hasIndex, clock))
    ensures Start(hasIndex, clock).maxSent == 1 && Start(hasIndex, clock).lastAcked == 0
  {
    SendKeeps(Init(hasIndex), clock);
  }
}
