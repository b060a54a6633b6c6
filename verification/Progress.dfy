/**
  Progress of the composed protocol: exactly when the last acknowledged number can still
  rise, how soon, and exactly when the sender can still finish.
 */
module Progress {
  import opened Common
  import opened Session
  import S = Sender
  import R = Receiver

  /** Some k steps from s acknowledge something new. */
  ghost predicate CanRaise(chunk: seq<Byte>, s: Session, k: nat)
    requires |chunk| == CHUNK_SIZE
  {
    exists es :: |es| <= k && CanTake(chunk, s, es) && After(chunk, s, es).ul.lastAcked > s.ul.lastAcked
  }

  lemma OneMoreStep(chunk: seq<Byte>, s: Session, e: Step, k: nat)
    requires |chunk| == CHUNK_SIZE && Enabled(s, e)
    requires Apply(chunk, s, e).ul.lastAcked == s.ul.lastAcked && CanRaise(chunk, Apply(chunk, s, e), k)
    ensures CanRaise(chunk, s, k + 1)
  {
    var t := Apply(chunk, s, e);
    var es :| |es| <= k && CanTake(chunk, t, es) && After(chunk, t, es).ul.lastAcked > t.ul.lastAcked;
    var all := [e] + es;
    assert all[1..] == es;
    assert |all| <= k + 1 && CanTake(chunk, s, all) && After(chunk, s, all).ul.lastAcked > s.ul.lastAcked;
  }

  /** A moment at which every timer of s has run out. */
  function Late(s: Session): Time
    requires s.ul.lastAcked < LAST_SEQ
  {
    s.clock + s.ul.seqTimeout[s.ul.lastAcked + 1] + s.dl.ts + DEFAULT_TIMEOUT + 1
  }

  function Always(t: Time): nat -> Time {
    (n: nat) => t
  }

  // ---------------------------------------------------------------- the ways forward

  lemma NewAckIsTaken(chunk: seq<Byte>, s: Session, ack: nat)
    requires |chunk| == CHUNK_SIZE && Inv(chunk, s) && s.ulAlive
    requires ack in s.acks && s.ul.lastAcked < ack
    ensures var t: Time := s.clock + 1;
            var e := DeliverAck(ack, t, Always(t), t);
            Enabled(s, e) && Apply(chunk, s, e).ul.lastAcked == ack
  {
    S.NewAckAdvances(s.ul, ack, s.clock + 1);
  }

  lemma NewAckRaises(chunk: seq<Byte>, s: Session, ack: nat)
    requires |chunk| == CHUNK_SIZE && Inv(chunk, s) && s.ulAlive
    requires ack in s.acks && s.ul.lastAcked < ack
    ensures CanRaise(chunk, s, 1)
    ensures exists es ::
              CanTake(chunk, s, es) && Inv(chunk, After(chunk, s, es)) && After(chunk, s, es).ul.lastAcked == ack
  {
    var t: Time := s.clock + 1;
    var e := DeliverAck(ack, t, Always(t), t);
    NewAckIsTaken(chunk, s, ack);
    StepKeeps(chunk, s, e);
    var es := [e];
    assert es[1..] == [];
    assert After(chunk, s, es) == Apply(chunk, s, e) by {
      assert After(chunk, Apply(chunk, s, e), []) == Apply(chunk, s, e);
    }
    assert |es| <= 1 && CanTake(chunk, s, es);
  }

  /** The receiver asks again and the sender hears it. */
  lemma LostAckIsRepeated(chunk: seq<Byte>, s: Session)
    requires |chunk| == CHUNK_SIZE && Inv(chunk, s) && s.ulAlive && s.dlAlive && !s.dl.finished
    requires s.ul.lastAcked < R.AckNumber(s.dl)
    ensures CanRaise(chunk, s, 2)
  {
    var t := Late(s);
    var e := DownloadTick(t, t);
    SlideIsDone(s.dl.win);
    StepKeeps(chunk, s, e);
    NewAckRaises(chunk, Apply(chunk, s, e), R.AckNumber(s.dl));
    OneMoreStep(chunk, s, e, 1);
  }

  /** The next expected packet arrives and is acknowledged. */
  lemma HeadArrives(chunk: seq<Byte>, s: Session, p: Data)
    requires |chunk| == CHUNK_SIZE && Inv(chunk, s) && s.ulAlive && s.dlAlive && !s.dl.finished
    requires p in s.data && p.num == s.dl.win.next
    ensures CanRaise(chunk, s, 2)
  {
    var t: Time := s.clock + 1;
    var e := DeliverData(p, t, t);
    RecvKeeps(chunk, s.dl, p, t, t);
    StepKeeps(chunk, s, e);
    NewAckRaises(chunk, Apply(chunk, s, e), R.AckNumber(Apply(chunk, s, e).dl));
    OneMoreStep(chunk, s, e, 1);
  }

  /** The head-of-window timer puts the head back on the wire and leaves the sender alive if it had retries left. */
  lemma HeadIsResent(chunk: seq<Byte>, s: Session)
    requires |chunk| == CHUNK_SIZE && Inv(chunk, s) && s.ulAlive && !s.ul.finished
    ensures var e := UploadTick(Late(s), Always(Late(s)), Late(s));
            var t := Apply(chunk, s, e);
            && Enabled(s, e)
            && Data(s.ul.lastAcked + 1, Slice(chunk, s.ul.lastAcked + 1)) in t.data
            && t.ul.lastAcked == s.ul.lastAcked && t.dl == s.dl && t.dlAlive == s.dlAlive
            && (t.ulAlive <==> s.ul.timeoutCnt < MAX_TIMEOUT_CNT)
  {
    S.HeadTimerIsArmed(s.ul);
    S.BackOffKeeps(s.ul, Late(s));
    var v := S.BackOff(s.ul, Late(s));
    assert v.lastSent < s.ul.lastAcked + 1 <= S.SendLimit(v);
  }

  lemma HeadIsResentAndArrives(chunk: seq<Byte>, s: Session)
    requires |chunk| == CHUNK_SIZE && Inv(chunk, s) && s.ulAlive && s.dlAlive && !s.dl.finished
    requires s.ul.lastAcked == R.AckNumber(s.dl) && s.ul.timeoutCnt < MAX_TIMEOUT_CNT
    ensures CanRaise(chunk, s, 3)
  {
    var e := UploadTick(Late(s), Always(Late(s)), Late(s));
    HeadIsResent(chunk, s);
    StepKeeps(chunk, s, e);
    HeadArrives(chunk, Apply(chunk, s, e), Data(s.ul.lastAcked + 1, Slice(chunk, s.ul.lastAcked + 1)));
    OneMoreStep(chunk, s, e, 2);
  }

  /** A zero ack gives the sender its retries back. */
  lemma ZeroAckRestores(chunk: seq<Byte>, s: Session)
    requires |chunk| == CHUNK_SIZE && Inv(chunk, s) && s.ulAlive && s.dlAlive && !s.dl.finished
    requires s.ul.lastAcked == R.AckNumber(s.dl) && 0 in s.acks
    ensures CanRaise(chunk, s, 4)
  {
    var t: Time := s.clock + 1;
    var e := DeliverAck(0, t, Always(t), t);
    StepKeeps(chunk, s, e);
    HeadIsResentAndArrives(chunk, Apply(chunk, s, e));
    OneMoreStep(chunk, s, e, 3);
  }

  /** A receiver that has nothing yet sends zero acks when it times out. */
  lemma ReceiverSendsZeroAck(chunk: seq<Byte>, s: Session)
    requires |chunk| == CHUNK_SIZE && Inv(chunk, s) && s.ulAlive && s.dlAlive && !s.dl.finished
    requires s.ul.lastAcked == R.AckNumber(s.dl) == 0 && s.dl.timeoutCnt < MAX_TIMEOUT_CNT
    ensures CanRaise(chunk, s, 5)
  {
    var t := Late(s);
    var e := DownloadTick(t, t);
    SlideIsDone(s.dl.win);
    StepKeeps(chunk, s, e);
    ZeroAckRestores(chunk, Apply(chunk, s, e));
    OneMoreStep(chunk, s, e, 4);
  }

  // ---------------------------------------------------------------- how many steps it takes

  /** The next expected packet is nowhere on the wire. */
  ghost predicate HeadLost(s: Session) {
    forall p :: p in s.data ==> p.num != s.dl.win.next
  }

  ghost predicate NewAckInFlight(s: Session) {
    exists a :: a in s.acks && s.ul.lastAcked < a
  }

  /** The last acknowledged number can rise within k steps; the theorem below says that this is exact. */
  ghost predicate Near(s: Session, k: nat) {
    && s.ulAlive
    && (|| (1 <= k && NewAckInFlight(s))
        || (s.dlAlive && !s.dl.finished
            && (|| (2 <= k && (s.ul.lastAcked < R.AckNumber(s.dl) || !HeadLost(s)))
                || (3 <= k && s.ul.timeoutCnt < MAX_TIMEOUT_CNT)
                || (4 <= k && 0 in s.acks)
                || (5 <= k && s.ul.lastAcked == 0 && s.dl.timeoutCnt < MAX_TIMEOUT_CNT))))
  }

  lemma NearEnough(chunk: seq<Byte>, s: Session, k: nat)
    requires |chunk| == CHUNK_SIZE && Inv(chunk, s) && Near(s, k)
    ensures CanRaise(chunk, s, k)
  {
    hide CanRaise;
    if NewAckInFlight(s) {
      var a :| a in s.acks && s.ul.lastAcked < a;
      NewAckRaises(chunk, s, a);
      MoreStepsDoNotHurt(chunk, s, 1, k);
    } else if s.ul.lastAcked < R.AckNumber(s.dl) {
      LostAckIsRepeated(chunk, s);
      MoreStepsDoNotHurt(chunk, s, 2, k);
    } else if !HeadLost(s) {
      var p :| p in s.data && p.num == s.dl.win.next;
      HeadArrives(chunk, s, p);
      MoreStepsDoNotHurt(chunk, s, 2, k);
    } else if s.ul.timeoutCnt < MAX_TIMEOUT_CNT {
      HeadIsResentAndArrives(chunk, s);
      MoreStepsDoNotHurt(chunk, s, 3, k);
    } else if 0 in s.acks {
      ZeroAckRestores(chunk, s);
      MoreStepsDoNotHurt(chunk, s, 4, k);
    } else {
      ReceiverSendsZeroAck(chunk, s);
      MoreStepsDoNotHurt(chunk, s, 5, k);
    }
  }

  lemma MoreStepsDoNotHurt(chunk: seq<Byte>, s: Session, j: nat, k: nat)
    requires |chunk| == CHUNK_SIZE && CanRaise(chunk, s, j) && j <= k
    ensures CanRaise(chunk, s, k)
  {
  }

  /** While retransmitting, an old ack changes nothing that matters: it sends nothing and restores nothing. */
  lemma OldAckIsInert(u: S.Upload, ack: nat, now: Time)
    requires S.Invariant(u) && !u.finished && u.timeoutCnt > 0 && ack <= u.lastAcked
    ensures var v := S.HandleAck(u, ack, now);
            v.(ackCnt := u.ackCnt, timeoutCnt := u.timeoutCnt) == u && (ack > 0 ==> v.timeoutCnt == u.timeoutCnt)
    ensures S.SendLimit(S.HandleAck(u, ack, now)) == u.lastSent
  {
    if S.Accepts(u, ack) {
      assert u.ackCnt[ack := u.ackCnt[ack]] == u.ackCnt;
    }
  }

  /** An old ack does not raise anything, and only a zero ack brings retries back. */
  lemma OldAckLeavesFar(chunk: seq<Byte>, s: Session, ack: nat, now: Time, readings: nat -> Time, end: Time, k: nat)
    requires |chunk| == CHUNK_SIZE && Inv(chunk, s) && 1 <= k && !Near(s, k)
    requires Enabled(s, DeliverAck(ack, now, readings, end))
    ensures var t := Apply(chunk, s, DeliverAck(ack, now, readings, end));
            t.ul.lastAcked == s.ul.lastAcked && !Near(t, k - 1) && (5 <= k ==> !Near(t, 5))
  {
    S.StepMoves(s.ul, S.Ack(ack, now, readings));
    S.StepKeeps(s.ul, S.Ack(ack, now, readings));
    var t := Apply(chunk, s, DeliverAck(ack, now, readings, end));
    assert t.ul.lastAcked == s.ul.lastAcked && t.acks == s.acks && t.dl == s.dl;
    if s.dlAlive && !s.dl.finished && 3 <= k {
      OldAckIsInert(s.ul, ack, now);
      assert Wire(chunk, S.HandleAck(s.ul, ack, now)) == {};
    }
  }

  lemma DataLeavesFar(chunk: seq<Byte>, s: Session, p: Data, now: Time, end: Time, k: nat)
    requires |chunk| == CHUNK_SIZE && Inv(chunk, s) && 1 <= k && !Near(s, k)
    requires Enabled(s, DeliverData(p, now, end))
    ensures var t := Apply(chunk, s, DeliverData(p, now, end));
            t.ul.lastAcked == s.ul.lastAcked && !Near(t, k - 1) && (5 <= k ==> !Near(t, 5))
  {
    RecvKeeps(chunk, s.dl, p, now, end);
  }

  lemma UploadTickLeavesFar(chunk: seq<Byte>, s: Session, now: Time, readings: nat -> Time, end: Time, k: nat)
    requires |chunk| == CHUNK_SIZE && Inv(chunk, s) && 1 <= k && !Near(s, k)
    requires Enabled(s, UploadTick(now, readings, end))
    ensures var t := Apply(chunk, s, UploadTick(now, readings, end));
            t.ul.lastAcked == s.ul.lastAcked && !Near(t, k - 1) && (5 <= k ==> !Near(t, 5))
  {
    S.StepMoves(s.ul, S.Tick(now, readings));
    S.HeadTimerIsArmed(s.ul);
    S.AdditiveKeeps(s.ul, now);
  }

  lemma DownloadTickLeavesFar(chunk: seq<Byte>, s: Session, now: Time, end: Time, k: nat)
    requires |chunk| == CHUNK_SIZE && Inv(chunk, s) && 1 <= k && !Near(s, k)
    requires Enabled(s, DownloadTick(now, end))
    ensures var t := Apply(chunk, s, DownloadTick(now, end));
            t.ul.lastAcked == s.ul.lastAcked && !Near(t, k - 1) && (5 <= k ==> !Near(t, 5))
  {
    SlideIsDone(s.dl.win);
  }

  /** One step brings a rise at most one step nearer, and from five steps on no nearer at all. */
  lemma StepLeavesFar(chunk: seq<Byte>, s: Session, e: Step, k: nat)
    requires |chunk| == CHUNK_SIZE && Inv(chunk, s) && 1 <= k && !Near(s, k) && Enabled(s, e)
    ensures var t := Apply(chunk, s, e);
            t.ul.lastAcked == s.ul.lastAcked && !Near(t, k - 1) && (5 <= k ==> !Near(t, 5))
  {
    match e
    case DeliverData(p, now, end) => DataLeavesFar(chunk, s, p, now, end, k);
    case DeliverAck(a, now, readings, end) => OldAckLeavesFar(chunk, s, a, now, readings, end, k);
    case UploadTick(now, readings, end) => UploadTickLeavesFar(chunk, s, now, readings, end, k);
    case DownloadTick(now, end) => DownloadTickLeavesFar(chunk, s, now, end, k);
    case LoseData(p) =>
    case LoseAck(a) =>
  }

  lemma {:induction false} FarCannotRaise(chunk: seq<Byte>, s: Session, es: seq<Step>, k: nat)
    requires |chunk| == CHUNK_SIZE && Inv(chunk, s) && CanTake(chunk, s, es) && |es| <= k && !Near(s, k)
    ensures After(chunk, s, es).ul.lastAcked == s.ul.lastAcked
    decreases |es|
  {
    hide Near;
    if es != [] {
      StepKeeps(chunk, s, es[0]);
      StepLeavesFar(chunk, s, es[0], k);
      FarCannotRaise(chunk, Apply(chunk, s, es[0]), es[1..], k - 1);
    }
  }

  /**
    How near the next acknowledgement is, exactly, for every k and every state that can be
    reached: one step when a new ack is in flight, two when the receiver has something
    unacknowledged or the next packet is in flight, three while the sender has a retry
    left, four when a zero ack can give the retries back, five when the receiver, having
    nothing yet, can still send one, and otherwise never.
   */
  lemma StepsToProgress(chunk: seq<Byte>, s: Session, k: nat)
    requires |chunk| == CHUNK_SIZE && Inv(chunk, s)
    ensures CanRaise(chunk, s, k) <==> Near(s, k)
  {
    hide Near;
    if Near(s, k) {
      NearEnough(chunk, s, k);
    } else {
      forall es | |es| <= k && CanTake(chunk, s, es)
        ensures After(chunk, s, es).ul.lastAcked == s.ul.lastAcked
      {
        FarCannotRaise(chunk, s, es, k);
      }
    }
  }

  /**
    With both ends alive and the receiver unfinished, three steps (one timeout, one DATA,
    one ACK) are enough if and only if the sender has a retry left, the receiver has
    something unacknowledged, or the next packet is in flight.
   */
  lemma ThreeStepsIff(chunk: seq<Byte>, s: Session)
    requires |chunk| == CHUNK_SIZE && Inv(chunk, s)
    requires s.ulAlive && s.dlAlive && !s.dl.finished
    ensures CanRaise(chunk, s, 3) <==>
            s.ul.timeoutCnt < MAX_TIMEOUT_CNT || s.ul.lastAcked < R.AckNumber(s.dl) || !HeadLost(s)
  {
    StepsToProgress(chunk, s, 3);
    hide CanRaise;
  }

  /** Nothing new will ever be acknowledged. */
  ghost predicate DeadEnd(s: Session) {
    !Near(s, 5)
  }

  /** What a dead end looks like with both ends alive and the receiver unfinished. */
  lemma DeadEndsAlive(chunk: seq<Byte>, s: Session)
    requires |chunk| == CHUNK_SIZE && Inv(chunk, s) && s.ulAlive && s.dlAlive && !s.dl.finished
    ensures DeadEnd(s) <==>
            && s.ul.lastAcked == R.AckNumber(s.dl) && HeadLost(s)
            && s.ul.timeoutCnt == MAX_TIMEOUT_CNT && 0 !in s.acks
            && (s.ul.lastAcked == 0 ==> s.dl.timeoutCnt == MAX_TIMEOUT_CNT)
  {
  }

  lemma {:induction false} DeadEndForever(chunk: seq<Byte>, s: Session, es: seq<Step>)
    requires |chunk| == CHUNK_SIZE && Inv(chunk, s) && DeadEnd(s) && CanTake(chunk, s, es)
    ensures DeadEnd(After(chunk, s, es)) && After(chunk, s, es).ul.lastAcked == s.ul.lastAcked
    decreases |es|
  {
    hide Near;
    if es != [] {
      StepKeeps(chunk, s, es[0]);
      StepLeavesFar(chunk, s, es[0], 5);
      DeadEndForever(chunk, Apply(chunk, s, es[0]), es[1..]);
    }
  }

  // ---------------------------------------------------------------- the last ack

  lemma FinishedReceiverIsSilent(chunk: seq<Byte>, s: Session, e: Step)
    requires |chunk| == CHUNK_SIZE && Inv(chunk, s) && s.dl.finished && Enabled(s, e)
    requires !s.ul.finished && (LAST_SEQ !in s.acks || !s.ulAlive)
    ensures var t := Apply(chunk, s, e);
            t.dl.finished && !t.ul.finished && (LAST_SEQ !in t.acks || !t.ulAlive)
  {
    match e
    case DeliverAck(a, now, readings, end) =>
      S.StepMoves(s.ul, S.Ack(a, now, readings));
      StepKeeps(chunk, s, e);
    case UploadTick(now, readings, end) =>
      S.StepMoves(s.ul, S.Tick(now, readings));
      StepKeeps(chunk, s, e);
    case DeliverData(p, now, end) =>
      RecvKeeps(chunk, s.dl, p, now, end);
    case _ =>
  }

  lemma {:induction false} SilentForever(chunk: seq<Byte>, s: Session, es: seq<Step>)
    requires |chunk| == CHUNK_SIZE && Inv(chunk, s) && s.dl.finished && CanTake(chunk, s, es)
    requires !s.ul.finished && (LAST_SEQ !in s.acks || !s.ulAlive)
    ensures !After(chunk, s, es).ul.finished
    decreases |es|
  {
    if es != [] {
      StepKeeps(chunk, s, es[0]);
      FinishedReceiverIsSilent(chunk, s, es[0]);
      SilentForever(chunk, Apply(chunk, s, es[0]), es[1..]);
    }
  }

  /** Some run from s ends with the sender finished. */
  ghost predicate SenderCanFinish(chunk: seq<Byte>, s: Session)
    requires |chunk| == CHUNK_SIZE
  {
    exists es :: CanTake(chunk, s, es) && After(chunk, s, es).ul.finished
  }

  lemma FinishedAlready(chunk: seq<Byte>, s: Session)
    requires |chunk| == CHUNK_SIZE && s.ul.finished
    ensures SenderCanFinish(chunk, s)
  {
    var es: seq<Step> := [];
    assert CanTake(chunk, s, es) && After(chunk, s, es) == s;
  }

  /**
    Once the receiver is done it answers nothing: the sender can finish if and only if it
    has, or the final ack is still in flight towards a living sender.
   */
  lemma SenderFinishesOnlyByTheLastAck(chunk: seq<Byte>, s: Session)
    requires |chunk| == CHUNK_SIZE && Inv(chunk, s) && s.dl.finished
    ensures SenderCanFinish(chunk, s) <==> s.ul.finished || (LAST_SEQ in s.acks && s.ulAlive)
  {
    if s.ul.finished {
      FinishedAlready(chunk, s);
    } else if LAST_SEQ in s.acks && s.ulAlive {
      NewAckRaises(chunk, s, LAST_SEQ);
    } else {
      forall es | CanTake(chunk, s, es)
        ensures !After(chunk, s, es).ul.finished
      {
        SilentForever(chunk, s, es);
      }
    }
  }
}
