/**
  Runs that end badly, so the exceptions in module Progress are real: in a dead end, and
  with a finished receiver whose last ack is lost.
 */
module SessionExamples {
  import opened Common
  import opened Session
  import opened Progress
  import RingWindow
  import S = Sender
  import R = Receiver

  ghost predicate LeadsTo(chunk: seq<Byte>, s: Session, t: Session)
    requires |chunk| == CHUNK_SIZE
  {
    exists es :: CanTake(chunk, s, es) && After(chunk, s, es) == t
  }

  lemma StepLeads(chunk: seq<Byte>, s: Session, e: Step, t: Session)
    requires |chunk| == CHUNK_SIZE && Enabled(s, e) && LeadsTo(chunk, Apply(chunk, s, e), t)
    ensures LeadsTo(chunk, s, t)
  {
    var es :| CanTake(chunk, Apply(chunk, s, e), es) && After(chunk, Apply(chunk, s, e), es) == t;
    var all := [e] + es;
    assert all[1..] == es;
    assert CanTake(chunk, s, all) && After(chunk, s, all) == t;
  }

  lemma NoStepLeads(chunk: seq<Byte>, s: Session)
    requires |chunk| == CHUNK_SIZE
    ensures LeadsTo(chunk, s, s)
  {
    var es: seq<Step> := [];
    assert CanTake(chunk, s, es) && After(chunk, s, es) == s;
  }

  // ---------------------------------------------------------------- one packet after the other

  /** Packets 1 to n have arrived and been acknowledged one by one, and nothing has been lost. */
  ghost predicate InStep(chunk: seq<Byte>, s: Session, n: nat)
    requires |chunk| == CHUNK_SIZE
  {
    && Inv(chunk, s) && s.ulAlive && s.dlAlive && n < LAST_SEQ
    && s.ul.lastAcked == n && s.dl.win.next == n + 1 && s.dl.win.held == {}
    && (forall a :: a in s.acks ==> 1 <= a <= n) && s.ul.timeoutCnt == 0
    && forall m :: 1 <= m <= s.ul.maxSent ==> Data(m, Slice(chunk, m)) in s.data
  }

  function NextData(chunk: seq<Byte>, s: Session, n: nat): Step
    requires |chunk| == CHUNK_SIZE && n < LAST_SEQ
  {
    DeliverData(Data(n + 1, Slice(chunk, n + 1)), s.clock + 1, s.clock + 1)
  }

  lemma NextIsReceived(chunk: seq<Byte>, d: R.Download, n: nat, t: Time)
    requires |chunk| == CHUNK_SIZE && Receiving(chunk, d) && !d.finished && n < LAST_SEQ
    requires d.win.next == n + 1 && d.win.held == {}
    ensures var p := Data(n + 1, Slice(chunk, n + 1));
            && R.Recv(d, p, t, t).win.next == n + 2 && R.Recv(d, p, t, t).win.held == {}
            && R.RecvAcks(d, p, t) == Some(n + 1)
  {
    var p := Data(n + 1, Slice(chunk, n + 1));
    RecvKeeps(chunk, d, p, t, t);
    var r := R.Recv(d, p, t, t);
    hide R.Recv, R.RecvAcks, Receiving;
    assert RingWindow.WellFormed(r.win);
    assert forall m: nat :: RingWindow.Has(r.win, m) ==> RingWindow.Has(d.win, m) || m == n + 1;
    assert RingWindow.Has(r.win, r.win.next - 1);
    assert forall m :: m in r.win.held ==> RingWindow.Has(r.win, m);
  }

  lemma NextIsOnTheWire(chunk: seq<Byte>, s: Session, n: nat)
    requires |chunk| == CHUNK_SIZE && InStep(chunk, s, n)
    ensures Enabled(s, NextData(chunk, s, n)) && !s.dl.finished && Receiving(chunk, s.dl)
  {
    hide Receiving, InFlight;
    S.HeadTimerIsArmed(s.ul);
    assert 1 <= n + 1 <= s.ul.maxSent;
    assert Receiving(chunk, s.dl) && (s.dl.finished <==> s.dl.win.next == LAST_SEQ + 1) by {
      UnfinishedBeforeTheEnd(chunk, s.dl);
    }
  }

  lemma UnfinishedBeforeTheEnd(chunk: seq<Byte>, d: R.Download)
    requires |chunk| == CHUNK_SIZE && Receiving(chunk, d)
    ensures d.finished <==> d.win.next == LAST_SEQ + 1
  {
  }

  lemma NextPacketArrives(chunk: seq<Byte>, s: Session, n: nat)
    requires |chunk| == CHUNK_SIZE && InStep(chunk, s, n)
    ensures var t := Apply(chunk, s, NextData(chunk, s, n));
            && Enabled(s, NextData(chunk, s, n)) && Inv(chunk, t)
            && t == s.(dl := t.dl, acks := s.acks + {n + 1}, clock := s.clock + 1)
            && t.dl.win.next == n + 2 && t.dl.win.held == {}
  {
    NextIsOnTheWire(chunk, s, n);
    hide Receiving, S.Invariant, InFlight;
    NextIsReceived(chunk, s.dl, n, s.clock + 1);
    StepKeeps(chunk, s, NextData(chunk, s, n));
    hide R.Recv, R.RecvAcks, Enabled, Inv, Slice;
  }

  lemma AckSendsMore(chunk: seq<Byte>, s: Session, ack: nat, t: Time)
    requires |chunk| == CHUNK_SIZE && Inv(chunk, s)
    requires forall m :: 1 <= m <= s.ul.maxSent ==> Data(m, Slice(chunk, m)) in s.data
    ensures var u := UploadStep(chunk, s, S.Ack(ack, t, Always(t)), t);
            forall m :: 1 <= m <= u.ul.maxSent ==> Data(m, Slice(chunk, m)) in u.data
  {
    S.HandleAckKeeps(s.ul, ack, t);
    var v := S.HandleAck(s.ul, ack, t);
    var u := UploadStep(chunk, s, S.Ack(ack, t, Always(t)), t);
    forall m | 1 <= m <= u.ul.maxSent
      ensures Data(m, Slice(chunk, m)) in u.data
    {
      if m > s.ul.maxSent {
        assert v.lastSent < m <= S.SendLimit(v);
        assert Data(m, Slice(chunk, m)) in Wire(chunk, v);
      }
    }
  }

  function NextAck(s: Session, n: nat): Step {
    var t: Time := s.clock + 1;
    DeliverAck(n + 1, t, Always(t), t)
  }

  lemma AckKeepsRetries(chunk: seq<Byte>, s: Session, n: nat)
    requires |chunk| == CHUNK_SIZE && Inv(chunk, s)
    ensures Apply(chunk, s, NextAck(s, n)).ul.timeoutCnt <= s.ul.timeoutCnt
  {
    var t: Time := s.clock + 1;
    hide Wire, Slice, S.Step;
    S.StepMoves(s.ul, S.Ack(n + 1, t, Always(t)));
  }

  lemma AckGetsThrough(chunk: seq<Byte>, s: Session, n: nat)
    requires |chunk| == CHUNK_SIZE && Inv(chunk, s) && s.ulAlive && s.ul.lastAcked == n && n + 1 in s.acks
    requires forall m :: 1 <= m <= s.ul.maxSent ==> Data(m, Slice(chunk, m)) in s.data
    ensures var t := Apply(chunk, s, NextAck(s, n));
            && Enabled(s, NextAck(s, n)) && Inv(chunk, t)
            && t == s.(ul := t.ul, data := t.data, clock := s.clock + 1)
            && t.ul.lastAcked == n + 1 && t.ul.timeoutCnt <= s.ul.timeoutCnt
            && forall m :: 1 <= m <= t.ul.maxSent ==> Data(m, Slice(chunk, m)) in t.data
  {
    hide Inv, S.Step, S.TimesOut, Wire, Slice;
    AckKeepsRetries(chunk, s, n);
    NewAckIsTaken(chunk, s, n + 1);
    StepKeeps(chunk, s, NextAck(s, n));
    AckSendsMore(chunk, s, n + 1, s.clock + 1);
  }

  lemma NextAckArrives(chunk: seq<Byte>, s: Session, n: nat)
    requires |chunk| == CHUNK_SIZE && InStep(chunk, s, n) && n + 1 < LAST_SEQ
    ensures var t := Apply(chunk, s, NextData(chunk, s, n));
            && Enabled(s, NextData(chunk, s, n)) && Enabled(t, NextAck(t, n))
            && InStep(chunk, Apply(chunk, t, NextAck(t, n)), n + 1)
  {
    NextPacketArrives(chunk, s, n);
    hide Inv, Apply, Enabled, Slice;
    AckGetsThrough(chunk, Apply(chunk, s, NextData(chunk, s, n)), n);
  }

  function Opening(chunk: seq<Byte>): Session
    requires |chunk| == CHUNK_SIZE
  {
    Session(S.Start(0, Always(1)), true, R.Init(0, 1), true, {Data(1, Slice(chunk, 1))}, {}, 1)
  }

  lemma OpeningIsInitial(chunk: seq<Byte>)
    requires |chunk| == CHUNK_SIZE
    ensures Initial(chunk, Opening(chunk))
  {
    var s := Opening(chunk);
    assert s.ul == S.Start(0, Always(1)) && s.dl == R.Init(0, 1);
  }

  lemma OpeningIsInStep(chunk: seq<Byte>)
    requires |chunk| == CHUNK_SIZE
    ensures Initial(chunk, Opening(chunk)) && InStep(chunk, Opening(chunk), 0)
  {
    hide Inv, Initial;
    OpeningIsInitial(chunk);
    InitialHolds(chunk, Opening(chunk));
    S.StartHolds(0, Always(1));
  }

  // ---------------------------------------------------------------- a dead end

  /** Packet 1 is acknowledged, packet 2 is lost, and k timeouts have passed in a row. */
  ghost predicate Losing(chunk: seq<Byte>, s: Session, k: nat)
    requires |chunk| == CHUNK_SIZE
  {
    && Inv(chunk, s) && s.ulAlive && s.dlAlive && !s.dl.finished
    && s.ul.lastAcked == 1 && s.dl.win.next == 2 && s.ul.timeoutCnt == k
    && HeadLost(s) && 0 !in s.acks
  }

  lemma LoseOnceMore(chunk: seq<Byte>, s: Session)
    requires |chunk| == CHUNK_SIZE && Losing(chunk, s, s.ul.timeoutCnt) && s.ul.timeoutCnt < MAX_TIMEOUT_CNT
    ensures var tick := UploadTick(Late(s), Always(Late(s)), Late(s));
            var loss := LoseData(Data(2, Slice(chunk, 2)));
            && Enabled(s, tick) && Enabled(Apply(chunk, s, tick), loss)
            && Losing(chunk, Apply(chunk, Apply(chunk, s, tick), loss), s.ul.timeoutCnt + 1)
  {
    var tick := UploadTick(Late(s), Always(Late(s)), Late(s));
    var loss := LoseData(Data(2, Slice(chunk, 2)));
    HeadIsResent(chunk, s);
    StepKeeps(chunk, s, tick);
    var t := Apply(chunk, s, tick);
    S.HeadTimerIsArmed(s.ul);
    S.BackOffKeeps(s.ul, Late(s));
    StepKeeps(chunk, t, loss);
  }

  lemma {:induction false} LosesToTheEnd(chunk: seq<Byte>, s: Session)
    requires |chunk| == CHUNK_SIZE && Losing(chunk, s, s.ul.timeoutCnt)
    ensures exists t :: LeadsTo(chunk, s, t) && DeadEnd(t) && t.ulAlive && t.dlAlive && !t.dl.finished && Inv(chunk, t)
    decreases MAX_TIMEOUT_CNT - s.ul.timeoutCnt
  {
    if s.ul.timeoutCnt == MAX_TIMEOUT_CNT {
      NoStepLeads(chunk, s);
    } else {
      var tick := UploadTick(Late(s), Always(Late(s)), Late(s));
      var loss := LoseData(Data(2, Slice(chunk, 2)));
      LoseOnceMore(chunk, s);
      var r := Apply(chunk, s, tick);
      LosesToTheEnd(chunk, Apply(chunk, r, loss));
      var t :| LeadsTo(chunk, Apply(chunk, r, loss), t) && DeadEnd(t) && t.ulAlive && t.dlAlive && !t.dl.finished
          && Inv(chunk, t);
      StepLeads(chunk, r, loss, t);
      StepLeads(chunk, s, tick, t);
    }
  }

  /** Packet 1 goes through, its ack comes back, and the packet sent next is lost. */
  lemma FirstPacketThrough(chunk: seq<Byte>)
    requires |chunk| == CHUNK_SIZE
    ensures Initial(chunk, Opening(chunk))
    ensures exists t :: LeadsTo(chunk, Opening(chunk), t) && Losing(chunk, t, 0)
  {
    hide InStep, Inv, Apply, Enabled, LeadsTo, Losing, Initial, Opening, NextData, NextAck;
    OpeningIsInStep(chunk);
    var s := Opening(chunk);
    NextAckArrives(chunk, s, 0);
    var r := Apply(chunk, s, NextData(chunk, s, 0));
    var q := Apply(chunk, r, NextAck(r, 0));
    var loss := LoseData(Data(2, Slice(chunk, 2)));
    SecondPacketLost(chunk, q);
    var t := Apply(chunk, q, loss);
    NoStepLeads(chunk, t);
    StepLeads(chunk, q, loss, t);
    StepLeads(chunk, r, NextAck(r, 0), t);
    StepLeads(chunk, s, NextData(chunk, s, 0), t);
  }

  lemma SecondPacketLost(chunk: seq<Byte>, s: Session)
    requires |chunk| == CHUNK_SIZE && InStep(chunk, s, 1)
    ensures var loss := LoseData(Data(2, Slice(chunk, 2)));
            Enabled(s, loss) && Losing(chunk, Apply(chunk, s, loss), 0)
  {
    var loss := LoseData(Data(2, Slice(chunk, 2)));
    NextIsOnTheWire(chunk, s, 1);
    StepKeeps(chunk, s, loss);
    hide Receiving, S.Invariant;
  }

  /** A dead end is reachable: after one delivered packet, losing the next one six times over is fatal. */
  lemma DeadEndIsReachable(chunk: seq<Byte>)
    requires |chunk| == CHUNK_SIZE
    ensures exists t, u :: LeadsTo(chunk, Opening(chunk), t) && LeadsTo(chunk, t, u) && DeadEnd(u)
                           && u.ulAlive && u.dlAlive && !u.dl.finished && Inv(chunk, u)
  {
    FirstPacketThrough(chunk);
    var t :| LeadsTo(chunk, Opening(chunk), t) && Losing(chunk, t, 0);
    LosesToTheEnd(chunk, t);
  }

  // ---------------------------------------------------------------- the last ack lost

  /** The receiver is done, the sender is not and never will be. */
  ghost predicate LastAckLost(chunk: seq<Byte>, t: Session)
    requires |chunk| == CHUNK_SIZE
  {
    Inv(chunk, t) && t.dl.finished && !t.ul.finished && t.ulAlive && LAST_SEQ !in t.acks && !SenderCanFinish(chunk, t)
  }

  lemma LastAckMayBeLost(chunk: seq<Byte>, s: Session)
    requires |chunk| == CHUNK_SIZE && InStep(chunk, s, LAST_SEQ - 1)
    ensures exists t :: LeadsTo(chunk, s, t) && LastAckLost(chunk, t)
  {
    var e := NextData(chunk, s, LAST_SEQ - 1);
    NextPacketArrives(chunk, s, LAST_SEQ - 1);
    var r := Apply(chunk, s, e);
    var loss := LoseAck(LAST_SEQ);
    StepKeeps(chunk, r, loss);
    var t := Apply(chunk, r, loss);
    SenderFinishesOnlyByTheLastAck(chunk, t);
    NoStepLeads(chunk, t);
    StepLeads(chunk, r, loss, t);
    StepLeads(chunk, s, e, t);
  }

  lemma {:induction false} InStepToTheEnd(chunk: seq<Byte>, s: Session, n: nat)
    requires |chunk| == CHUNK_SIZE && InStep(chunk, s, n)
    ensures exists t :: LeadsTo(chunk, s, t) && LastAckLost(chunk, t)
    decreases LAST_SEQ - n
  {
    hide LeadsTo, InStep, LastAckLost, Enabled, Apply;
    if n + 1 < LAST_SEQ {
      NextAckArrives(chunk, s, n);
      var r := Apply(chunk, s, NextData(chunk, s, n));
      InStepToTheEnd(chunk, Apply(chunk, r, NextAck(r, n)), n + 1);
      var t :| LeadsTo(chunk, Apply(chunk, r, NextAck(r, n)), t) && LastAckLost(chunk, t);
      StepLeads(chunk, r, NextAck(r, n), t);
      StepLeads(chunk, s, NextData(chunk, s, n), t);
    } else {
      InStepHasRoom(chunk, s, n);
      LastAckMayBeLost(chunk, s);
    }
  }

  lemma InStepHasRoom(chunk: seq<Byte>, s: Session, n: nat)
    requires |chunk| == CHUNK_SIZE && InStep(chunk, s, n)
    ensures n < LAST_SEQ
  {
  }

  /** A transfer in which nothing but the very last ack is lost leaves a sender that can never finish. */
  lemma LostLastAckIsReachable(chunk: seq<Byte>)
    requires |chunk| == CHUNK_SIZE
    ensures Initial(chunk, Opening(chunk))
    ensures exists t :: LeadsTo(chunk, Opening(chunk), t) && LastAckLost(chunk, t)
  {
    hide *;
    OpeningIsInStep(chunk);
    InStepToTheEnd(chunk, Opening(chunk), 0);
  }
}
