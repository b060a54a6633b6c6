/**
  One upload session paired with one download session over a network that may lose,
  duplicate and reorder: the packets in flight form a set, delivery leaves a packet in
  it, and a packet may leave it unseen at any moment.
 */
module Session {
  import opened Common
  import RingWindow
  import S = Sender
  import R = Receiver

  /** alive: check_all_timeout has not given up on the peer. */
  datatype Session = Session(
    ul: S.Upload, ulAlive: bool,
    dl: R.Download, dlAlive: bool,
    data: set<Data>, acks: set<nat>,
    clock: nat)

  /** Every reading of the clock during a step lies between now and end. */
  datatype Step =
    | DeliverData(p: Data, now: Time, end: Time)
    | DeliverAck(ack: nat, now: Time, readings: nat -> Time, end: Time)
    | UploadTick(now: Time, readings: nat -> Time, end: Time)
    | DownloadTick(now: Time, end: Time)
    | LoseData(p: Data)
    | LoseAck(ack: nat)

  /** What ul_send puts on the wire from state v. */
  function Wire(chunk: seq<Byte>, v: S.Upload): set<Data>
    requires |chunk| == CHUNK_SIZE
  {
    set n | v.lastSent < n <= S.SendLimit(v) :: Data(n, Slice(chunk, n))
  }

  ghost predicate Timely(s: Session, now: Time, readings: nat -> Time, end: Time) {
    s.clock <= now <= end && forall n :: now <= readings(n) <= end
  }

  ghost predicate Enabled(s: Session, e: Step) {
    match e
    case DeliverData(p, now, end) => p in s.data && s.dlAlive && s.clock <= now <= end
    case DeliverAck(a, now, readings, end) => a in s.acks && s.ulAlive && Timely(s, now, readings, end)
    case UploadTick(now, readings, end) => s.ulAlive && Timely(s, now, readings, end)
    case DownloadTick(now, end) => s.dlAlive && s.clock <= now <= end
    case LoseData(p) => p in s.data
    case LoseAck(a) => a in s.acks
  }

  /** The sender end of a step. */
  function UploadStep(chunk: seq<Byte>, s: Session, e: S.Event, end: Time): Session
    requires |chunk| == CHUNK_SIZE
  {
    s.(ul := S.Step(s.ul, e),
       data := s.data + (if e.Ack? || S.TimesOut(s.ul, e.now) then Wire(chunk, S.Entering(s.ul, e)) else {}),
       clock := end)
  }

  function Apply(chunk: seq<Byte>, s: Session, e: Step): Session
    requires |chunk| == CHUNK_SIZE
  {
    match e
    case DeliverData(p, now, end) =>
      s.(dl := R.Recv(s.dl, p, now, end),
         acks := s.acks + (match R.RecvAcks(s.dl, p, now) case None => {} case Some(a) => {a}),
         clock := end)
    case DeliverAck(a, now, readings, end) => UploadStep(chunk, s, S.Ack(a, now, readings), end)
    case UploadTick(now, readings, end) =>
      var t := UploadStep(chunk, s, S.Tick(now, readings), end);
      t.(ulAlive := t.ul.finished || t.ul.timeoutCnt <= MAX_TIMEOUT_CNT)
    case DownloadTick(now, end) =>
      var d := R.CheckTimeout(s.dl, now, end);
      s.(dl := d,
         dlAlive := d.finished || d.timeoutCnt <= MAX_TIMEOUT_CNT,
         acks := s.acks + (if R.TimesOut(s.dl, now) then {R.AckNumber(d)} else {}),
         clock := end)
    case LoseData(p) => s.(data := s.data - {p})
    case LoseAck(a) => s.(acks := s.acks - {a})
  }

  ghost predicate Initial(chunk: seq<Byte>, s: Session)
    requires |chunk| == CHUNK_SIZE
  {
    && (exists hasIndex: nat, readings: nat -> Time :: s.ul == S.Start(hasIndex, readings))
    && (exists getIndex: nat, t: nat :: s.dl == R.Init(getIndex, t) && t <= s.clock)
    && s.ulAlive && s.dlAlive
    && s.data == {Data(1, Slice(chunk, 1))} && s.acks == {}
  }

  // ---------------------------------------------------------------- the invariant

  /** The receiver alone: which bytes it has, and when it calls itself finished. */
  ghost predicate Receiving(chunk: seq<Byte>, d: R.Download)
    requires |chunk| == CHUNK_SIZE
  {
    && d.dataLength == (if d.started then PAYLOAD_SIZE else 0)
    && (!d.started ==> d.win == RingWindow.EMPTY && !d.finished)
    && d.win.next !in d.win.held
    && (d.finished <==> d.win.next == LAST_SEQ + 1)
    && d.win.next <= LAST_SEQ + 1
    && (forall n :: n in d.win.held ==> n <= LAST_SEQ)
    && (forall n :: 1 <= n <= LAST_SEQ && RingWindow.Has(d.win, n) ==> Slice(d.buffer, n) == Slice(chunk, n))
  }

  ghost predicate InFlight(chunk: seq<Byte>, s: Session)
    requires |chunk| == CHUNK_SIZE
  {
    && (forall p :: p in s.data ==> 1 <= p.num <= s.ul.maxSent && p.payload == Slice(chunk, p.num))
    && (forall a :: a in s.acks ==> a <= R.AckNumber(s.dl))
  }

  ghost predicate Inv(chunk: seq<Byte>, s: Session)
    requires |chunk| == CHUNK_SIZE
  {
    && S.Invariant(s.ul) && Receiving(chunk, s.dl) && InFlight(chunk, s)
    && s.ul.lastAcked <= R.AckNumber(s.dl) <= s.ul.maxSent
    && (forall n :: n in s.dl.win.held ==> n <= s.ul.maxSent)
    && s.dl.ts <= s.clock
    && (s.ulAlive ==> s.ul.timeoutCnt <= MAX_TIMEOUT_CNT)
    && (s.dlAlive && !s.dl.finished ==> s.dl.timeoutCnt <= MAX_TIMEOUT_CNT)
  }

  // ---------------------------------------------------------------- preservation

  lemma InitialHolds(chunk: seq<Byte>, s: Session)
    requires |chunk| == CHUNK_SIZE && Initial(chunk, s)
    ensures Inv(chunk, s)
  {
    var hasIndex: nat, readings: nat -> Time :| s.ul == S.Start(hasIndex, readings);
    S.StartHolds(hasIndex, readings);
  }

  lemma SlideIsDone(w: RingWindow.Window)
    requires RingWindow.WellFormed(w) && w.next !in w.held
    ensures RingWindow.Slide(w) == w
  {
    assert (set s | s in w.held && w.next <= s) == w.held;
  }

  /** Writing one slice leaves the others alone. */
  lemma OverwriteSlice(buffer: seq<Byte>, n: nat, payload: seq<Byte>, m: nat)
    requires |buffer| == CHUNK_SIZE && |payload| == PAYLOAD_SIZE
    requires 1 <= n <= LAST_SEQ && 1 <= m <= LAST_SEQ
    ensures (n - 1) * PAYLOAD_SIZE + PAYLOAD_SIZE <= CHUNK_SIZE
    ensures var b := R.Overwrite(buffer, (n - 1) * PAYLOAD_SIZE, payload);
            Slice(b, m) == if m == n then payload else Slice(buffer, m)
  {
    var b := R.Overwrite(buffer, (n - 1) * PAYLOAD_SIZE, payload);
    assert forall i :: 0 <= i < CHUNK_SIZE ==>
      b[i] == if (n - 1) * PAYLOAD_SIZE <= i < n * PAYLOAD_SIZE then payload[i - (n - 1) * PAYLOAD_SIZE] else buffer[i];
    assert Slice(b, m) == if m == n then payload else Slice(buffer, m);
  }

  /** One of the sender's own packets: admitted exactly when it lies in the window, and stored in its place. */
  lemma StoreKeeps(chunk: seq<Byte>, d: R.Download, p: Data)
    requires |chunk| == CHUNK_SIZE && Receiving(chunk, d) && d.started
    requires 1 <= p.num <= LAST_SEQ && p.payload == Slice(chunk, p.num)
    ensures R.Admits(d, p) <==> p.num >= d.win.next
    ensures R.Admits(d, p) ==>
              var t := R.Stored(d, p);
              && t == d.(win := t.win, buffer := t.buffer)
              && t.win.next == d.win.next && t.win.held == d.win.held + {p.num}
              && forall n :: 1 <= n <= LAST_SEQ && RingWindow.Has(t.win, n) ==> Slice(t.buffer, n) == Slice(chunk, n)
  {
    if R.Admits(d, p) && p.num !in d.win.held {
      var t := R.Stored(d, p);
      forall n | 1 <= n <= LAST_SEQ && RingWindow.Has(t.win, n)
        ensures Slice(t.buffer, n) == Slice(chunk, n)
      {
        OverwriteSlice(d.buffer, p.num, p.payload, n);
      }
    }
  }

  lemma AcceptKeeps(chunk: seq<Byte>, d: R.Download, p: Data, t: nat)
    requires |chunk| == CHUNK_SIZE && Receiving(chunk, d) && d.started && !d.finished
    requires 1 <= p.num <= LAST_SEQ && p.payload == Slice(chunk, p.num) && R.Admits(d, p)
    ensures var a := R.Accepted(d, p, t);
            && Receiving(chunk, a) && d.win.next <= a.win.next
            && a.timeoutCnt == 0 && a.ts == t
            && (forall n: nat :: RingWindow.Has(a.win, n) <==> RingWindow.Has(d.win, n) || n == p.num)
            && (p.num == d.win.next ==> d.win.next < a.win.next)
            && (p.num != d.win.next ==> d.win.next == a.win.next)
  {
    StoreKeeps(chunk, d, p);
    var s := R.Stored(d, p);
    RingWindow.SlideFindsLeastMissing(s.win);
    var a := R.Accepted(d, p, t);
    assert !RingWindow.Has(a.win, a.win.next);
    assert !RingWindow.Has(s.win, LAST_SEQ + 1);
  }

  /** Everything dl_recv may do with one of the sender's own packets. */
  lemma RecvKeeps(chunk: seq<Byte>, d: R.Download, p: Data, now: nat, t: nat)
    requires |chunk| == CHUNK_SIZE && Receiving(chunk, d)
    requires 1 <= p.num <= LAST_SEQ && p.payload == Slice(chunk, p.num)
    ensures var a := R.Recv(d, p, now, t);
            && Receiving(chunk, a) && d.win.next <= a.win.next
            && (forall n: nat :: RingWindow.Has(a.win, n) ==> RingWindow.Has(d.win, n) || n == p.num)
            && (d.finished ==> a == d)
            && (a.ts == d.ts || a.ts == t) && (a.timeoutCnt == d.timeoutCnt || a.timeoutCnt == 0)
            && (p.num != d.win.next ==> a.win.next == d.win.next)
            && (p.num == d.win.next && !d.finished ==> d.win.next < a.win.next)
    ensures R.RecvAcks(d, p, now) == if d.finished || p.num < d.win.next then None
                                     else Some(R.AckNumber(R.Recv(d, p, now, t)))
  {
    if !d.finished {
      var c := R.Clocked(d, |p.payload|, now);
      assert Receiving(chunk, c) && c.started && !c.finished;
      StoreKeeps(chunk, c, p);
      if R.Admits(c, p) {
        AcceptKeeps(chunk, c, p, t);
      }
    }
  }

  lemma DeliverDataKeeps(chunk: seq<Byte>, s: Session, p: Data, now: Time, end: Time)
    requires |chunk| == CHUNK_SIZE && Inv(chunk, s) && Enabled(s, DeliverData(p, now, end))
    ensures Inv(chunk, Apply(chunk, s, DeliverData(p, now, end)))
  {
    RecvKeeps(chunk, s.dl, p, now, end);
    var d := R.Recv(s.dl, p, now, end);
    assert R.AckNumber(d) <= s.ul.maxSent by {
      if R.AckNumber(d) > R.AckNumber(s.dl) {
        assert RingWindow.Has(d.win, R.AckNumber(d));
      }
    }
    assert forall n :: n in d.win.held ==> RingWindow.Has(d.win, n);
  }

  lemma UploadKeeps(chunk: seq<Byte>, s: Session, e: S.Event, end: Time)
    requires |chunk| == CHUNK_SIZE && Inv(chunk, s) && s.clock <= end
    requires e.Ack? ==> e.ack <= R.AckNumber(s.dl)
    ensures var t := UploadStep(chunk, s, e, end);
            && S.Invariant(t.ul) && Receiving(chunk, t.dl) && InFlight(chunk, t)
            && s.ul.lastAcked <= t.ul.lastAcked <= R.AckNumber(t.dl) <= t.ul.maxSent
            && (forall n :: n in t.dl.win.held ==> n <= t.ul.maxSent)
  {
    S.StepKeeps(s.ul, e);
    S.StepMoves(s.ul, e);
  }

  lemma DeliverAckKeeps(chunk: seq<Byte>, s: Session, a: nat, now: Time, readings: nat -> Time, end: Time)
    requires |chunk| == CHUNK_SIZE && Inv(chunk, s) && Enabled(s, DeliverAck(a, now, readings, end))
    ensures Inv(chunk, Apply(chunk, s, DeliverAck(a, now, readings, end)))
    ensures s.ul.lastAcked <= Apply(chunk, s, DeliverAck(a, now, readings, end)).ul.lastAcked
  {
    hide S.Invariant, S.Step, Receiving, Wire;
    UploadKeeps(chunk, s, S.Ack(a, now, readings), end);
    S.StepMoves(s.ul, S.Ack(a, now, readings));
    hide InFlight;
  }

  lemma UploadTickKeeps(chunk: seq<Byte>, s: Session, now: Time, readings: nat -> Time, end: Time)
    requires |chunk| == CHUNK_SIZE && Inv(chunk, s) && Enabled(s, UploadTick(now, readings, end))
    ensures Inv(chunk, Apply(chunk, s, UploadTick(now, readings, end)))
    ensures s.ul.lastAcked <= Apply(chunk, s, UploadTick(now, readings, end)).ul.lastAcked
  {
    hide S.Step, Receiving, Wire;
    UploadKeeps(chunk, s, S.Tick(now, readings), end);
    FinishedTickIsIdle(s.ul, now, readings);
  }

  lemma FinishedTickIsIdle(u: S.Upload, now: Time, readings: nat -> Time)
    ensures u.finished ==> S.Step(u, S.Tick(now, readings)) == u
    ensures S.Step(u, S.Tick(now, readings)).finished == u.finished
  {
  }

  lemma DownloadTickKeeps(chunk: seq<Byte>, s: Session, now: Time, end: Time)
    requires |chunk| == CHUNK_SIZE && Inv(chunk, s) && Enabled(s, DownloadTick(now, end))
    ensures Inv(chunk, Apply(chunk, s, DownloadTick(now, end)))
    ensures Apply(chunk, s, DownloadTick(now, end)).ul == s.ul
  {
    hide S.Invariant;
    SlideIsDone(s.dl.win);
  }

  lemma StepKeeps(chunk: seq<Byte>, s: Session, e: Step)
    requires |chunk| == CHUNK_SIZE && Inv(chunk, s) && Enabled(s, e)
    ensures Inv(chunk, Apply(chunk, s, e))
    ensures s.ul.lastAcked <= Apply(chunk, s, e).ul.lastAcked
  {
    hide S.Invariant, S.Step, Receiving, Wire, R.Recv, R.CheckTimeout;
    match e
    case DeliverData(p, now, end) =>
      DeliverDataKeeps(chunk, s, p, now, end);
    case DeliverAck(a, now, readings, end) =>
      DeliverAckKeeps(chunk, s, a, now, readings, end);
    case UploadTick(now, readings, end) =>
      UploadTickKeeps(chunk, s, now, readings, end);
    case DownloadTick(now, end) =>
      DownloadTickKeeps(chunk, s, now, end);
    case LoseData(p) =>
    case LoseAck(a) =>
  }

  // ---------------------------------------------------------------- runs

  /** What becomes of s when the steps are taken in order. */
  ghost function After(chunk: seq<Byte>, s: Session, es: seq<Step>): Session
    requires |chunk| == CHUNK_SIZE
    decreases |es|
  {
    if es == [] then s else After(chunk, Apply(chunk, s, es[0]), es[1..])
  }

  ghost predicate CanTake(chunk: seq<Byte>, s: Session, es: seq<Step>)
    requires |chunk| == CHUNK_SIZE
    decreases |es|
  {
    es == [] || (Enabled(s, es[0]) && CanTake(chunk, Apply(chunk, s, es[0]), es[1..]))
  }

  lemma {:induction false} RunKeeps(chunk: seq<Byte>, s: Session, es: seq<Step>)
    requires |chunk| == CHUNK_SIZE && Inv(chunk, s) && CanTake(chunk, s, es)
    ensures Inv(chunk, After(chunk, s, es))
    ensures s.ul.lastAcked <= After(chunk, s, es).ul.lastAcked
    decreases |es|
  {
    if es != [] {
      StepKeeps(chunk, s, es[0]);
      RunKeeps(chunk, Apply(chunk, s, es[0]), es[1..]);
    }
  }

  lemma SlicesMakeTheChunk(a: seq<Byte>, b: seq<Byte>)
    requires |a| == |b| == CHUNK_SIZE
    requires forall n :: 1 <= n <= LAST_SEQ ==> Slice(a, n) == Slice(b, n)
    ensures a == b
  {
    forall i | 0 <= i < CHUNK_SIZE
      ensures a[i] == b[i]
    {
      var n := i / PAYLOAD_SIZE + 1;
      assert Slice(a, n)[i % PAYLOAD_SIZE] == Slice(b, n)[i % PAYLOAD_SIZE];
    }
  }

  /**
    End-to-end integrity: in every run a finished receiver holds the sender's chunk byte
    for byte, and the sender never finishes before the receiver.
   */
  lemma EndToEndIntegrity(chunk: seq<Byte>, s: Session, es: seq<Step>)
    requires |chunk| == CHUNK_SIZE && Initial(chunk, s) && CanTake(chunk, s, es)
    ensures var t := After(chunk, s, es);
            && (t.dl.finished ==> t.dl.buffer == chunk)
            && (t.ul.finished ==> t.dl.finished)
    ensures var t := After(chunk, s, es);
            t.ul.lastAcked <= t.dl.win.next - 1 <= t.ul.maxSent
  {
    InitialHolds(chunk, s);
    RunKeeps(chunk, s, es);
    var t := After(chunk, s, es);
    if t.dl.finished {
      SlicesMakeTheChunk(t.dl.buffer, chunk);
    }
  }
}
