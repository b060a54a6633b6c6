/**
  The download_t record of src/include/download.h with the procedures of src/download.c
  that update it in place.  Every method is proved equal to its function in module
  Receiver; the receive window is the packed ring of module RingWindow.
 */
module DownloadRecord {
  import opened Common
  import opened Receiver
  import RingWindow
  import Rtt

  class Downloader {
    var getIndex: nat
    var ts: nat
    var timeoutCnt: nat
    var nextExpected: nat
    const rwin: RingWindow.RecvWin
    var rtt: nat
    var dev: nat
    var started: bool
    var blockUpdate: bool
    var finished: bool
    const buffer: array<Byte>
    var dataLength: nat

    ghost predicate Valid()
      reads this, rwin, rwin.bm, buffer
    {
      && rwin.Valid() && buffer.Length == CHUNK_SIZE && buffer as object != rwin.bm
      && nextExpected == rwin.next
    }

    ghost function State(): Download
      requires Valid()
      reads this, rwin, rwin.bm, buffer
    {
      DownloadFields(getIndex, ts, timeoutCnt, rwin.State(), rtt, dev,
                     started, blockUpdate, finished, buffer[..], dataLength)
    }

    /** dl_init */
    constructor (getIndex: nat, now: nat)
      ensures Valid() && State() == Init(getIndex, now)
      ensures fresh(buffer) && fresh(rwin) && fresh(rwin.bm)
    {
      buffer := new Byte[CHUNK_SIZE](_ => 0);
      timeoutCnt, rtt, dev, dataLength := 0, 0, 0, 0;
      started, blockUpdate, finished := false, false, false;
      nextExpected := 1;
      this.getIndex := getIndex;
      ts := now;
      rwin := new RingWindow.RecvWin();
      new;
      assert buffer[..] == Blank();
    }

    /** get_ack */
    method GetAck() returns (ack: nat)
      requires Valid()
      modifies this, rwin, rwin.bm
      ensures Valid() && State() == Slid(old(State())) && ack == AckNumber(State()) == nextExpected - 1
    {
      rwin.SlideAck();
      nextExpected := rwin.next;
      ack := nextExpected - 1;
    }

    /** The head of dl_recv. */
    method NoteArrival(length: nat, now: nat)
      requires Valid()
      modifies this
      ensures Valid() && State() == Clocked(old(State()), length, now)
    {
      if started && !blockUpdate {
        rtt, dev := Rtt.UpdateRtt(rtt, dev, ts, now);
      } else {
        dataLength := length;
        started := true;
        blockUpdate := false;
      }
    }

    /** The copy into the buffer and the mark in the window. */
    method Store(p: Data)
      requires Valid() && Admits(State(), p)
      modifies rwin.bm, buffer
      ensures Valid() && State() == Stored(old(State()), p)
    {
      hide RingWindow.RecvWin.State, RingWindow.RecvWin.Valid, Overwrite;
      var offset := (p.num - 1) * dataLength;
      var held := rwin.SeqExistIn(p.num);
      if !held {
        CopyIn(offset, p.payload);
        rwin.MarkReceived(p.num);
      }
    }

    /** memcpy */
    method CopyIn(offset: nat, payload: seq<Byte>)
      requires offset + |payload| <= buffer.Length
      modifies buffer
      ensures buffer[..] == Overwrite(old(buffer[..]), offset, payload)
    {
      forall i | 0 <= i < |payload| {
        buffer[offset + i] := payload[i];
      }
    }

    /** The tail of dl_recv, for a packet that fits. */
    method Accept(p: Data, t: nat) returns (ack: nat)
      requires Valid() && Admits(State(), p)
      modifies this, rwin, rwin.bm, buffer
      ensures Valid() && State() == Accepted(old(State()), p, t) && ack == AckNumber(State())
    {
      hide Stored, Slid, RingWindow.RecvWin.State, RingWindow.RecvWin.Valid;
      Store(p);
      ack := GetAck();
      ts := t;
      timeoutCnt := 0;
      if (nextExpected - 1) * dataLength >= CHUNK_SIZE {
        finished := true;
      }
    }

    /** dl_recv: the ack sent, if any, and the new state. */
    method OnData(p: Data, now: nat, t: nat) returns (ack: Option<nat>)
      requires Valid()
      modifies this, rwin, rwin.bm, buffer
      ensures Valid() && State() == Recv(old(State()), p, now, t)
      ensures ack == RecvAcks(old(State()), p, now)
    {
      hide Accepted, RingWindow.RecvWin.State, RingWindow.RecvWin.Valid;
      if finished {
        return None;
      }
      NoteArrival(|p.payload|, now);
      var fits := rwin.SeqFitIn(p.num);
      if !fits || (p.num - 1) * dataLength + |p.payload| > CHUNK_SIZE {
        return None;
      }
      AckIgnoresTheClock(State(), p, t);
      var a := Accept(p, t);
      ack := Some(a);
    }

    /** dl_loss: the same ack LOSS_ACK_NUM times. */
    method OnLoss(t: nat) returns (acks: seq<nat>)
      requires Valid()
      modifies this, rwin, rwin.bm
      ensures Valid() && State() == Slid(old(State())).(ts := t, blockUpdate := true)
      ensures acks == Times(LOSS_ACK_NUM, AckNumber(State()))
    {
      hide RingWindow.RecvWin.State, RingWindow.RecvWin.Valid;
      ghost var d := State();
      acks := [];
      for i := 0 to LOSS_ACK_NUM
        invariant Valid() && State() == if i == 0 then d else Slid(d)
        invariant acks == Times(i, AckNumber(State()))
      {
        RingWindow.SlideFindsLeastMissing(d.win);
        var a := GetAck();
        acks := acks + [a];
      }
      ts := t;
      blockUpdate := true;
    }

    /** dl_check_timeout; result -1 when the download has finished. */
    method OnTick(now: nat, t: nat) returns (count: int, acks: seq<nat>)
      requires Valid()
      modifies this, rwin, rwin.bm
      ensures Valid() && State() == CheckTimeout(old(State()), now, t)
      ensures count == if finished then -1 else timeoutCnt
      ensures acks == if TimesOut(old(State()), now) then Times(LOSS_ACK_NUM, AckNumber(State())) else []
    {
      acks := [];
      if finished {
        return -1, acks;
      }
      if rtt == 0 && now - ts < DEFAULT_TIMEOUT {
        return timeoutCnt, acks;
      }
      if now - ts < DEFAULT_TIMEOUT / 2 {
        return timeoutCnt, acks;
      }
      timeoutCnt := timeoutCnt + 1;
      acks := OnLoss(t);
      count := timeoutCnt;
    }
  }
}
