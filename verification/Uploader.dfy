/**
  The upload_t record of src/include/upload.h with the procedures of src/upload.c that
  update it in place.  Every method is proved equal to its function in module Sender.
 */
module UploadRecord {
  import opened Common
  import opened Sender
  import Rtt

  /** The DATA packets numbered first+1 to last, in order, each with its own bytes of the chunk. */
  function Packets(chunk: seq<Byte>, first: nat, last: nat): (r: seq<Data>)
    requires |chunk| == CHUNK_SIZE && first <= last <= LAST_SEQ
    ensures |r| == last - first
    ensures forall i :: 0 <= i < |r| ==> r[i] == Data(first + 1 + i, Slice(chunk, first + 1 + i))
  {
    if first == last then [] else Packets(chunk, first, last - 1) + [Data(last, Slice(chunk, last))]
  }

  class Uploader {
    var hasIndex: nat
    const ackCnt: array<int>
    const seqTs: array<nat>
    const seqTimeout: array<nat>
    var ssThreshold: nat
    var lastAcked: nat
    var lastSent: nat
    var maxSent: nat
    var maxRetransmit: nat
    var rtt: nat
    var dev: nat
    var rto: nat
    var window: nat
    var caTs: nat
    var timeoutCnt: nat
    const data: seq<Byte>
    var status: Status
    var finished: bool

    ghost predicate Valid()
      reads this, ackCnt, seqTs, seqTimeout
    {
      && seqTs != seqTimeout && ackCnt as object != seqTs && ackCnt as object != seqTimeout
      && |data| == CHUNK_SIZE
      && InBounds(Fields())
    }

    ghost function Fields(): UploadFields
      reads this, ackCnt, seqTs, seqTimeout
    {
      UploadFields(hasIndex, ackCnt[..], seqTs[..], seqTimeout[..], ssThreshold, lastAcked, lastSent,
                   maxSent, maxRetransmit, rtt, dev, rto, window, caTs, timeoutCnt, status, finished)
    }

    ghost function State(): Upload
      reads this, ackCnt, seqTs, seqTimeout
      requires Valid()
    {
      Fields()
    }

    /** ul_init: zeroed memory, then the six fields that do not start at zero. */
    constructor (hasIndex: nat, chunk: seq<Byte>)
      requires |chunk| == CHUNK_SIZE
      ensures Valid() && State() == Init(hasIndex) && data == chunk
      ensures fresh(ackCnt) && fresh(seqTs) && fresh(seqTimeout)
    {
      ackCnt := new int[LAST_SEQ + 1](_ => 0);
      seqTs := new nat[LAST_SEQ + 1](_ => 0);
      seqTimeout := new nat[LAST_SEQ + 1](_ => 0);
      lastAcked, lastSent, maxSent, maxRetransmit := 0, 0, 0, 0;
      dev, caTs, timeoutCnt, status, finished := 0, 0, 0, SlowStart, false;
      window := 1;
      this.hasIndex := hasIndex;
      ssThreshold := SS_THRESH;
      rtt := DEFAULT_TIMEOUT / 2;
      rto := DEFAULT_TIMEOUT;
      data := chunk;
      new;
      assert ackCnt[..] == Zeros() && seqTs[..] == Zeros() && seqTimeout[..] == Zeros();
    }

    /** One turn of the loop of ul_send. */
    method SendNext(clock: nat -> Time) returns (d: Data)
      requires Valid() && lastSent < LAST_SEQ
      modifies this, seqTs, seqTimeout
      ensures Valid() && State() == EmitOne(old(State()), clock)
      ensures d == Data(lastSent, Slice(data, lastSent))
    {
      var next := lastSent + 1;
      d := Data(next, data[(next - 1) * PAYLOAD_SIZE .. next * PAYLOAD_SIZE]);
      rto := 2 * rtt;
      if rto == 0 {
        rto := DEFAULT_TIMEOUT;
      }
      seqTs[next] := clock(next);
      seqTimeout[next] := seqTs[next] + rto;
      lastSent := lastSent + 1;
      assert seqTs[..] == old(seqTs[..])[next := clock(next)];
      assert seqTimeout[..] == old(seqTimeout[..])[next := clock(next) + rto];
    }

    /** ul_send: the packets handed to send_packet, in order, and the new state. */
    method SendWindow(clock: nat -> Time) returns (sent: seq<Data>)
      requires Valid()
      modifies this, seqTs, seqTimeout
      ensures Valid() && State() == Send(old(State()), clock)
      ensures sent == Packets(data, old(lastSent), SendLimit(old(State())))
    {
      hide EmitOne, Emit, Slice;
      ghost var u := State();
      EmitFacts(u, clock);
      EmitNothing(u, clock);
      sent := [];
      while lastSent < lastAcked + window
        invariant u.lastSent <= lastSent <= SendLimit(u)
        invariant Valid() && State() == Emit(u, lastSent, clock)
        invariant sent == Packets(data, u.lastSent, lastSent)
      {
        var next := lastSent + 1;
        if next > LAST_SEQ {
          break;
        }
        EmitNext(u, lastSent, clock);
        var d := SendNext(clock);
        sent := sent + [d];
      }
      maxSent := Max(maxSent, lastSent);
    }

    /** ul_loss */
    method OnLoss()
      requires Valid()
      modifies this
      ensures Valid() && State() == Loss(old(State()))
    {
      ssThreshold := Max(window / 2, 2);
      window := 1;
      lastSent := lastAcked;
      status := FastRetransmit;
      maxRetransmit := maxSent;
    }

    /** The switch of ul_handle_ack. */
    method GrowWindow(ack: nat)
      requires Valid() && lastAcked < ack
      modifies this
      ensures Valid() && State() == Grow(old(State()), ack)
    {
      match status
      case SlowStart =>
        window := window + (ack - lastAcked);
        if window > ssThreshold {
          status := CongestionAvoidance;
        }
      case CongestionAvoidance =>
      case FastRetransmit =>
        if ack >= lastSent {
          status := FastRetransmitSS;
          window := window + 1;
        }
      case FastRetransmitSS =>
        window := window + 1;
        if ack >= maxRetransmit {
          status := SlowStart;
        } else if window > ssThreshold {
          status := FastRetransmitCA;
        }
      case FastRetransmitCA =>
        if ack >= maxRetransmit {
          status := CongestionAvoidance;
        }
      case FastRecovery =>
    }

    /** The RTT sample and the duplicate count of an accepted ack; the result asks for ul_loss. */
    method CountArrival(ack: nat, now: Time) returns (lost: bool)
      requires Valid() && Accepts(State(), ack)
      modifies this, ackCnt
      ensures Valid() && lost == AckSignalsLoss(old(State()), ack)
      ensures var v := Sample(old(State()), ack, now);
              State() == v.(ackCnt := v.ackCnt[ack := if lost then 0 else Counted(old(State()), ack)])
    {
      hide Rtt.Update;
      if status == SlowStart || status == CongestionAvoidance {
        rtt, dev := Rtt.UpdateRtt(rtt, dev, seqTs[ack], now);
      }
      if status == FastRetransmitSS || status == FastRetransmitCA {
        ackCnt[ack] := Min(0, 0 - (ack - (lastAcked + 1)));
      }
      lost := false;
      if status != FastRetransmit {
        ackCnt[ack] := ackCnt[ack] + 1;
        if ackCnt[ack] > MAX_DUP_ACK {
          ackCnt[ack] := 0;
          lost := true;
        }
      }
      assert ackCnt[..] == old(ackCnt[..])[ack := if lost then 0 else Counted(old(State()), ack)];
    }

    /** The branch of ul_handle_ack for an advancing ack. */
    method MoveWindow(ack: nat)
      requires Valid() && !finished && lastAcked < ack <= LAST_SEQ
      modifies this
      ensures Valid() && State() == Advance(old(State()), ack)
    {
      GrowWindow(ack);
      if lastSent < ack {
        lastSent := ack;
      }
      timeoutCnt := 0;
      lastAcked := ack;
      if lastAcked >= LAST_SEQ {
        finished := true;
      }
    }

    /** ul_handle_ack */
    method OnAck(ack: nat, now: Time)
      requires Valid()
      modifies this, ackCnt
      ensures Valid() && State() == HandleAck(old(State()), ack, now)
    {
      hide Sample, Counted, AckSignalsLoss, Grow, Loss, Advance;
      if finished {
        return;
      }
      if ack == 0 {
        timeoutCnt := 0;
        return;
      }
      if ack > maxSent || ack < lastAcked {
        return;
      }
      SampleKeeps(State(), ack, now);
      var lost := CountArrival(ack, now);
      if lost {
        OnLoss();
        return;
      }
      if ack > lastAcked {
        MoveWindow(ack);
      }
    }

    /** The additive increase at the head of ul_check_timeout. */
    method IncreaseWindow(now: Time)
      requires Valid()
      modifies this
      ensures Valid() && State() == Additive(old(State()), now)
    {
      if caTs == 0 && (status == CongestionAvoidance || status == FastRetransmitCA) {
        caTs := now + rtt;
      }
      if (status == CongestionAvoidance || status == FastRetransmitCA) && now > caTs {
        window := window + 1;
        caTs := now + rtt;
      }
    }

    /** What ul_check_timeout does about an expired timer before it sends again. */
    method Expire()
      requires Valid()
      modifies this
      ensures Valid() && State() == Expired(old(State()))
    {
      rtt := Min(rtt * 2, DEFAULT_TIMEOUT / 4);
      timeoutCnt := timeoutCnt + 1;
      OnLoss();
    }

    /** ul_check_timeout; result -1 when the upload has finished. */
    method OnTick(now: Time, clock: nat -> Time) returns (count: int, sent: seq<Data>)
      requires Valid()
      modifies this, seqTs, seqTimeout
      ensures Valid() && State() == CheckTimeout(old(State()), now, clock)
      ensures count == if finished then -1 else timeoutCnt
      ensures if TimesOut(old(State()), now)
              then sent == Packets(data, lastAcked, SendLimit(BackOff(old(State()), now)))
              else sent == []
    {
      hide Stamped, Packets, SendLimit;
      sent := [];
      if finished {
        return -1, sent;
      }
      IncreaseWindow(now);
      if seqTimeout[lastAcked + 1] == 0 || now < seqTimeout[lastAcked + 1] {
        return timeoutCnt, sent;
      }
      Expire();
      sent := SendWindow(clock);
      count := timeoutCnt;
    }
  }

  /** start_upload */
  method StartUpload(hasIndex: nat, chunk: seq<Byte>, clock: nat -> Time) returns (u: Uploader, sent: seq<Data>)
    requires |chunk| == CHUNK_SIZE
    ensures fresh(u) && u.Valid() && u.State() == Start(hasIndex, clock) && u.data == chunk
    ensures sent == [Data(1, Slice(chunk, 1))]
  {
    u := new Uploader(hasIndex, chunk);
    sent := u.SendWindow(clock);
  }

  /** update_upload */
  method UpdateUpload(u: Uploader, ack: nat, now: Time, clock: nat -> Time) returns (sent: seq<Data>)
    requires u.Valid()
    modifies u, u.ackCnt, u.seqTs, u.seqTimeout
    ensures u.Valid() && u.State() == Step(old(u.State()), Ack(ack, now, clock))
    ensures var v := HandleAck(old(u.State()), ack, now);
            sent == Packets(u.data, v.lastSent, SendLimit(v))
  {
    u.OnAck(ack, now);
    sent := u.SendWindow(clock);
  }
}
