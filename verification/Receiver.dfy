/**
  The receiving half of one chunk transfer, src/download.c, as functions on the value of
  a download_t.  Downloader.dfy holds the imperative form and proves it equal to these.
 */
module Receiver {
  import opened Common
  import RingWindow
  import Rtt

  const LOSS_ACK_NUM: nat := 3   // src/include/download.h:17

  datatype DownloadFields = DownloadFields(
    getIndex: nat, ts: nat, timeoutCnt: nat,
    win: RingWindow.Window,
    rtt: nat, dev: nat,
    started: bool, blockUpdate: bool, finished: bool,
    buffer: seq<Byte>, dataLength: nat)

  ghost predicate InBounds(d: DownloadFields) {
    |d.buffer| == CHUNK_SIZE && RingWindow.WellFormed(d.win) && 1 <= d.win.next
  }

  function Blank(): seq<Byte> {
    seq(CHUNK_SIZE, _ => 0)
  }

  function Cleared(getIndex: nat, now: nat): DownloadFields {
    DownloadFields(getIndex, now, 0, RingWindow.EMPTY, 0, 0, false, false, false, Blank(), 0)
  }

  type Download = d: DownloadFields | InBounds(d) ghost witness Cleared(0, 0)

  /** dl_init */
  function Init(getIndex: nat, now: nat): Download {
    Cleared(getIndex, now)
  }

  /** The number get_ack answers with: one less than the next number expected. */
  function AckNumber(d: Download): nat {
    d.win.next - 1
  }

  /** The estimate is fed, or, for the first packet and after a timeout, the payload length recorded. */
  function Clocked(d: Download, length: nat, now: nat): Download {
    if d.started && !d.blockUpdate then
      var e := Rtt.Update(Rtt.Estimate(d.rtt, d.dev), d.ts, now);
      d.(rtt := e.rtt, dev := e.dev)
    else
      d.(dataLength := length, started := true, blockUpdate := false)
  }

  function Overwrite(buffer: seq<Byte>, offset: nat, payload: seq<Byte>): (r: seq<Byte>)
    requires offset + |payload| <= |buffer|
    ensures |r| == |buffer|
  {
    buffer[..offset] + payload + buffer[offset + |payload|..]
  }

  /** The packet lies in the window and its bytes in the buffer. */
  predicate Admits(d: Download, p: Data) {
    RingWindow.Fits(d.win, p.num) && (p.num - 1) * d.dataLength + |p.payload| <= CHUNK_SIZE
  }

  /** The payload is copied and its number marked unless the number is there already. */
  function Stored(d: Download, p: Data): Download
    requires Admits(d, p)
  {
    if p.num in d.win.held then d
    else d.(buffer := Overwrite(d.buffer, (p.num - 1) * d.dataLength, p.payload),
            win := RingWindow.Mark(d.win, p.num))
  }

  function Slid(d: Download): Download {
    RingWindow.SlideFindsLeastMissing(d.win);
    d.(win := RingWindow.Slide(d.win))
  }

  /** An admitted packet is stored, the window slid and the ack sent; t is the clock read afterwards. */
  function Accepted(c: Download, p: Data, t: nat): Download
    requires Admits(c, p)
  {
    var s := Slid(Stored(c, p));
    s.(ts := t, timeoutCnt := 0, finished := AckNumber(s) * s.dataLength >= CHUNK_SIZE || s.finished)
  }

  lemma AckIgnoresTheClock(c: Download, p: Data, t: nat)
    requires Admits(c, p)
    ensures AckNumber(Accepted(c, p, t)) == AckNumber(Accepted(c, p, 0))
  {
  }

  /** dl_recv */
  function Recv(d: Download, p: Data, now: nat, t: nat): Download {
    if d.finished then d
    else
      var c := Clocked(d, |p.payload|, now);
      if Admits(c, p) then Accepted(c, p, t) else c
  }

  /** The ack dl_recv sends; packets outside the window are not acknowledged. */
  function RecvAcks(d: Download, p: Data, now: nat): Option<nat> {
    if d.finished || !Admits(Clocked(d, |p.payload|, now), p) then None
    else Some(AckNumber(Accepted(Clocked(d, |p.payload|, now), p, 0)))
  }

  predicate TimesOut(d: Download, now: nat) {
    !d.finished && !(d.rtt == 0 && now - d.ts < DEFAULT_TIMEOUT) && now - d.ts >= DEFAULT_TIMEOUT / 2
  }

  /** n acks alike. */
  function Times(n: nat, ack: nat): seq<nat> {
    seq(n, _ => ack)
  }

  /** dl_check_timeout; on a timeout LOSS_ACK_NUM copies of AckNumber go out. */
  function CheckTimeout(d: Download, now: nat, t: nat): Download {
    if TimesOut(d, now) then Slid(d).(timeoutCnt := d.timeoutCnt + 1, ts := t, blockUpdate := true) else d
  }
}
