/**
  Hash lists in WHOHAS and IHAVE packets: send_packet of src/packet.c splits them, the
  macros of src/include/packet.h read them back.
 */
module HashPackets {
  import opened Common
  import Hex
  import Scheduler
  import SchedulerEvents

  const HASH_SIZE: nat := 20            // src/include/sha.h:34
  const MAX_PAYLOAD_SIZE: nat := 1484   // src/include/packet.h:40
  const HASH_NUM_PKT: nat := 74         // src/include/packet.h:33

  /** The payload of a hash packet: one count byte, three more, and the hashes. */
  datatype Frame = Frame(count: nat, body: seq<Byte>) {
    /** GET_DATA_LEN */
    function DataLen(): nat {
      4 + |body|
    }
  }

  // ---------------------------------------------------------------- reading

  /** HASH_OFFSET: never past the last place a hash could start. */
  function HashOffset(dataLen: nat, n: nat): nat {
    Min(Max(dataLen - HASH_SIZE, 0), 4 + n * HASH_SIZE)
  }

  /** What valid_packet asks of a WHOHAS or IHAVE packet. */
  predicate Valid(f: Frame) {
    && f.DataLen() <= MAX_PAYLOAD_SIZE
    && 0 < f.count <= (f.DataLen() - 4) / HASH_SIZE
  }

  /** In a valid packet the guard in HASH_OFFSET never bites, and every hash lies inside. */
  lemma OffsetsAreExact(f: Frame, n: nat)
    requires Valid(f) && n < f.count
    ensures HashOffset(f.DataLen(), n) == 4 + n * HASH_SIZE <= f.DataLen() - HASH_SIZE
  {
  }

  /** GET_HASH */
  function HashAt(f: Frame, n: nat): (name: string)
    requires Valid(f) && n < f.count
    ensures |name| == 40
  {
    OffsetsAreExact(f, n);
    var from := HashOffset(f.DataLen(), n) - 4;
    Hex.FromBytes(f.body[from .. from + HASH_SIZE])
  }

  function Names(f: Frame, n: nat): (r: seq<string>)
    requires Valid(f) && n <= f.count
    ensures |r| == n
  {
    if n == 0 then [] else Names(f, n - 1) + [HashAt(f, n - 1)]
  }

  /** What the receiver gets out of one packet; invalid ones are dropped. */
  function Read(f: Frame): seq<string> {
    if Valid(f) then Names(f, f.count) else []
  }

  /**
    Names are read out of a packet exactly when it is short enough, announces at least one
    hash and has as many as it announces, and then just that many.
   */
  lemma ReadsWhatIsAnnounced(f: Frame)
    ensures Read(f) != [] <==> 4 + |f.body| <= MAX_PAYLOAD_SIZE && 0 < f.count && HASH_SIZE * f.count <= |f.body|
    ensures Valid(f) <==> Read(f) != []
    ensures Read(f) != [] ==> |Read(f)| == f.count
  {
    hide HashAt;
  }

  function ReadAll(frames: seq<Frame>): seq<string> {
    if frames == [] then [] else ReadAll(frames[..|frames| - 1]) + Read(frames[|frames| - 1])
  }

  // ---------------------------------------------------------------- writing

  predicate IsName(s: string) {
    |s| == 40 && Hex.LowerHex(s)
  }

  /** The names chosen by the flags among the first n. */
  function Chosen(names: seq<string>, keep: seq<bool>, n: nat): (r: seq<string>)
    requires |keep| == |names| && n <= |names|
  {
    if n == 0 then [] else Chosen(names, keep, n - 1) + if keep[n - 1] then [names[n - 1]] else []
  }

  /** The names from m on add nothing exactly when none of them is wanted. */
  lemma {:induction false} NothingChosenBetween(names: seq<string>, keep: seq<bool>, m: nat, n: nat)
    requires |keep| == |names| && m <= n <= |names|
    ensures |Chosen(names, keep, m)| <= |Chosen(names, keep, n)|
    ensures Chosen(names, keep, n) == Chosen(names, keep, m) <==> forall i :: m <= i < n ==> !keep[i]
    decreases n
  {
    if m < n {
      NothingChosenBetween(names, keep, m, n - 1);
    }
  }

  function Packed(names: seq<string>): (r: seq<Byte>)
    requires forall i :: 0 <= i < |names| ==> IsName(names[i])
    ensures |r| == HASH_SIZE * |names|
  {
    if names == [] then [] else
    assert IsName(names[|names| - 1]);
    Packed(names[..|names| - 1]) + Hex.ToBytes(names[|names| - 1])
  }

  /** pkt_num of send_packet: the bytes of all hashes over the bytes of a payload. */
  function PacketCount(c: nat): nat {
    (c * HASH_SIZE + MAX_PAYLOAD_SIZE - 1) / MAX_PAYLOAD_SIZE
  }

  /** How many names of a list get into the packets. */
  function Carried(c: nat): (n: nat)
    ensures n <= c
  {
    Min(c, HASH_NUM_PKT * PacketCount(c))
  }

  /** Reading a freshly packed frame gives the names that went in. */
  lemma {:induction false} ReadPacked(names: seq<string>, f: Frame, n: nat)
    requires forall i :: 0 <= i < |names| ==> IsName(names[i])
    requires n <= |names| <= HASH_NUM_PKT && f == Frame(|names|, Packed(names)) && names != []
    ensures Valid(f) && Names(f, n) == names[..n]
  {
    hide Hex.FromBytes, Hex.ToBytes, Hex.LowerHex;
    if n > 0 {
      ReadPacked(names, f, n - 1);
      OffsetsAreExact(f, n - 1);
      PackedAt(names, n - 1);
      Hex.TextThroughBytes(names[n - 1]);
    }
  }

  lemma {:induction false} PackedAt(names: seq<string>, i: nat)
    requires forall j :: 0 <= j < |names| ==> IsName(names[j])
    requires i < |names|
    ensures Packed(names)[i * HASH_SIZE .. i * HASH_SIZE + HASH_SIZE] == Hex.ToBytes(names[i])
  {
    hide Hex.ToBytes, Hex.LowerHex;
    if i < |names| - 1 {
      PackedAt(names[..|names| - 1], i);
    }
  }

  lemma ReadOfPacked(names: seq<string>)
    requires |names| <= HASH_NUM_PKT && forall i :: 0 <= i < |names| ==> IsName(names[i])
    ensures Read(Frame(|names|, Packed(names))) == names
  {
    if names != [] {
      ReadPacked(names, Frame(|names|, Packed(names)), |names|);
      assert names[..|names|] == names;
    }
  }

  /**
    send_packet for a hash list: keep says which names are wanted (the unfetched ones for
    WHOHAS, all of them for IHAVE).  What the receiver reads out of the packets, in
    order, is exactly the wanted ones among the names carried; none of the wanted ones is
    lost if and only if none of them comes after those.
   */
  method SendHashes(names: seq<string>, keep: seq<bool>) returns (frames: seq<Frame>)
    requires |keep| == |names| && forall i :: 0 <= i < |names| ==> IsName(names[i])
    ensures |frames| == PacketCount(|names|)
    ensures ReadAll(frames) == Chosen(names, keep, Carried(|names|))
    ensures ReadAll(frames) == Chosen(names, keep, |names|) <==>
            forall i :: Carried(|names|) <= i < |names| ==> !keep[i]
    ensures forall k :: 0 <= k < |frames| ==> frames[k].DataLen() <= MAX_PAYLOAD_SIZE && frames[k].count <= HASH_NUM_PKT
  {
    hide Hex.ToBytes, Hex.LowerHex, Read, Valid;
    frames := [];
    var j := 0;
    var pktNum := PacketCount(|names|);
    for i := 0 to pktNum
      invariant j == Min(|names|, HASH_NUM_PKT * i) && |frames| == i
      invariant ReadAll(frames) == Chosen(names, keep, j)
      invariant forall k :: 0 <= k < |frames| ==>
              frames[k].DataLen() <= MAX_PAYLOAD_SIZE && frames[k].count <= HASH_NUM_PKT
    {
      var f;
      f, j := FillPacket(names, keep, j, Min(|names|, HASH_NUM_PKT * (i + 1)));
      assert (frames + [f])[..i] == frames;
      frames := frames + [f];
    }
    NothingChosenBetween(names, keep, Carried(|names|), |names|);
  }

  /** The inner loop of send_packet: names from to limit into one packet. */
  method FillPacket(names: seq<string>, keep: seq<bool>, from: nat, limit: nat) returns (f: Frame, j: nat)
    requires |keep| == |names| && forall i :: 0 <= i < |names| ==> IsName(names[i])
    requires from <= limit <= |names| && limit - from <= HASH_NUM_PKT
    ensures j == limit && f.DataLen() <= MAX_PAYLOAD_SIZE && f.count <= HASH_NUM_PKT
    ensures Chosen(names, keep, limit) == Chosen(names, keep, from) + Read(f)
  {
    hide Hex.ToBytes, Hex.LowerHex, Read, Valid;
    var cnt, body := 0, [];
    ghost var taken: seq<string> := [];
    j := from;
    while j < limit
      invariant from <= j <= limit && cnt == |taken| <= j - from
      invariant forall i :: 0 <= i < |taken| ==> IsName(taken[i])
      invariant body == Packed(taken)
      invariant Chosen(names, keep, j) == Chosen(names, keep, from) + taken
    {
      if keep[j] {
        var bytes := Hex.Hex2Binary(names[j]);
        body := body + bytes;
        assert (taken + [names[j]])[..cnt] == taken;
        taken := taken + [names[j]];
        cnt := cnt + 1;
      }
      j := j + 1;
    }
    ReadOfPacked(taken);
    f := Frame(cnt, body);
  }

  // ---------------------------------------------------------------- what gets lost

  /** Lists of up to 370 names are carried whole. */
  lemma NothingLostUpTo370(c: nat)
    requires c <= 370
    ensures Carried(c) == c
  {
  }

  /** The count formula divides by payload bytes, not by hashes a payload holds: 371 names need a sixth packet. */
  lemma ThreeSeventyOneLosesOne()
    ensures PacketCount(371) == 5 && Carried(371) == 370
  {
  }

  /**
    Exactly which list lengths are carried whole: with c = 371 a + b, the five packets for
    every 371 names fall a short.
   */
  lemma CarriedWhole(a: nat, b: nat)
    requires 1 <= b <= 371
    ensures PacketCount(371 * a + b) == 5 * a + PacketCount(b)
    ensures Carried(371 * a + b) == 371 * a + b <==> a + b <= HASH_NUM_PKT * PacketCount(b)
  {
  }

  // ---------------------------------------------------------------- one exchange

  function AllOf(n: nat): seq<bool> {
    seq(n, _ => true)
  }

  lemma {:induction false} ChosenAll(names: seq<string>, n: nat)
    requires n <= |names|
    ensures Chosen(names, AllOf(|names|), n) == names[..n]
  {
    if n > 0 {
      ChosenAll(names, n - 1);
    }
  }

  lemma {:induction false} HeldAreNames(names: seq<string>, has: seq<string>)
    requires forall i :: 0 <= i < |names| ==> IsName(names[i])
    ensures |Scheduler.Held(names, has)| <= |names|
    ensures forall i :: 0 <= i < |Scheduler.Held(names, has)| ==> IsName(Scheduler.Held(names, has)[i])
  {
    if names != [] {
      HeldAreNames(names[..|names| - 1], has);
    }
  }

  lemma {:induction false} NamesAreNames(f: Frame, n: nat)
    requires Valid(f) && n <= f.count
    ensures forall i :: 0 <= i < n ==> IsName(Names(f, n)[i])
  {
    hide Hex.LowerHex, Hex.FromBytes;
    if n > 0 {
      NamesAreNames(f, n - 1);
      OffsetsAreExact(f, n - 1);
      var from := HashOffset(f.DataLen(), n - 1) - 4;
      Hex.TextIsLowerHex(f.body[from .. from + HASH_SIZE]);
    }
  }

  /**
    One valid WHOHAS packet and its answer: the asker's queue ends up as the names asked
    for that the other side has, in the order asked, out of a single IHAVE packet (or
    none when there are none).
   */
  method Exchange(whohas: Frame, has: seq<string>) returns (ihave: seq<Frame>, queue: seq<string>)
    requires Valid(whohas)
    ensures queue == Scheduler.Held(Read(whohas), has) == ReadAll(ihave)
    ensures forall n :: multiset(queue)[n] == if n in has then multiset(Read(whohas))[n] else 0
    ensures exists idx :: Picked(queue, Read(whohas), idx)
    ensures |ihave| == if queue == [] then 0 else 1
  {
    hide Hex.FromBytes, Hex.LowerHex, HashAt, Names, IsName;
    var asked := Names(whohas, whohas.count);
    NamesAreNames(whohas, whohas.count);
    HeldAreNames(asked, has);
    var held := Scheduler.Held(asked, has);
    ihave := SendHashes(held, AllOf(|held|));
    ChosenAll(held, |held|);
    assert held[..|held|] == held;
    queue := ReadAll(ihave);
    ghost var idx := SchedulerEvents.HeldPicksWhatIsHeld(asked, has);
    forall n: string
      ensures multiset(held)[n] == if n in has then multiset(asked)[n] else 0
    {
      SchedulerEvents.HeldAsOftenAsAsked(asked, has, n);
    }
  }
}
