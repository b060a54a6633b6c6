/**
  The multi-peer scheduler, src/peer_server.c, src/parse_packet.c and src/send_helper.c,
  as functions on the value of the global server record.  PeerServer.dfy holds the
  imperative form and proves it equal to these.
 */
module Scheduler {
  import opened Common
  import S = Sender
  import R = Receiver
  import Sha1Spec
  import Hex

  datatype ChunkState = Unfetched | Fetching | Fetched

  datatype Chunk = Chunk(state: ChunkState, id: int, sha1: string)

  datatype Peer = Peer(
    alive: bool, downloading: bool, uploading: bool,
    dl: R.Download, ul: S.Upload,
    queue: seq<string>)

  /** What the server sends besides DATA and ACK. */
  datatype Message =
    | SendGet(peer: nat, sha1: string)
    | SendWhohas(names: seq<string>)
    | SendIhave(peer: nat, names: seq<string>)

  datatype Server = Server(
    peers: seq<Peer>, chunks: seq<Chunk>, has: seq<string>,
    maxConn: int, dlNum: int, ulNum: int, dlRemain: int,
    lastWhohas: nat, file: seq<Byte>, log: seq<Message>)

  datatype Packet =
    | Whohas(names: seq<string>)
    | Ihave(names: seq<string>)
    | Get(name: string)
    | DataPacket(d: Data)
    | AckPacket(ack: nat)
    | Other

  /** The readings of the clock during one event: one for each peer and purpose, or sequence number. */
  type Clock = (nat, nat) -> Time

  /** The readings ul_send takes for peer p. */
  function Readings(clock: Clock, p: nat): nat -> Time {
    (n: nat) => clock(p, n + 4)
  }

  // ---------------------------------------------------------------- choosing a chunk

  /** The first chunk at or after i that is unfetched and has this name. */
  function FirstUnfetched(chunks: seq<Chunk>, name: string, i: nat): (r: Option<nat>)
    requires i <= |chunks|
    ensures r.Some? ==> i <= r.value < |chunks| && chunks[r.value].state == Unfetched && chunks[r.value].sha1 == name
    ensures r.Some? ==> forall j :: i <= j < r.value ==> !(chunks[j].state == Unfetched && chunks[j].sha1 == name)
    ensures r.None? ==> forall j :: i <= j < |chunks| ==> !(chunks[j].state == Unfetched && chunks[j].sha1 == name)
    decreases |chunks| - i
  {
    if i == |chunks| then None
    else if chunks[i].state == Unfetched && chunks[i].sha1 == name then Some(i)
    else FirstUnfetched(chunks, name, i + 1)
  }

  predicate Wanted(chunks: seq<Chunk>, name: string) {
    exists i :: 0 <= i < |chunks| && chunks[i].state == Unfetched && chunks[i].sha1 == name
  }

  /** The first entry of the queue, at or after k, that names an unfetched chunk. */
  function FirstWanted(queue: seq<string>, chunks: seq<Chunk>, k: nat): (r: Option<nat>)
    requires k <= |queue|
    ensures r.Some? ==> k <= r.value < |queue| && FirstUnfetched(chunks, queue[r.value], 0).Some?
    ensures r.Some? ==> forall j :: k <= j < r.value ==> FirstUnfetched(chunks, queue[j], 0).None?
    ensures r.None? ==> forall j :: k <= j < |queue| ==> FirstUnfetched(chunks, queue[j], 0).None?
    decreases |queue| - k
  {
    if k == |queue| then None
    else if FirstUnfetched(chunks, queue[k], 0).Some? then Some(k)
    else FirstWanted(queue, chunks, k + 1)
  }

  function Without(queue: seq<string>, k: nat): seq<string>
    requires k < |queue|
  {
    queue[..k] + queue[k + 1..]
  }

  /** A chunk's state is assigned; an index outside the list, which Invariant rules out, would change nothing. */
  function Assigned(chunks: seq<Chunk>, i: nat, state: ChunkState): seq<Chunk> {
    if i < |chunks| then chunks[i := chunks[i].(state := state)] else chunks
  }

  /** find_unfetched_chunk, send_get and start_download for one peer. */
  function TrySendGet(s: Server, p: nat, now: nat): (r: Server)
    requires p < |s.peers|
    ensures |r.peers| == |s.peers|
  {
    var k := FirstWanted(s.peers[p].queue, s.chunks, 0);
    if k.None? then s
    else
      var i := FirstUnfetched(s.chunks, s.peers[p].queue[k.value], 0).value;
      s.(peers := s.peers[p := s.peers[p].(queue := Without(s.peers[p].queue, k.value),
                                           downloading := true, dl := R.Init(i, now))],
         chunks := Assigned(s.chunks, i, Fetching),
         dlNum := s.dlNum + 1,
         log := s.log + [SendGet(p, s.chunks[i].sha1)])
  }

  predicate GoodForDownload(p: Peer) {
    p.alive && !p.downloading
  }

  /** The loop of refresh_chunk_download from peer i on. */
  function Refresh(s: Server, i: nat, clock: Clock): (r: Server)
    requires i <= |s.peers|
    ensures |r.peers| == |s.peers|
    decreases |s.peers| - i
  {
    if i == |s.peers| || s.dlNum >= s.maxConn then s
    else if !GoodForDownload(s.peers[i]) then Refresh(s, i + 1, clock)
    else Refresh(TrySendGet(s, i, clock(i, 0)), i + 1, clock)
  }

  function UnfetchedNames(chunks: seq<Chunk>): seq<string> {
    if chunks == [] then []
    else UnfetchedNames(chunks[..|chunks| - 1]) +
         if chunks[|chunks| - 1].state == Unfetched then [chunks[|chunks| - 1].sha1] else []
  }

  /** refresh_chunk_download */
  function RefreshDownloads(s: Server, clock: Clock): Server {
    var r := Refresh(s, 0, clock);
    if r.dlNum == 0 && r.dlRemain > 0 && clock(|s.peers|, 0) - r.lastWhohas > DEFAULT_TIMEOUT then
      r.(log := r.log + [SendWhohas(UnfetchedNames(r.chunks))], lastWhohas := clock(|s.peers|, 1))
    else r
  }

  // ---------------------------------------------------------------- timeouts

  /** kill_download followed by die and, where there is one, kill_upload: peer p is given up. */
  function GiveUp(s: Server, p: nat): (r: Server)
    requires p < |s.peers|
    ensures |r.peers| == |s.peers|
  {
    var q := s.peers[p];
    s.(peers := s.peers[p := q.(alive := false, downloading := false, uploading := false)],
       chunks := if q.downloading then Assigned(s.chunks, q.dl.getIndex, Unfetched) else s.chunks,
       dlNum := s.dlNum - (if q.downloading then 1 else 0),
       ulNum := s.ulNum - (if q.uploading then 1 else 0))
  }

  function DownloadCheck(s: Server, p: nat, clock: Clock): (r: Server)
    requires p < |s.peers|
    ensures |r.peers| == |s.peers|
  {
    var q := s.peers[p];
    if !q.downloading then s
    else
      var d := R.CheckTimeout(q.dl, clock(p, 1), clock(p, 2));
      var t := s.(peers := s.peers[p := q.(dl := d)]);
      if !q.dl.finished && d.timeoutCnt > MAX_TIMEOUT_CNT then GiveUp(t, p) else t
  }

  function UploadCheck(s: Server, p: nat, clock: Clock): (r: Server)
    requires p < |s.peers|
    ensures |r.peers| == |s.peers|
  {
    var q := s.peers[p];
    if !q.uploading then s
    else
      var u := S.CheckTimeout(q.ul, clock(p, 3), Readings(clock, p));
      var t := s.(peers := s.peers[p := q.(ul := u)]);
      if !q.ul.finished && u.timeoutCnt > MAX_TIMEOUT_CNT then GiveUp(t, p) else t
  }

  /** One turn of the loop of check_all_timeout. */
  function CheckPeer(s: Server, p: nat, clock: Clock): (r: Server)
    requires p < |s.peers|
    ensures |r.peers| == |s.peers|
  {
    if !s.peers[p].alive then s else UploadCheck(DownloadCheck(s, p, clock), p, clock)
  }

  function CheckPeers(s: Server, p: nat, clock: Clock): (r: Server)
    requires p <= |s.peers|
    ensures |r.peers| == |s.peers|
    decreases |s.peers| - p
  {
    if p == |s.peers| then s else CheckPeers(CheckPeer(s, p, clock), p + 1, clock)
  }

  /** check_all_timeout */
  function CheckAllTimeout(s: Server, clock: Clock): Server {
    var r := CheckPeers(s, 0, clock);
    if r.dlRemain > 0 then RefreshDownloads(r, clock) else r
  }

  // ---------------------------------------------------------------- packets

  /** write(2) at an offset: a gap before it reads as zeroes; nothing written changes nothing. */
  function WriteAt(file: seq<Byte>, offset: nat, bytes: seq<Byte>): seq<Byte> {
    if bytes == [] then file
    else
      var padded := if |file| < offset then file + seq(offset - |file|, _ => 0) else file;
      padded[..offset] + bytes + (if offset + |bytes| < |padded| then padded[offset + |bytes|..] else [])
  }

  /** check_hash_succeed */
  predicate HashMatches(bytes: seq<Byte>, sha1: string) {
    |sha1| >= 40 && sha1[..40] == Hex.FromBytes(Sha1Spec.Sha1(bytes))
  }

  /**
    Where dl_save_buffer writes.  The product of two C ints wraps at 32 bits; a negative
    one makes lseek fail, which is only logged, and the write goes to the start of the file.
   */
  function Place(id: int): nat {
    var offset := id * CHUNK_SIZE % WORD;
    if offset < WORD / 2 then offset else 0
  }

  /** dl_save_buffer; written is how many bytes of the buffer reached the file. */
  function SaveBuffer(s: Server, d: R.Download, written: nat): Server
    requires d.getIndex < |s.chunks|
  {
    var n := if written < CHUNK_SIZE then written else CHUNK_SIZE;
    var f := s.(file := WriteAt(s.file, Place(s.chunks[d.getIndex].id), d.buffer[..n]));
    if n == CHUNK_SIZE then
      f.(chunks := Assigned(s.chunks, d.getIndex, Fetched), dlRemain := s.dlRemain - 1)
    else f
  }

  /** What follows the last DATA of a chunk: peer p is idle again, the chunk fetched or back on the list. */
  function FinishDownload(s: Server, p: nat, written: nat): Server
    requires p < |s.peers| && s.peers[p].dl.getIndex < |s.chunks|
  {
    var d := s.peers[p].dl;
    var t := s.(dlNum := s.dlNum - 1, peers := s.peers[p := s.peers[p].(downloading := false)]);
    var u := if HashMatches(d.buffer, s.chunks[d.getIndex].sha1) then SaveBuffer(t, d, written) else t;
    if u.chunks[d.getIndex].state != Fetched
    then u.(chunks := Assigned(u.chunks, d.getIndex, Unfetched)) else u
  }

  /** A download whose index lies outside the list, which Invariant rules out, would do nothing here. */
  function OnData(s: Server, p: nat, d: Data, clock: Clock, written: nat): Server
    requires p < |s.peers|
  {
    var q := s.peers[p];
    if !q.alive || !q.downloading || q.dl.getIndex >= |s.chunks| then s
    else
      var t := s.(peers := s.peers[p := q.(dl := R.Recv(q.dl, d, clock(p, 1), clock(p, 2)))]);
      if !t.peers[p].dl.finished then t
      else
        var f := FinishDownload(t, p, written);
        if f.dlRemain > 0 then RefreshDownloads(f, clock) else f
  }

  /** hash2Index */
  function IndexOf(names: seq<string>, name: string): (r: Option<nat>)
    ensures r.Some? ==> r.value < |names| && names[r.value] == name && name !in names[..r.value]
    ensures r.None? ==> name !in names
  {
    if names == [] then None
    else if names[0] == name then Some(0)
    else match IndexOf(names[1..], name)
         case None => None
         case Some(i) => Some(i + 1)
  }

  /** send_ihave: the asked names that are held here, in the order asked. */
  function Held(names: seq<string>, has: seq<string>): seq<string> {
    if names == [] then []
    else Held(names[..|names| - 1], has) +
         if names[|names| - 1] in has then [names[|names| - 1]] else []
  }

  function OnWhohas(s: Server, p: nat, names: seq<string>): Server
    requires p < |s.peers|
  {
    if s.ulNum >= s.maxConn then s
    else
      var t := s.(peers := s.peers[p := s.peers[p].(alive := true)]);
      if t.peers[p].uploading || Held(names, s.has) == [] then t
      else t.(log := t.log + [SendIhave(p, Held(names, s.has))])
  }

  function OnIhave(s: Server, p: nat, names: seq<string>, clock: Clock): Server
    requires p < |s.peers|
  {
    var t := s.(peers := s.peers[p := s.peers[p].(alive := true)]);
    if t.peers[p].downloading then t
    else
      var u := t.(peers := t.peers[p := t.peers[p].(queue := names)]);
      if u.dlNum >= u.maxConn then u else TrySendGet(u, p, clock(p, 0))
  }

  function OnGet(s: Server, p: nat, name: string, clock: Clock): Server
    requires p < |s.peers|
  {
    if !s.peers[p].alive || s.ulNum >= s.maxConn || IndexOf(s.has, name).None? then s
    else
      s.(peers := s.peers[p := s.peers[p].(ul := S.Start(IndexOf(s.has, name).value, Readings(clock, p)),
                                           uploading := true)],
         ulNum := s.ulNum - (if s.peers[p].uploading then 1 else 0) + 1)
  }

  function OnAck(s: Server, p: nat, ack: nat, clock: Clock): Server
    requires p < |s.peers|
  {
    var q := s.peers[p];
    if !q.alive || !q.uploading then s
    else
      var u := S.Step(q.ul, S.Ack(ack, clock(p, 3), Readings(clock, p)));
      if u.finished then s.(peers := s.peers[p := q.(ul := u, uploading := false)], ulNum := s.ulNum - 1)
      else s.(peers := s.peers[p := q.(ul := u)])
  }

  /** parse_packet, for a packet from the peer with index p; packets of strangers are dropped. */
  function ParsePacket(s: Server, p: nat, pkt: Packet, clock: Clock, written: nat): Server {
    if p >= |s.peers| then s
    else
      match pkt
      case Whohas(names) => OnWhohas(s, p, names)
      case Ihave(names) => OnIhave(s, p, names, clock)
      case Get(name) => OnGet(s, p, name, clock)
      case DataPacket(d) => OnData(s, p, d, clock, written)
      case AckPacket(ack) => OnAck(s, p, ack, clock)
      case Other => s
  }

  /** process_get: a list of chunks to fetch into a file with the given contents. */
  function LoadList(s: Server, list: seq<(int, string)>, file: seq<Byte>, now: nat): Server {
    var chunks := seq(|list|, i requires 0 <= i < |list| => Chunk(Unfetched, list[i].0, list[i].1));
    s.(chunks := chunks, dlRemain := |list|, file := file, lastWhohas := now,
       log := s.log + [SendWhohas(UnfetchedNames(chunks))])
  }

  // ---------------------------------------------------------------- runs

  datatype Event =
    | Received(p: nat, pkt: Packet, clock: Clock, written: nat)
    | Timer(clock: Clock)
    | UserGet(list: seq<(int, string)>, file: seq<Byte>, now: nat)

  /** The chunks of one list have places of their own in the file. */
  predicate DistinctPlaces(list: seq<(int, string)>) {
    forall i, j :: 0 <= i < j < |list| ==> Place(list[i].0) != Place(list[j].0)
  }

  /** A new list is loaded only while nothing is being downloaded. */
  predicate Admissible(s: Server, e: Event) {
    e.UserGet? ==> s.dlNum == 0 && DistinctPlaces(e.list)
  }

  function Step(s: Server, e: Event): Server {
    match e
    case Received(p, pkt, clock, written) => ParsePacket(s, p, pkt, clock, written)
    case Timer(clock) => CheckAllTimeout(s, clock)
    case UserGet(list, file, now) => LoadList(s, list, file, now)
  }

  /** peer_init: nobody is known to be alive and there is nothing to fetch yet. */
  ghost predicate Initial(s: Server) {
    && (forall p :: 0 <= p < |s.peers| ==>
          !s.peers[p].alive && !s.peers[p].downloading && !s.peers[p].uploading && s.peers[p].queue == [])
    && s.chunks == [] && s.dlNum == s.ulNum == s.dlRemain == 0 && s.log == []
  }
}
