/**
  What every reachable state of the scheduler satisfies, whatever packets and timeouts
  arrive in whatever order.
 */
module SchedulerInvariant {
  import opened Common
  import opened Scheduler
  import S = Sender
  import R = Receiver

  // ---------------------------------------------------------------- who fetches what

  /** The chunk a peer is being asked for, if any. */
  function Job(q: Peer): Option<nat> {
    if q.downloading then Some(q.dl.getIndex) else None
  }

  function Jobs(peers: seq<Peer>): (r: seq<Option<nat>>)
    ensures |r| == |peers|
    ensures forall p :: 0 <= p < |peers| ==> r[p] == Job(peers[p])
  {
    seq(|peers|, p requires 0 <= p < |peers| => Job(peers[p]))
  }

  function Busy(jobs: seq<Option<nat>>): nat {
    if jobs == [] then 0
    else Busy(jobs[..|jobs| - 1]) + if jobs[|jobs| - 1].Some? then 1 else 0
  }

  ghost predicate HasJob(jobs: seq<Option<nat>>, p: nat, i: nat) {
    p < |jobs| && jobs[p] == Some(i)
  }

  /** The chunks in state Fetching and the jobs correspond one to one. */
  ghost predicate Matching(jobs: seq<Option<nat>>, chunks: seq<Chunk>) {
    && (forall p: nat, i: nat :: HasJob(jobs, p, i) ==> i < |chunks| && chunks[i].state == Fetching)
    && (forall p: nat, q: nat, i: nat :: HasJob(jobs, p, i) && HasJob(jobs, q, i) ==> p == q)
    && (forall i :: 0 <= i < |chunks| && chunks[i].state == Fetching ==> exists p: nat :: HasJob(jobs, p, i))
  }

  lemma {:induction false} BusyAfterUpdate(jobs: seq<Option<nat>>, p: nat, job: Option<nat>)
    requires p < |jobs|
    ensures Busy(jobs[p := job]) == Busy(jobs) - (if jobs[p].Some? then 1 else 0) + (if job.Some? then 1 else 0)
  {
    var front, last := jobs[..|jobs| - 1], jobs[|jobs| - 1];
    if p == |jobs| - 1 {
      assert jobs[p := job][..p] == front;
    } else {
      BusyAfterUpdate(front, p, job);
      assert jobs[p := job][..|jobs| - 1] == front[p := job];
    }
  }

  lemma JobsAfterUpdate(peers: seq<Peer>, p: nat, q: Peer)
    requires p < |peers|
    ensures Jobs(peers[p := q]) == Jobs(peers)[p := Job(q)]
  {
  }

  lemma JobGiven(jobs: seq<Option<nat>>, chunks: seq<Chunk>, p: nat, i: nat)
    requires Matching(jobs, chunks) && p < |jobs| && jobs[p].None?
    requires i < |chunks| && chunks[i].state == Unfetched
    ensures Matching(jobs[p := Some(i)], Assigned(chunks, i, Fetching))
  {
    var js, cs := jobs[p := Some(i)], Assigned(chunks, i, Fetching);
    assert forall q: nat, j: nat :: HasJob(js, q, j) <==> (q == p && j == i) || HasJob(jobs, q, j);
    assert HasJob(js, p, i);
  }

  lemma JobTaken(jobs: seq<Option<nat>>, chunks: seq<Chunk>, p: nat, state: ChunkState)
    requires Matching(jobs, chunks) && p < |jobs| && jobs[p].Some? && state != Fetching
    ensures jobs[p].value < |chunks| && chunks[jobs[p].value].state == Fetching
    ensures Matching(jobs[p := None], Assigned(chunks, jobs[p].value, state))
  {
    var i := jobs[p].value;
    assert HasJob(jobs, p, i);
    var js, cs := jobs[p := None], Assigned(chunks, i, state);
    assert forall q: nat, j: nat :: HasJob(js, q, j) <==> q != p && HasJob(jobs, q, j);
  }

  // ---------------------------------------------------------------- counting

  function Uploading(peers: seq<Peer>): nat {
    if peers == [] then 0
    else Uploading(peers[..|peers| - 1]) + if peers[|peers| - 1].uploading then 1 else 0
  }

  lemma {:induction false} UploadingAfterUpdate(peers: seq<Peer>, p: nat, q: Peer)
    requires p < |peers|
    ensures Uploading(peers[p := q]) ==
            Uploading(peers) - (if peers[p].uploading then 1 else 0) + (if q.uploading then 1 else 0)
  {
    var front := peers[..|peers| - 1];
    if p == |peers| - 1 {
      assert peers[p := q][..p] == front;
    } else {
      UploadingAfterUpdate(front, p, q);
      assert peers[p := q][..|peers| - 1] == front[p := q];
    }
  }

  function NotFetched(chunks: seq<Chunk>): nat {
    if chunks == [] then 0
    else NotFetched(chunks[..|chunks| - 1]) + if chunks[|chunks| - 1].state != Fetched then 1 else 0
  }

  lemma {:induction false} NotFetchedAfterAssignment(chunks: seq<Chunk>, i: nat, state: ChunkState)
    requires i < |chunks|
    ensures NotFetched(Assigned(chunks, i, state)) ==
            NotFetched(chunks) - (if chunks[i].state != Fetched then 1 else 0) + (if state != Fetched then 1 else 0)
  {
    var front, all := chunks[..|chunks| - 1], Assigned(chunks, i, state);
    if i == |chunks| - 1 {
      assert all[..i] == front;
    } else {
      NotFetchedAfterAssignment(front, i, state);
      assert all[..|chunks| - 1] == Assigned(front, i, state);
    }
  }

  // ---------------------------------------------------------------- the output file

  lemma PlaceInWords(id: int)
    ensures Place(id) == if id % 8192 < 4096 then id % 8192 * CHUNK_SIZE else 0
  {
    var q, r := id / 8192, id % 8192;
    WrapsAt(q, r * CHUNK_SIZE);
    assert id * CHUNK_SIZE == q * WORD + r * CHUNK_SIZE;
  }

  lemma WrapsAt(q: int, x: nat)
    requires x < WORD
    ensures (q * WORD + x) % WORD == x
  {
  }

  /** A chunk is written where it belongs exactly when its offset fits a C int. */
  lemma PlaceIsRightUpTo4096(id: int)
    ensures Place(id) == id * CHUNK_SIZE <==> 0 <= id < 4096
  {
    PlaceInWords(id);
  }

  lemma PlacesAreApart(a: int, b: int)
    requires Place(a) != Place(b)
    ensures Place(a) + CHUNK_SIZE <= Place(b) || Place(b) + CHUNK_SIZE <= Place(a)
  {
    PlaceInWords(a);
    PlaceInWords(b);
  }

  /** Different ids are enough for different places as long as the offsets fit. */
  lemma SmallIdsHavePlaces(list: seq<(int, string)>)
    requires forall i :: 0 <= i < |list| ==> 0 <= list[i].0 < 4096
    ensures DistinctPlaces(list) <==> forall i, j :: 0 <= i < j < |list| ==> list[i].0 != list[j].0
  {
    forall i | 0 <= i < |list|
      ensures Place(list[i].0) == list[i].0 * CHUNK_SIZE
    {
      PlaceIsRightUpTo4096(list[i].0);
    }
  }

  /** The region of the chunk with this id is there and its bytes have the listed hash. */
  ghost predicate InFile(file: seq<Byte>, c: Chunk) {
    && Place(c.id) + CHUNK_SIZE <= |file|
    && HashMatches(file[Place(c.id) .. Place(c.id) + CHUNK_SIZE], c.sha1)
  }

  ghost predicate FileHolds(chunks: seq<Chunk>, file: seq<Byte>) {
    forall i :: 0 <= i < |chunks| && chunks[i].state == Fetched ==> InFile(file, chunks[i])
  }

  predicate PlacesDiffer(chunks: seq<Chunk>) {
    forall i, j :: 0 <= i < j < |chunks| ==> Place(chunks[i].id) != Place(chunks[j].id)
  }

  /** A write inside the region of one id leaves the regions of the others as they were. */
  lemma WriteElsewhere(file: seq<Byte>, bytes: seq<Byte>, id: int, c: Chunk)
    requires |bytes| <= CHUNK_SIZE && Place(c.id) != Place(id) && InFile(file, c)
    ensures InFile(WriteAt(file, Place(id), bytes), c)
  {
    hide HashMatches, Place, WriteAt;
    PlacesAreApart(c.id, id);
    RegionUntouched(file, Place(id), bytes, Place(c.id), Place(c.id) + CHUNK_SIZE);
  }

  lemma RegionUntouched(file: seq<Byte>, offset: nat, bytes: seq<Byte>, from: nat, to: nat)
    requires from <= to <= |file| && (to <= offset || offset + |bytes| <= from)
    ensures |WriteAt(file, offset, bytes)| >= |file| && WriteAt(file, offset, bytes)[from..to] == file[from..to]
  {
    hide WriteAt;
    var f := WriteAt(file, offset, bytes);
    WriteIsNoShorter(file, offset, bytes);
    forall k | from <= k < to
      ensures f[k] == file[k]
    {
      ByteUntouched(file, offset, bytes, k);
    }
  }

  lemma WriteIsNoShorter(file: seq<Byte>, offset: nat, bytes: seq<Byte>)
    ensures |WriteAt(file, offset, bytes)| >= |file|
  {
  }

  lemma ByteUntouched(file: seq<Byte>, offset: nat, bytes: seq<Byte>, k: nat)
    requires k < |file| && (k < offset || offset + |bytes| <= k)
    ensures k < |WriteAt(file, offset, bytes)| && WriteAt(file, offset, bytes)[k] == file[k]
  {
  }

  lemma WriteHere(file: seq<Byte>, bytes: seq<Byte>, id: int, c: Chunk)
    requires |bytes| == CHUNK_SIZE && Place(c.id) == Place(id)
    ensures InFile(WriteAt(file, Place(id), bytes), c) <==> HashMatches(bytes, c.sha1)
  {
    hide HashMatches, Place;
    var f := WriteAt(file, Place(id), bytes);
    assert f[Place(c.id) .. Place(c.id) + CHUNK_SIZE] == bytes;
  }

  // ---------------------------------------------------------------- the invariant

  ghost predicate Liveness(peers: seq<Peer>) {
    forall p :: 0 <= p < |peers| && !peers[p].alive ==> !peers[p].downloading && !peers[p].uploading
  }

  ghost predicate Invariant(s: Server) {
    && Matching(Jobs(s.peers), s.chunks)
    && s.dlNum == Busy(Jobs(s.peers)) && s.ulNum == Uploading(s.peers)
    && s.dlNum <= Max(s.maxConn, 0) && s.ulNum <= Max(s.maxConn, 0)
    && Liveness(s.peers)
    && s.dlRemain == NotFetched(s.chunks)
    && PlacesDiffer(s.chunks) && FileHolds(s.chunks, s.file)
  }

  /** Nothing fetched is lost, and the list itself stays as it was loaded. */
  ghost predicate Advances(before: seq<Chunk>, after: seq<Chunk>) {
    && |before| == |after|
    && forall i :: 0 <= i < |before| ==>
         && before[i].id == after[i].id && before[i].sha1 == after[i].sha1
         && (before[i].state == Fetched ==> after[i].state == Fetched)
  }

  lemma AdvancesTransitively(a: seq<Chunk>, b: seq<Chunk>, c: seq<Chunk>)
    requires Advances(a, b) && Advances(b, c)
    ensures Advances(a, c)
  {
  }

  /** A peer changes in ways that leave its part in the bookkeeping alone. */
  lemma PeerKeeps(s: Server, p: nat, q: Peer)
    requires Invariant(s) && p < |s.peers|
    requires Job(q) == Job(s.peers[p]) && q.uploading == s.peers[p].uploading
    requires q.alive || q == s.peers[p].(dl := q.dl, ul := q.ul, queue := q.queue)
    ensures Invariant(s.(peers := s.peers[p := q]))
  {
    hide FileHolds, Matching, Busy, Uploading;
    JobsAfterUpdate(s.peers, p, q);
    BusyAfterUpdate(Jobs(s.peers), p, Job(q));
    UploadingAfterUpdate(s.peers, p, q);
    assert Jobs(s.peers)[p := Job(q)] == Jobs(s.peers);
  }

  lemma TrySendGetKeeps(s: Server, p: nat, now: nat)
    requires Invariant(s) && p < |s.peers| && GoodForDownload(s.peers[p]) && s.dlNum < s.maxConn
    ensures Invariant(TrySendGet(s, p, now)) && Advances(s.chunks, TrySendGet(s, p, now).chunks)
  {
    hide Busy, Uploading, InFile, NotFetched, Matching;
    var k := FirstWanted(s.peers[p].queue, s.chunks, 0);
    if k.Some? {
      var i := FirstUnfetched(s.chunks, s.peers[p].queue[k.value], 0).value;
      var t := TrySendGet(s, p, now);
      JobsAfterUpdate(s.peers, p, t.peers[p]);
      JobGiven(Jobs(s.peers), s.chunks, p, i);
      BusyAfterUpdate(Jobs(s.peers), p, Some(i));
      UploadingAfterUpdate(s.peers, p, t.peers[p]);
      NotFetchedAfterAssignment(s.chunks, i, Fetching);
    }
  }

  lemma {:induction false} RefreshKeeps(s: Server, i: nat, clock: Clock)
    requires Invariant(s) && i <= |s.peers|
    ensures Invariant(Refresh(s, i, clock)) && Advances(s.chunks, Refresh(s, i, clock).chunks)
    decreases |s.peers| - i
  {
    hide Invariant, TrySendGet, Advances;
    if i < |s.peers| && s.dlNum < s.maxConn {
      if GoodForDownload(s.peers[i]) {
        var t := TrySendGet(s, i, clock(i, 0));
        TrySendGetKeeps(s, i, clock(i, 0));
        RefreshKeeps(t, i + 1, clock);
        AdvancesTransitively(s.chunks, t.chunks, Refresh(s, i, clock).chunks);
      } else {
        RefreshKeeps(s, i + 1, clock);
      }
    } else {
      AdvancesReflexively(s.chunks);
    }
  }

  lemma AdvancesReflexively(chunks: seq<Chunk>)
    ensures Advances(chunks, chunks)
  {
  }

  lemma RefreshDownloadsKeeps(s: Server, clock: Clock)
    requires Invariant(s)
    ensures Invariant(RefreshDownloads(s, clock)) && Advances(s.chunks, RefreshDownloads(s, clock).chunks)
  {
    hide Refresh, Busy, Uploading, NotFetched, Matching, FileHolds, PlacesDiffer;
    RefreshKeeps(s, 0, clock);
  }

  lemma GiveUpKeeps(s: Server, p: nat)
    requires Invariant(s) && p < |s.peers|
    ensures Invariant(GiveUp(s, p)) && Advances(s.chunks, GiveUp(s, p).chunks)
  {
    hide Busy, Uploading, InFile, NotFetched, Matching;
    var q, t := s.peers[p], GiveUp(s, p);
    JobsAfterUpdate(s.peers, p, t.peers[p]);
    BusyAfterUpdate(Jobs(s.peers), p, None);
    UploadingAfterUpdate(s.peers, p, t.peers[p]);
    if q.downloading {
      JobTaken(Jobs(s.peers), s.chunks, p, Unfetched);
      NotFetchedAfterAssignment(s.chunks, q.dl.getIndex, Unfetched);
    } else {
      assert Jobs(s.peers)[p := None] == Jobs(s.peers);
    }
  }

  lemma DownloadCheckKeeps(s: Server, p: nat, clock: Clock)
    requires Invariant(s) && p < |s.peers|
    ensures Invariant(DownloadCheck(s, p, clock)) && Advances(s.chunks, DownloadCheck(s, p, clock).chunks)
  {
    hide Invariant, R.CheckTimeout, GiveUp;
    var q := s.peers[p];
    if q.downloading {
      var d := R.CheckTimeout(q.dl, clock(p, 1), clock(p, 2));
      IndexUnchangedByTick(q.dl, clock(p, 1), clock(p, 2));
      LiveWhenBusy(s, p);
      PeerKeeps(s, p, q.(dl := d));
      GiveUpKeeps(s.(peers := s.peers[p := q.(dl := d)]), p);
    }
  }

  lemma IndexUnchangedByTick(d: R.Download, now: nat, t: nat)
    ensures R.CheckTimeout(d, now, t).getIndex == d.getIndex
  {
  }

  lemma IndexUnchangedByData(d: R.Download, p: Data, now: nat, t: nat)
    ensures R.Recv(d, p, now, t).getIndex == d.getIndex
  {
  }

  lemma LiveWhenBusy(s: Server, p: nat)
    requires Invariant(s) && p < |s.peers| && (s.peers[p].downloading || s.peers[p].uploading)
    ensures s.peers[p].alive
  {
  }

  lemma UploadCheckKeeps(s: Server, p: nat, clock: Clock)
    requires Invariant(s) && p < |s.peers|
    ensures Invariant(UploadCheck(s, p, clock)) && Advances(s.chunks, UploadCheck(s, p, clock).chunks)
  {
    hide Invariant, S.CheckTimeout, GiveUp;
    var q := s.peers[p];
    if q.uploading {
      var u := S.CheckTimeout(q.ul, clock(p, 3), Readings(clock, p));
      LiveWhenBusy(s, p);
      PeerKeeps(s, p, q.(ul := u));
      GiveUpKeeps(s.(peers := s.peers[p := q.(ul := u)]), p);
    }
  }

  lemma CheckPeerKeeps(s: Server, p: nat, clock: Clock)
    requires Invariant(s) && p < |s.peers|
    ensures Invariant(CheckPeer(s, p, clock)) && Advances(s.chunks, CheckPeer(s, p, clock).chunks)
  {
    hide Invariant;
    if s.peers[p].alive {
      var t := DownloadCheck(s, p, clock);
      DownloadCheckKeeps(s, p, clock);
      UploadCheckKeeps(t, p, clock);
      AdvancesTransitively(s.chunks, t.chunks, UploadCheck(t, p, clock).chunks);
    }
  }

  lemma {:induction false} CheckPeersKeeps(s: Server, p: nat, clock: Clock)
    requires Invariant(s) && p <= |s.peers|
    ensures Invariant(CheckPeers(s, p, clock)) && Advances(s.chunks, CheckPeers(s, p, clock).chunks)
    decreases |s.peers| - p
  {
    hide Invariant, CheckPeer, Advances;
    if p < |s.peers| {
      var t := CheckPeer(s, p, clock);
      CheckPeerKeeps(s, p, clock);
      CheckPeersKeeps(t, p + 1, clock);
      AdvancesTransitively(s.chunks, t.chunks, CheckPeers(t, p + 1, clock).chunks);
    } else {
      AdvancesReflexively(s.chunks);
    }
  }

  lemma CheckAllTimeoutKeeps(s: Server, clock: Clock)
    requires Invariant(s)
    ensures Invariant(CheckAllTimeout(s, clock)) && Advances(s.chunks, CheckAllTimeout(s, clock).chunks)
  {
    hide Invariant, CheckPeers, RefreshDownloads, Advances;
    var t := CheckPeers(s, 0, clock);
    CheckPeersKeeps(s, 0, clock);
    RefreshDownloadsKeeps(t, clock);
    AdvancesTransitively(s.chunks, t.chunks, RefreshDownloads(t, clock).chunks);
  }

  // ---------------------------------------------------------------- the end of a download

  /** The job has been taken away but the chunk not yet settled. */
  lemma FinishDownloadKeeps(s: Server, p: nat, written: nat)
    requires Invariant(s) && p < |s.peers| && s.peers[p].downloading && s.peers[p].dl.getIndex < |s.chunks|
    ensures Invariant(FinishDownload(s, p, written)) && Advances(s.chunks, FinishDownload(s, p, written).chunks)
  {
    hide Busy, Uploading, InFile, NotFetched, Matching, WriteAt, HashMatches;
    var i, t := s.peers[p].dl.getIndex, FinishDownload(s, p, written);
    JobsAfterUpdate(s.peers, p, t.peers[p]);
    BusyAfterUpdate(Jobs(s.peers), p, None);
    UploadingAfterUpdate(s.peers, p, t.peers[p]);
    JobTaken(Jobs(s.peers), s.chunks, p, t.chunks[i].state);
    NotFetchedAfterAssignment(s.chunks, i, t.chunks[i].state);
    SettledChunks(s, p, written);
    SettledFile(s, p, written);
  }

  lemma SettledChunks(s: Server, p: nat, written: nat)
    requires Invariant(s) && p < |s.peers| && s.peers[p].downloading && s.peers[p].dl.getIndex < |s.chunks|
    ensures var i, t := s.peers[p].dl.getIndex, FinishDownload(s, p, written);
            && t.chunks == Assigned(s.chunks, i, t.chunks[i].state) && t.chunks[i].state != Fetching
            && t.peers == s.peers[p := s.peers[p].(downloading := false)]
            && t.dlNum == s.dlNum - 1
            && t.dlRemain == s.dlRemain - (if t.chunks[i].state == Fetched then 1 else 0)
            && t == s.(peers := t.peers, chunks := t.chunks, dlNum := t.dlNum, dlRemain := t.dlRemain, file := t.file)
  {
    hide Busy, Uploading, InFile, NotFetched, WriteAt, HashMatches;
    assert HasJob(Jobs(s.peers), p, s.peers[p].dl.getIndex);
  }

  lemma SettledFile(s: Server, p: nat, written: nat)
    requires Invariant(s) && p < |s.peers| && s.peers[p].downloading && s.peers[p].dl.getIndex < |s.chunks|
    ensures FileHolds(FinishDownload(s, p, written).chunks, FinishDownload(s, p, written).file)
  {
    hide Busy, Uploading, InFile, NotFetched, WriteAt, HashMatches;
    var d, t := s.peers[p].dl, FinishDownload(s, p, written);
    var i := d.getIndex;
    assert HasJob(Jobs(s.peers), p, i);
    var n := if written < CHUNK_SIZE then written else CHUNK_SIZE;
    var file := WriteAt(s.file, Place(s.chunks[i].id), d.buffer[..n]);
    assert t.file == s.file || t.file == file;
    forall j | 0 <= j < |t.chunks| && t.chunks[j].state == Fetched
      ensures InFile(t.file, t.chunks[j])
    {
      if j == i {
        assert d.buffer[..n] == d.buffer;
        WriteHere(s.file, d.buffer, s.chunks[i].id, s.chunks[i]);
        SameHash(file, s.chunks[i], t.chunks[i]);
      } else {
        assert Place(s.chunks[j].id) != Place(s.chunks[i].id);
        WriteElsewhere(s.file, d.buffer[..n], s.chunks[i].id, s.chunks[j]);
      }
    }
  }

  lemma SameHash(file: seq<Byte>, c: Chunk, c': Chunk)
    requires c'.id == c.id && c'.sha1 == c.sha1 && InFile(file, c)
    ensures InFile(file, c')
  {
    hide HashMatches;
  }

  lemma OnDataKeeps(s: Server, p: nat, d: Data, clock: Clock, written: nat)
    requires Invariant(s) && p < |s.peers|
    ensures Invariant(OnData(s, p, d, clock, written)) && Advances(s.chunks, OnData(s, p, d, clock, written).chunks)
  {
    hide Invariant, R.Recv, FinishDownload, RefreshDownloads, Advances;
    AdvancesReflexively(s.chunks);
    var q := s.peers[p];
    if q.alive && q.downloading && q.dl.getIndex < |s.chunks| {
      var r := R.Recv(q.dl, d, clock(p, 1), clock(p, 2));
      IndexUnchangedByData(q.dl, d, clock(p, 1), clock(p, 2));
      PeerKeeps(s, p, q.(dl := r));
      var t := s.(peers := s.peers[p := q.(dl := r)]);
      if r.finished {
        FinishDownloadKeeps(t, p, written);
        var f := FinishDownload(t, p, written);
        RefreshDownloadsKeeps(f, clock);
        AdvancesTransitively(s.chunks, f.chunks, RefreshDownloads(f, clock).chunks);
      }
    }
  }

  lemma OnWhohasKeeps(s: Server, p: nat, names: seq<string>)
    requires Invariant(s) && p < |s.peers|
    ensures Invariant(OnWhohas(s, p, names)) && OnWhohas(s, p, names).chunks == s.chunks
  {
    hide Busy, Uploading, NotFetched, Matching, FileHolds, Held;
    PeerKeeps(s, p, s.peers[p].(alive := true));
  }

  lemma OnIhaveKeeps(s: Server, p: nat, names: seq<string>, clock: Clock)
    requires Invariant(s) && p < |s.peers|
    ensures Invariant(OnIhave(s, p, names, clock)) && Advances(s.chunks, OnIhave(s, p, names, clock).chunks)
  {
    hide Invariant, TrySendGet, Advances;
    AdvancesReflexively(s.chunks);
    var q := s.peers[p].(alive := true);
    PeerKeeps(s, p, q);
    var t := s.(peers := s.peers[p := q]);
    if !q.downloading {
      PeerKeeps(t, p, q.(queue := names));
      var u := t.(peers := t.peers[p := q.(queue := names)]);
      if u.dlNum < u.maxConn {
        TrySendGetKeeps(u, p, clock(p, 0));
      }
    }
  }

  lemma OnGetKeeps(s: Server, p: nat, name: string, clock: Clock)
    requires Invariant(s) && p < |s.peers|
    ensures Invariant(OnGet(s, p, name, clock)) && OnGet(s, p, name, clock).chunks == s.chunks
  {
    hide Busy, Uploading, NotFetched, Matching, FileHolds, IndexOf, S.Start;
    var t := OnGet(s, p, name, clock);
    JobsAfterUpdate(s.peers, p, t.peers[p]);
    UploadingAfterUpdate(s.peers, p, t.peers[p]);
    assert Jobs(t.peers) == Jobs(s.peers);
  }

  lemma OnAckKeeps(s: Server, p: nat, ack: nat, clock: Clock)
    requires Invariant(s) && p < |s.peers|
    ensures Invariant(OnAck(s, p, ack, clock)) && OnAck(s, p, ack, clock).chunks == s.chunks
  {
    hide Busy, Uploading, NotFetched, Matching, FileHolds, S.Step;
    var t := OnAck(s, p, ack, clock);
    JobsAfterUpdate(s.peers, p, t.peers[p]);
    UploadingAfterUpdate(s.peers, p, t.peers[p]);
    assert Jobs(t.peers) == Jobs(s.peers);
  }

  lemma ParsePacketKeeps(s: Server, p: nat, pkt: Packet, clock: Clock, written: nat)
    requires Invariant(s)
    ensures Invariant(ParsePacket(s, p, pkt, clock, written))
    ensures Advances(s.chunks, ParsePacket(s, p, pkt, clock, written).chunks)
  {
    hide Invariant, OnWhohas, OnIhave, OnGet, OnData, OnAck, Advances;
    AdvancesReflexively(s.chunks);
    if p < |s.peers| {
      match pkt
      case Whohas(names) => OnWhohasKeeps(s, p, names);
      case Ihave(names) => OnIhaveKeeps(s, p, names, clock);
      case Get(name) => OnGetKeeps(s, p, name, clock);
      case DataPacket(d) => OnDataKeeps(s, p, d, clock, written);
      case AckPacket(ack) => OnAckKeeps(s, p, ack, clock);
      case Other =>
    }
  }

  lemma {:induction false} AllUnfetched(chunks: seq<Chunk>)
    requires forall i :: 0 <= i < |chunks| ==> chunks[i].state == Unfetched
    ensures NotFetched(chunks) == |chunks|
  {
    if chunks != [] {
      AllUnfetched(chunks[..|chunks| - 1]);
    }
  }

  lemma {:induction false} IdleHasNoJob(jobs: seq<Option<nat>>, p: nat, i: nat)
    requires Busy(jobs) == 0
    ensures !HasJob(jobs, p, i)
  {
    if jobs != [] {
      IdleHasNoJob(jobs[..|jobs| - 1], p, i);
    }
  }

  lemma LoadListKeeps(s: Server, list: seq<(int, string)>, file: seq<Byte>, now: nat)
    requires Invariant(s) && s.dlNum == 0 && DistinctPlaces(list)
    ensures Invariant(LoadList(s, list, file, now))
  {
    hide Busy, Uploading, NotFetched, UnfetchedNames;
    var t := LoadList(s, list, file, now);
    AllUnfetched(t.chunks);
    forall p: nat, i: nat
      ensures !HasJob(Jobs(s.peers), p, i)
    {
      IdleHasNoJob(Jobs(s.peers), p, i);
    }
  }

  // ---------------------------------------------------------------- runs

  ghost function After(s: Server, es: seq<Event>): Server {
    if es == [] then s else Step(After(s, es[..|es| - 1]), es[|es| - 1])
  }

  ghost predicate CanHappen(s: Server, es: seq<Event>) {
    es == [] || (CanHappen(s, es[..|es| - 1]) && Admissible(After(s, es[..|es| - 1]), es[|es| - 1]))
  }

  lemma {:induction false} NobodyBusy(peers: seq<Peer>)
    requires forall p :: 0 <= p < |peers| ==> !peers[p].downloading && !peers[p].uploading
    ensures Busy(Jobs(peers)) == 0 && Uploading(peers) == 0
  {
    if peers != [] {
      var front := peers[..|peers| - 1];
      NobodyBusy(front);
      assert Jobs(peers)[..|peers| - 1] == Jobs(front);
    }
  }

  lemma InitialHolds(s: Server)
    requires Initial(s)
    ensures Invariant(s)
  {
    NobodyBusy(s.peers);
  }

  lemma StepKeeps(s: Server, e: Event)
    requires Invariant(s) && Admissible(s, e)
    ensures Invariant(Step(s, e))
    ensures !e.UserGet? ==> Advances(s.chunks, Step(s, e).chunks)
  {
    hide Invariant, ParsePacket, CheckAllTimeout, LoadList, Advances;
    match e
    case Received(p, pkt, clock, written) => ParsePacketKeeps(s, p, pkt, clock, written);
    case Timer(clock) => CheckAllTimeoutKeeps(s, clock);
    case UserGet(list, file, now) => LoadListKeeps(s, list, file, now);
  }

  lemma {:induction false} InvariantHolds(s: Server, es: seq<Event>)
    requires Initial(s) && CanHappen(s, es)
    ensures Invariant(After(s, es))
  {
    hide Invariant, Step, Initial;
    if es == [] {
      InitialHolds(s);
    } else {
      InvariantHolds(s, es[..|es| - 1]);
      StepKeeps(After(s, es[..|es| - 1]), es[|es| - 1]);
    }
  }

  /**
    In every reachable state the chunks being fetched are in one-to-one correspondence
    with the peers they are fetched from, the counters count them and respect the limit,
    and a peer given up for dead is neither downloading nor uploading.
   */
  lemma SchedulerAgrees(s: Server, es: seq<Event>)
    requires Initial(s) && CanHappen(s, es)
    ensures var t := After(s, es);
            && (forall p: nat :: p < |t.peers| && t.peers[p].downloading ==>
                  t.peers[p].dl.getIndex < |t.chunks| && t.chunks[t.peers[p].dl.getIndex].state == Fetching)
            && (forall p: nat, q: nat :: p < q < |t.peers| && t.peers[p].downloading && t.peers[q].downloading ==>
                  t.peers[p].dl.getIndex != t.peers[q].dl.getIndex)
            && (forall i: nat :: i < |t.chunks| && t.chunks[i].state == Fetching ==>
                  exists p: nat :: HasJob(Jobs(t.peers), p, i))
    ensures var t := After(s, es);
            && t.dlNum == Busy(Jobs(t.peers)) <= Max(t.maxConn, 0)
            && t.ulNum == Uploading(t.peers) <= Max(t.maxConn, 0)
            && Liveness(t.peers)
  {
    InvariantHolds(s, es);
    hide After, CanHappen, Initial;
    var t := After(s, es);
    assert forall p: nat :: p < |t.peers| && t.peers[p].downloading ==>
        HasJob(Jobs(t.peers), p, t.peers[p].dl.getIndex);
  }

  /**
    In every reachable state every chunk marked fetched is in the output file at its place
    (id times 512 KiB as long as that fits a C int) with the hash listed for it, the number
    left is the number not yet fetched, and when that is zero the whole file is right.
   */
  lemma FileIsRight(s: Server, es: seq<Event>)
    requires Initial(s) && CanHappen(s, es)
    ensures var t := After(s, es);
            && FileHolds(t.chunks, t.file) && t.dlRemain == NotFetched(t.chunks)
            && (t.dlRemain == 0 <==> forall i :: 0 <= i < |t.chunks| ==> t.chunks[i].state == Fetched)
            && (t.dlRemain == 0 ==> forall i :: 0 <= i < |t.chunks| ==> InFile(t.file, t.chunks[i]))
    ensures var t := After(s, es);
            forall i :: 0 <= i < |t.chunks| && t.chunks[i].state == Fetched && 0 <= t.chunks[i].id < 4096 ==>
              && (t.chunks[i].id + 1) * CHUNK_SIZE <= |t.file|
              && HashMatches(t.file[t.chunks[i].id * CHUNK_SIZE .. (t.chunks[i].id + 1) * CHUNK_SIZE], t.chunks[i].sha1)
  {
    hide After, CanHappen, Initial, InFile, HashMatches, Invariant, Matching;
    InvariantHolds(s, es);
    FileFacts(After(s, es));
    NoneLeft(After(s, es).chunks);
    ChunksAtTheirIds(After(s, es).chunks, After(s, es).file);
  }

  lemma FileFacts(s: Server)
    requires Invariant(s)
    ensures FileHolds(s.chunks, s.file) && s.dlRemain == NotFetched(s.chunks)
  {
  }

  lemma ChunksAtTheirIds(chunks: seq<Chunk>, file: seq<Byte>)
    requires FileHolds(chunks, file)
    ensures forall i :: 0 <= i < |chunks| && chunks[i].state == Fetched && 0 <= chunks[i].id < 4096 ==>
              && (chunks[i].id + 1) * CHUNK_SIZE <= |file|
              && HashMatches(file[chunks[i].id * CHUNK_SIZE .. (chunks[i].id + 1) * CHUNK_SIZE], chunks[i].sha1)
  {
    hide HashMatches, Place;
    forall i | 0 <= i < |chunks| && chunks[i].state == Fetched && 0 <= chunks[i].id < 4096
      ensures Place(chunks[i].id) == chunks[i].id * CHUNK_SIZE && InFile(file, chunks[i])
    {
      PlaceIsRightUpTo4096(chunks[i].id);
    }
  }

  lemma {:induction false} NoneLeft(chunks: seq<Chunk>)
    ensures NotFetched(chunks) == 0 <==> forall i :: 0 <= i < |chunks| ==> chunks[i].state == Fetched
  {
    if chunks != [] {
      var front := chunks[..|chunks| - 1];
      NoneLeft(front);
      assert forall i :: 0 <= i < |front| ==> front[i] == chunks[i];
    }
  }

  /** Until another list is loaded a fetched chunk stays fetched, and only grows company. */
  lemma {:induction false} FetchedStaysFetched(s: Server, es: seq<Event>, more: seq<Event>)
    requires Initial(s) && CanHappen(s, es + more)
    requires forall k :: 0 <= k < |more| ==> !more[k].UserGet?
    ensures CanHappen(s, es) && Advances(After(s, es).chunks, After(s, es + more).chunks)
    decreases |more|
  {
    hide Invariant, Step, Initial, Advances;
    if more == [] {
      assert es + more == es;
      AdvancesReflexively(After(s, es).chunks);
    } else {
      var front, all := more[..|more| - 1], es + more;
      assert all[..|all| - 1] == es + front;
      FetchedStaysFetched(s, es, front);
      InvariantHolds(s, es + front);
      StepKeeps(After(s, es + front), all[|all| - 1]);
      AdvancesTransitively(After(s, es).chunks, After(s, es + front).chunks, After(s, all).chunks);
    }
  }

  /** The chunks are those of the list, whatever has become of them. */
  ghost predicate Lists(chunks: seq<Chunk>, list: seq<(int, string)>) {
    && |chunks| == |list|
    && forall i :: 0 <= i < |list| ==> chunks[i].id == list[i].0 && chunks[i].sha1 == list[i].1
  }

  /** A list just loaded: every entry is a chunk to fetch, with the id and the hash of that entry. */
  lemma LoadedListIsUnfetched(s: Server, list: seq<(int, string)>, file: seq<Byte>, now: nat)
    ensures var t := LoadList(s, list, file, now);
            && Lists(t.chunks, list) && t.dlRemain == |list| && t.file == file
            && forall i :: 0 <= i < |list| ==> t.chunks[i].state == Unfetched
  {
    hide UnfetchedNames;
  }

  lemma StillLists(before: seq<Chunk>, after: seq<Chunk>, list: seq<(int, string)>)
    requires Lists(before, list) && Advances(before, after)
    ensures Lists(after, list)
  {
  }

  /**
    The file against the user's own list, however much happened before it was loaded and
    whatever happens afterwards: as long as no other list is loaded, what is still to be
    fetched are entries of this list, every other entry has its hash at its place in the
    file, and once nothing is left the bytes at the place of each id have the hash listed
    beside it.
   */
  lemma WholeListIsInFile(s: Server, es: seq<Event>, list: seq<(int, string)>, file: seq<Byte>, now: nat,
                          more: seq<Event>)
    requires Initial(s) && CanHappen(s, es + [UserGet(list, file, now)] + more)
    requires forall k :: 0 <= k < |more| ==> !more[k].UserGet?
    ensures var t := After(s, es + [UserGet(list, file, now)] + more);
            && Lists(t.chunks, list)
            && (forall i :: 0 <= i < |list| && t.chunks[i].state == Fetched ==>
                  Place(list[i].0) + CHUNK_SIZE <= |t.file|
                  && HashMatches(t.file[Place(list[i].0) .. Place(list[i].0) + CHUNK_SIZE], list[i].1))
            && (t.dlRemain == 0 <==> forall i :: 0 <= i < |list| ==> t.chunks[i].state == Fetched)
  {
    hide *;
    var first := es + [UserGet(list, file, now)];
    var t := After(s, first + more);
    LoadedListIsUnfetched(After(s, es), list, file, now);
    LoadingIsAStep(s, es, list, file, now);
    FetchedStaysFetched(s, first, more);
    InvariantHolds(s, first + more);
    FileFacts(t);
    NoneLeft(t.chunks);
    StillLists(After(s, first).chunks, t.chunks, list);
    ListedAreInFile(t.chunks, t.file, list);
  }

  lemma ListedAreInFile(chunks: seq<Chunk>, file: seq<Byte>, list: seq<(int, string)>)
    requires Lists(chunks, list) && FileHolds(chunks, file)
    ensures |chunks| == |list| && forall i :: 0 <= i < |list| && chunks[i].state == Fetched ==>
              Place(list[i].0) + CHUNK_SIZE <= |file|
              && HashMatches(file[Place(list[i].0) .. Place(list[i].0) + CHUNK_SIZE], list[i].1)
  {
    hide Place, HashMatches;
  }

  lemma LoadingIsAStep(s: Server, es: seq<Event>, list: seq<(int, string)>, file: seq<Byte>, now: nat)
    ensures After(s, es + [UserGet(list, file, now)]) == LoadList(After(s, es), list, file, now)
  {
    hide LoadList;
    var all := es + [UserGet(list, file, now)];
    assert all[..|all| - 1] == es;
  }

  /**
    A finished download counts as fetched if and only if its bytes have the listed hash
    and all of them were written; otherwise the chunk is back on the list.
   */
  lemma FinishedIffHashAndWrite(s: Server, p: nat, written: nat)
    requires Invariant(s) && p < |s.peers| && s.peers[p].downloading && s.peers[p].dl.getIndex < |s.chunks|
    ensures var d, t := s.peers[p].dl, FinishDownload(s, p, written);
            t.chunks[d.getIndex].state ==
              if HashMatches(d.buffer, s.chunks[d.getIndex].sha1) && written >= CHUNK_SIZE then Fetched else Unfetched
  {
    hide Busy, Uploading, InFile, NotFetched, WriteAt, HashMatches;
    assert HasJob(Jobs(s.peers), p, s.peers[p].dl.getIndex);
  }

  /**
    Why places must differ: once a chunk has been saved, another one in the same place is
    right if and only if the bytes just written happen to have its hash too.
   */
  lemma SavingOverwritesSamePlace(s: Server, d: R.Download, i: nat, written: nat)
    requires d.getIndex < |s.chunks| && i < |s.chunks| && Place(s.chunks[i].id) == Place(s.chunks[d.getIndex].id)
    requires written >= CHUNK_SIZE
    ensures InFile(SaveBuffer(s, d, written).file, s.chunks[i]) <==> HashMatches(d.buffer, s.chunks[i].sha1)
  {
    hide HashMatches, Place, WriteAt, InFile;
    assert d.buffer[..CHUNK_SIZE] == d.buffer;
    WriteHere(s.file, d.buffer, s.chunks[d.getIndex].id, s.chunks[i]);
  }

  /**
    Ids whose offset does not fit: from 4096 to 8192, and negative ones down to -4096, all
    land on the place of chunk 0.
   */
  lemma LargeIdsLandOnChunkZero(id: int)
    requires 4096 <= id <= 8192 || -4096 <= id < 0
    ensures Place(id) == Place(0) == 0
  {
    PlaceInWords(id);
  }

  /**
    A GET goes out for the first wanted entry of the queue, whose chunk was unfetched and is
    now being fetched by p.
   */
  lemma GetTakesFirstWanted(s: Server, p: nat, now: nat)
    requires p < |s.peers|
    ensures var t, queue := TrySendGet(s, p, now), s.peers[p].queue;
            if exists k :: 0 <= k < |queue| && Wanted(s.chunks, queue[k]) then
              exists k :: 0 <= k < |queue| && Wanted(s.chunks, queue[k])
                && (forall j :: 0 <= j < k ==> !Wanted(s.chunks, queue[j]))
                && t.log == s.log + [SendGet(p, queue[k])]
                && t.peers[p].queue == queue[..k] + queue[k + 1..]
                && t.peers[p].downloading && t.peers[p].dl.getIndex < |s.chunks|
                && s.chunks[t.peers[p].dl.getIndex].state == Unfetched
                && s.chunks[t.peers[p].dl.getIndex].sha1 == queue[k]
                && t.chunks[t.peers[p].dl.getIndex].state == Fetching
                && (forall j :: 0 <= j < t.peers[p].dl.getIndex ==>
                      !(s.chunks[j].state == Unfetched && s.chunks[j].sha1 == queue[k]))
                && t.peers[p].dl == R.Init(t.peers[p].dl.getIndex, now) && t.dlNum == s.dlNum + 1
            else t == s
  {
    var t, queue := TrySendGet(s, p, now), s.peers[p].queue;
    forall k | 0 <= k < |queue|
      ensures Wanted(s.chunks, queue[k]) <==> FirstUnfetched(s.chunks, queue[k], 0).Some?
    {
      var i := FirstUnfetched(s.chunks, queue[k], 0);
      if i.Some? {
        assert s.chunks[i.value].state == Unfetched;
      }
    }
    var k := FirstWanted(queue, s.chunks, 0);
    if k.Some? {
      assert Wanted(s.chunks, queue[k.value]);
      assert Without(queue, k.value) == queue[..k.value] + queue[k.value + 1..];
    }
  }

  // ---------------------------------------------------------------- greediness

  ghost predicate NothingWanted(queue: seq<string>, chunks: seq<Chunk>) {
    forall k :: 0 <= k < |queue| ==> !Wanted(chunks, queue[k])
  }

  /** No chunk becomes unfetched. */
  ghost predicate Shrinks(before: seq<Chunk>, after: seq<Chunk>) {
    && |before| == |after|
    && forall i :: 0 <= i < |before| ==>
         before[i].sha1 == after[i].sha1 && (after[i].state == Unfetched ==> before[i].state == Unfetched)
  }

  lemma StillUnwanted(queue: seq<string>, a: seq<Chunk>, b: seq<Chunk>)
    requires NothingWanted(queue, a) && Shrinks(a, b)
    ensures NothingWanted(queue, b)
  {
  }

  lemma ShrinksTransitively(a: seq<Chunk>, b: seq<Chunk>, c: seq<Chunk>)
    requires Shrinks(a, b) && Shrinks(b, c)
    ensures Shrinks(a, c)
  {
  }

  lemma TryTakesOrNothingWanted(s: Server, p: nat, now: nat)
    requires p < |s.peers|
    ensures var t := TrySendGet(s, p, now);
            && Shrinks(s.chunks, t.chunks) && t.maxConn == s.maxConn
            && |t.peers| == |s.peers| && (forall j :: 0 <= j < |s.peers| && j != p ==> t.peers[j] == s.peers[j])
            && (t.peers[p].downloading || (t == s && NothingWanted(s.peers[p].queue, s.chunks)))
  {
  }

  lemma {:induction false} RefreshIsGreedy(s: Server, i: nat, clock: Clock)
    requires i <= |s.peers|
    ensures var r := Refresh(s, i, clock);
            && Shrinks(s.chunks, r.chunks) && r.maxConn == s.maxConn
            && (forall j :: 0 <= j < i ==> r.peers[j] == s.peers[j])
            && (r.dlNum >= r.maxConn
                || forall j :: i <= j < |r.peers| && GoodForDownload(r.peers[j]) ==>
                    NothingWanted(r.peers[j].queue, r.chunks))
    decreases |s.peers| - i
  {
    hide TrySendGet, NothingWanted;
    if i < |s.peers| && s.dlNum < s.maxConn {
      if GoodForDownload(s.peers[i]) {
        var t := TrySendGet(s, i, clock(i, 0));
        TryTakesOrNothingWanted(s, i, clock(i, 0));
        RefreshIsGreedy(t, i + 1, clock);
        var r := Refresh(t, i + 1, clock);
        ShrinksTransitively(s.chunks, t.chunks, r.chunks);
        if !t.peers[i].downloading {
          StillUnwanted(s.peers[i].queue, s.chunks, r.chunks);
        }
      } else {
        RefreshIsGreedy(s, i + 1, clock);
      }
    }
  }

  /**
    When refresh_chunk_download returns, either the connection limit is reached or no
    living idle peer has an unfetched chunk in its queue.
   */
  lemma RefreshLeavesNothingToDo(s: Server, clock: Clock)
    ensures var r := RefreshDownloads(s, clock);
            r.dlNum >= r.maxConn
            || forall p, k :: 0 <= p < |r.peers| && GoodForDownload(r.peers[p]) && 0 <= k < |r.peers[p].queue| ==>
                 !Wanted(r.chunks, r.peers[p].queue[k])
  {
    hide Refresh;
    RefreshIsGreedy(s, 0, clock);
  }
}
