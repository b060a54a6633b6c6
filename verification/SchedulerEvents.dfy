/**
  What each packet and each timer round does to the scheduler, said without its functions:
  who is answered and with what, who is given up, which names are asked for.
 */
module SchedulerEvents {
  import opened Common
  import opened Scheduler
  import Inv = SchedulerInvariant
  import S = Sender
  import R = Receiver
  import Hex
  import Sha1Spec

  // ---------------------------------------------------------------- selected names

  /** An IHAVE lists the asked names that are held, in the order asked. */
  lemma {:induction false} HeldPicksWhatIsHeld(names: seq<string>, has: seq<string>) returns (idx: seq<nat>)
    ensures Picked(Held(names, has), names, idx)
    ensures forall i: nat :: i in idx <==> i < |names| && names[i] in has
  {
    idx := [];
    if names != [] {
      var front, last := names[..|names| - 1], names[|names| - 1];
      idx := HeldPicksWhatIsHeld(front, has);
      assert names == front + [last];
      PickedOneMore(Held(front, has), front, idx, last);
      if last in has {
        idx := idx + [|front|];
      }
    }
  }

  /** Each of them as often as it was asked for. */
  lemma {:induction false} HeldAsOftenAsAsked(names: seq<string>, has: seq<string>, n: string)
    ensures multiset(Held(names, has))[n] == if n in has then multiset(names)[n] else 0
  {
    if names != [] {
      HeldAsOftenAsAsked(names[..|names| - 1], has, n);
      assert names == names[..|names| - 1] + [names[|names| - 1]];
    }
  }

  function NamesOf(chunks: seq<Chunk>): (r: seq<string>)
    ensures |r| == |chunks|
  {
    seq(|chunks|, i requires 0 <= i < |chunks| => chunks[i].sha1)
  }

  /** A WHOHAS lists the names of exactly the unfetched chunks, in list order. */
  lemma {:induction false} UnfetchedNamesPicksUnfetched(chunks: seq<Chunk>) returns (idx: seq<nat>)
    ensures Picked(UnfetchedNames(chunks), NamesOf(chunks), idx)
    ensures forall i: nat :: i in idx <==> i < |chunks| && chunks[i].state == Unfetched
  {
    idx := [];
    if chunks != [] {
      var front, last := chunks[..|chunks| - 1], chunks[|chunks| - 1];
      idx := UnfetchedNamesPicksUnfetched(front);
      assert NamesOf(chunks) == NamesOf(front) + [last.sha1];
      PickedOneMore(UnfetchedNames(front), NamesOf(front), idx, last.sha1);
      if last.state == Unfetched {
        idx := idx + [|front|];
      }
    }
  }

  // ---------------------------------------------------------------- packets

  /**
    WHOHAS: at the limit it is ignored.  Otherwise its sender is alive, and gets one IHAVE
    if and only if nothing is being uploaded to it and something it asks for is held here.
   */
  lemma WhohasIsAnswered(s: Server, p: nat, names: seq<string>) returns (idx: seq<nat>)
    requires p < |s.peers|
    ensures forall i: nat :: i in idx <==> i < |names| && names[i] in s.has
    ensures var t := OnWhohas(s, p, names);
            if s.ulNum >= s.maxConn then t == s
            else if s.peers[p].uploading || idx == [] then t == s.(peers := s.peers[p := s.peers[p].(alive := true)])
            else
              && t.peers == s.peers[p := s.peers[p].(alive := true)] && |t.log| == |s.log| + 1
              && t.log[|s.log|].SendIhave? && t.log[|s.log|].peer == p && Picked(t.log[|s.log|].names, names, idx)
              && t == s.(peers := t.peers, log := s.log + [t.log[|s.log|]])
  {
    idx := HeldPicksWhatIsHeld(names, s.has);
    hide Held;
  }

  /**
    IHAVE: its sender is alive.  One being downloaded from keeps its queue; for another the
    names replace the queue, and when a download may start a GET goes out for the first of
    them that is wanted, which leaves the queue.
   */
  lemma IhaveIsUsed(s: Server, p: nat, names: seq<string>, clock: Clock)
    requires p < |s.peers|
    ensures var t := OnIhave(s, p, names, clock);
            && t.peers[p].alive && |t.peers| == |s.peers|
            && (forall q :: 0 <= q < |s.peers| && q != p ==> t.peers[q] == s.peers[q])
            && (s.peers[p].downloading ==> t.peers[p].queue == s.peers[p].queue && t.log == s.log)
            && (!s.peers[p].downloading && s.dlNum >= s.maxConn ==> t.peers[p].queue == names && t.log == s.log)
            && (!s.peers[p].downloading && s.dlNum < s.maxConn ==>
                  if exists k :: 0 <= k < |names| && Wanted(s.chunks, names[k]) then
                    exists k :: 0 <= k < |names| && Wanted(s.chunks, names[k])
                      && (forall j :: 0 <= j < k ==> !Wanted(s.chunks, names[j]))
                      && t.log == s.log + [SendGet(p, names[k])] && t.peers[p].queue == names[..k] + names[k + 1..]
                      && t.peers[p].downloading
                  else t.log == s.log && t.peers[p].queue == names && !t.peers[p].downloading)
  {
    hide TrySendGet, Wanted;
    if !s.peers[p].downloading && s.dlNum < s.maxConn {
      var u := s.(peers := s.peers[p := s.peers[p].(alive := true, queue := names)]);
      assert s.peers[p := s.peers[p].(alive := true)][p := u.peers[p]] == u.peers;
      Inv.GetTakesFirstWanted(u, p, clock(p, 0));
      OnlyItsPeer(u, p, clock(p, 0));
    }
  }

  lemma OnlyItsPeer(s: Server, p: nat, now: nat)
    requires p < |s.peers|
    ensures var t := TrySendGet(s, p, now);
            && t.peers[p].alive == s.peers[p].alive && t.peers[p].uploading == s.peers[p].uploading
            && forall q :: 0 <= q < |s.peers| && q != p ==> t.peers[q] == s.peers[q]
  {
  }

  /**
    GET: an upload starts if and only if the peer is alive, the limit is not reached and
    the name is held here.  It is an upload of the named chunk, the first one of that name,
    and replaces one that was running.
   */
  lemma GetStartsTheNamedUpload(s: Server, p: nat, name: string, clock: Clock)
    requires p < |s.peers|
    ensures var t := OnGet(s, p, name, clock);
            if s.peers[p].alive && s.ulNum < s.maxConn && name in s.has then
              && t.peers[p].uploading && t.peers[p].ul == S.Start(t.peers[p].ul.hasIndex, Readings(clock, p))
              && t.peers[p].ul.hasIndex < |s.has| && s.has[t.peers[p].ul.hasIndex] == name
              && name !in s.has[..t.peers[p].ul.hasIndex]
              && t.peers[p].(ul := s.peers[p].ul, uploading := s.peers[p].uploading) == s.peers[p]
              && t.ulNum == (if s.peers[p].uploading then s.ulNum else s.ulNum + 1)
              && t == s.(peers := s.peers[p := t.peers[p]], ulNum := t.ulNum)
            else t == s
  {
    var i := IndexOf(s.has, name);
    if i.Some? {
      StartKeepsIndex(i.value, Readings(clock, p));
    }
    hide S.Start, IndexOf;
  }

  lemma StartKeepsIndex(hasIndex: nat, clock: nat -> Time)
    ensures S.Start(hasIndex, clock).hasIndex == hasIndex
  {
  }

  /**
    DATA from a peer that is alive and downloaded from goes through the receiver; as long
    as the chunk is not complete that is all.  Any other DATA is dropped.
   */
  lemma DataReachesTheReceiver(s: Server, p: nat, d: Data, clock: Clock, written: nat)
    requires Inv.Invariant(s) && p < |s.peers|
    ensures var t, dl := OnData(s, p, d, clock, written), R.Recv(s.peers[p].dl, d, clock(p, 1), clock(p, 2));
            && (!s.peers[p].downloading ==> t == s)
            && (s.peers[p].downloading && !dl.finished ==> t == s.(peers := s.peers[p := s.peers[p].(dl := dl)]))
  {
    hide R.Recv, FinishDownload, RefreshDownloads;
    if s.peers[p].downloading {
      Inv.LiveWhenBusy(s, p);
      JobIsInside(s, p);
    }
  }

  lemma JobIsInside(s: Server, p: nat)
    requires Inv.Invariant(s) && p < |s.peers| && s.peers[p].downloading
    ensures s.peers[p].dl.getIndex < |s.chunks|
  {
    assert Inv.HasJob(Inv.Jobs(s.peers), p, s.peers[p].dl.getIndex);
  }

  /**
    The DATA that completes a chunk: it counts as fetched from then on if and only if the
    receiver's buffer has its hash and was written as a whole.
   */
  lemma LastDataSettlesTheChunk(s: Server, p: nat, d: Data, clock: Clock, written: nat)
    requires Inv.Invariant(s) && p < |s.peers| && s.peers[p].downloading
    requires R.Recv(s.peers[p].dl, d, clock(p, 1), clock(p, 2)).finished
    ensures var t, i := OnData(s, p, d, clock, written), s.peers[p].dl.getIndex;
            var buffer := R.Recv(s.peers[p].dl, d, clock(p, 1), clock(p, 2)).buffer;
            && i < |s.chunks| == |t.chunks|
            && (t.chunks[i].state == Fetched <==> HashMatches(buffer, s.chunks[i].sha1) && written >= CHUNK_SIZE)
  {
    hide Inv.Invariant, R.Recv, FinishDownload, RefreshDownloads, HashMatches, Inv.Advances, Inv.Shrinks;
    Inv.LiveWhenBusy(s, p);
    JobIsInside(s, p);
    Inv.IndexUnchangedByData(s.peers[p].dl, d, clock(p, 1), clock(p, 2));
    var q := s.peers[p].(dl := R.Recv(s.peers[p].dl, d, clock(p, 1), clock(p, 2)));
    var u := s.(peers := s.peers[p := q]);
    Inv.PeerKeeps(s, p, q);
    Inv.FinishedIffHashAndWrite(u, p, written);
    var f := FinishDownload(u, p, written);
    NeverFetchedByRefresh(f, clock);
    AsManyChunks(u, p, written);
  }

  lemma AsManyChunks(s: Server, p: nat, written: nat)
    requires p < |s.peers| && s.peers[p].dl.getIndex < |s.chunks|
    ensures |FinishDownload(s, p, written).chunks| == |s.chunks|
  {
    hide WriteAt, HashMatches;
  }

  /** A refresh makes no chunk fetched, nor any fetched one less so. */
  lemma NeverFetchedByRefresh(s: Server, clock: Clock)
    ensures var r := RefreshDownloads(s, clock);
            |r.chunks| == |s.chunks| && forall i :: 0 <= i < |s.chunks| ==>
              (r.chunks[i].state == Fetched <==> s.chunks[i].state == Fetched)
  {
    hide Refresh, UnfetchedNames;
    FetchedByNoRefresh(s, 0, clock);
  }

  lemma {:induction false} FetchedByNoRefresh(s: Server, i: nat, clock: Clock)
    requires i <= |s.peers|
    ensures var r := Refresh(s, i, clock);
            |r.chunks| == |s.chunks| && forall c :: 0 <= c < |s.chunks| ==>
              (r.chunks[c].state == Fetched <==> s.chunks[c].state == Fetched)
    decreases |s.peers| - i
  {
    hide TrySendGet;
    if i < |s.peers| && s.dlNum < s.maxConn {
      if GoodForDownload(s.peers[i]) {
        OnlyMarksFetching(s, i, clock(i, 0));
        FetchedByNoRefresh(TrySendGet(s, i, clock(i, 0)), i + 1, clock);
      } else {
        FetchedByNoRefresh(s, i + 1, clock);
      }
    }
  }

  lemma OnlyMarksFetching(s: Server, p: nat, now: nat)
    requires p < |s.peers|
    ensures var t := TrySendGet(s, p, now);
            && |t.chunks| == |s.chunks| && t.lastWhohas == s.lastWhohas && t.dlRemain == s.dlRemain
            && (forall c :: 0 <= c < |s.chunks| ==> (t.chunks[c].state == Fetched <==> s.chunks[c].state == Fetched))
            && (t.log == s.log || exists name :: t.log == s.log + [SendGet(p, name)])
  {
  }

  /** An ack reaches the sender of that upload, and the upload ends exactly when the sender has finished. */
  lemma AckReachesTheSender(s: Server, p: nat, ack: nat, clock: Clock)
    requires Inv.Invariant(s) && p < |s.peers|
    ensures var t, u := OnAck(s, p, ack, clock), S.Step(s.peers[p].ul, S.Ack(ack, clock(p, 3), Readings(clock, p)));
            if !s.peers[p].uploading then t == s
            else
              && t.peers == s.peers[p := s.peers[p].(ul := u, uploading := !u.finished)]
              && t == s.(peers := t.peers, ulNum := t.ulNum)
              && t.ulNum == s.ulNum - if u.finished then 1 else 0
  {
    hide S.Step;
    if s.peers[p].uploading {
      Inv.LiveWhenBusy(s, p);
    }
  }

  // ---------------------------------------------------------------- timers

  /** Six timeouts in a row of its download, or of its upload. */
  predicate Silent(q: Peer, p: nat, clock: Clock) {
    || (q.downloading && !q.dl.finished
        && R.CheckTimeout(q.dl, clock(p, 1), clock(p, 2)).timeoutCnt > MAX_TIMEOUT_CNT)
    || (q.uploading && !q.ul.finished
        && S.CheckTimeout(q.ul, clock(p, 3), Readings(clock, p)).timeoutCnt > MAX_TIMEOUT_CNT)
  }

  /** In one turn of check_all_timeout a living peer is given up exactly when it has been silent for too long. */
  lemma GivenUpIffSilent(s: Server, p: nat, clock: Clock)
    requires p < |s.peers|
    ensures var q, t := s.peers[p], CheckPeer(s, p, clock);
            && (forall i :: 0 <= i < |s.peers| && i != p ==> t.peers[i] == s.peers[i])
            && (t.peers[p].alive <==> q.alive && !Silent(q, p, clock))
            && (q.alive && Silent(q, p, clock) ==> !t.peers[p].downloading && !t.peers[p].uploading)
            && (!q.alive ==> t == s)
            && (q.alive && !Silent(q, p, clock) ==>
                  t.peers[p] == q.(dl := if q.downloading then R.CheckTimeout(q.dl, clock(p, 1), clock(p, 2)) else q.dl,
                                   ul := if q.uploading then S.CheckTimeout(q.ul, clock(p, 3), Readings(clock, p))
                                         else q.ul))
  {
    hide R.CheckTimeout, S.CheckTimeout;
  }

  /** What a check does to its peer depends on that peer alone. */
  lemma ChecksAreIndependent(s: Server, t: Server, p: nat, clock: Clock)
    requires p < |s.peers| && |t.peers| == |s.peers| && t.peers[p] == s.peers[p]
    ensures CheckPeer(t, p, clock).peers[p] == CheckPeer(s, p, clock).peers[p]
  {
    hide R.CheckTimeout, S.CheckTimeout;
  }

  /** Every peer gets its turn: after a round exactly the silent ones have been given up. */
  lemma {:induction false} EveryPeerIsChecked(s: Server, k: nat, clock: Clock)
    requires k <= |s.peers|
    ensures var t := CheckPeers(s, k, clock);
            && (forall p :: 0 <= p < k ==> t.peers[p] == s.peers[p])
            && (forall p :: k <= p < |s.peers| ==>
                  && (t.peers[p].alive <==> s.peers[p].alive && !Silent(s.peers[p], p, clock))
                  && t.peers[p] == CheckPeer(s, p, clock).peers[p])
    decreases |s.peers| - k
  {
    hide CheckPeer, Silent;
    if k < |s.peers| {
      var t := CheckPeer(s, k, clock);
      GivenUpIffSilent(s, k, clock);
      EveryPeerIsChecked(t, k + 1, clock);
      forall p | k + 1 <= p < |s.peers|
        ensures CheckPeer(t, p, clock).peers[p] == CheckPeer(s, p, clock).peers[p]
      {
        ChecksAreIndependent(s, t, p, clock);
      }
    }
  }

  // ---------------------------------------------------------------- asking again

  /** How many WHOHAS have gone out. */
  function Asked(log: seq<Message>): nat {
    if log == [] then 0 else Asked(log[..|log| - 1]) + if log[|log| - 1].SendWhohas? then 1 else 0
  }

  lemma AskedOneMore(log: seq<Message>, m: Message)
    ensures Asked(log + [m]) == Asked(log) + if m.SendWhohas? then 1 else 0
  {
    assert (log + [m])[..|log|] == log;
  }

  lemma {:induction false} RefreshOnlyGets(s: Server, i: nat, clock: Clock)
    requires i <= |s.peers|
    ensures var r := Refresh(s, i, clock);
            Asked(r.log) == Asked(s.log) && r.lastWhohas == s.lastWhohas && r.dlRemain == s.dlRemain
    decreases |s.peers| - i
  {
    hide TrySendGet, Asked;
    if i < |s.peers| && s.dlNum < s.maxConn {
      if GoodForDownload(s.peers[i]) {
        var t := TrySendGet(s, i, clock(i, 0));
        OnlyMarksFetching(s, i, clock(i, 0));
        if t.log != s.log {
          var name :| t.log == s.log + [SendGet(i, name)];
          AskedOneMore(s.log, SendGet(i, name));
        }
        RefreshOnlyGets(t, i + 1, clock);
      } else {
        RefreshOnlyGets(s, i + 1, clock);
      }
    }
  }

  /**
    A refresh sends a WHOHAS if and only if it leaves nothing being fetched, something is
    missing and the last one is more than the default timeout ago; it is the last thing
    sent and asks for exactly what is unfetched.
   */
  lemma AsksAgainWhenStuck(s: Server, clock: Clock) returns (idx: seq<nat>)
    ensures var t, late := RefreshDownloads(s, clock), clock(|s.peers|, 0) - s.lastWhohas > DEFAULT_TIMEOUT;
            && (Asked(t.log) == Asked(s.log) + if t.dlNum == 0 && s.dlRemain > 0 && late then 1 else 0)
            && (forall i: nat :: i in idx <==> i < |t.chunks| && t.chunks[i].state == Unfetched)
            && (Asked(t.log) > Asked(s.log) ==>
                  && t.log != [] && t.log[|t.log| - 1].SendWhohas? && t.lastWhohas == clock(|s.peers|, 1)
                  && Picked(t.log[|t.log| - 1].names, NamesOf(t.chunks), idx))
            && (Asked(t.log) == Asked(s.log) ==> t.lastWhohas == s.lastWhohas)
  {
    hide Refresh, Asked;
    RefreshOnlyGets(s, 0, clock);
    var r := Refresh(s, 0, clock);
    AskedOneMore(r.log, SendWhohas(UnfetchedNames(r.chunks)));
    idx := UnfetchedNamesPicksUnfetched(r.chunks);
  }

  lemma {:induction false} RefreshGivesNobodyUp(s: Server, i: nat, clock: Clock)
    requires i <= |s.peers|
    ensures var r := Refresh(s, i, clock);
            |r.peers| == |s.peers| && forall p :: 0 <= p < |s.peers| ==> r.peers[p].alive == s.peers[p].alive
    decreases |s.peers| - i
  {
    hide TrySendGet;
    if i < |s.peers| && s.dlNum < s.maxConn {
      if GoodForDownload(s.peers[i]) {
        OnlyItsPeer(s, i, clock(i, 0));
        RefreshGivesNobodyUp(TrySendGet(s, i, clock(i, 0)), i + 1, clock);
      } else {
        RefreshGivesNobodyUp(s, i + 1, clock);
      }
    }
  }

  /** Nothing more can be fetched: the limit is reached, or no idle living peer has an unfetched chunk in its queue. */
  ghost predicate NothingToDo(t: Server) {
    t.dlNum >= t.maxConn
    || forall p, k :: 0 <= p < |t.peers| && GoodForDownload(t.peers[p]) && 0 <= k < |t.peers[p].queue| ==>
         !Wanted(t.chunks, t.peers[p].queue[k])
  }

  /**
    A whole round of timeouts: exactly the silent peers are given up, and as long as
    something is missing nothing is left to do for the others.
   */
  lemma RoundGivesUpTheSilent(s: Server, clock: Clock)
    ensures var t := CheckAllTimeout(s, clock);
            && |t.peers| == |s.peers|
            && (forall p :: 0 <= p < |s.peers| ==>
                  (t.peers[p].alive <==> s.peers[p].alive && !Silent(s.peers[p], p, clock)))
            && (t.dlRemain > 0 ==> NothingToDo(t))
  {
    hide CheckPeers, Refresh, Silent, Wanted, Asked, UnfetchedNames;
    EveryPeerIsChecked(s, 0, clock);
    var r := CheckPeers(s, 0, clock);
    RefreshGivesNobodyUp(r, 0, clock);
    RefreshOnlyGets(r, 0, clock);
    Inv.RefreshLeavesNothingToDo(r, clock);
  }

  /** After the last DATA of a chunk, too, nothing is left to do. */
  lemma FinishLeavesNothingToDo(s: Server, p: nat, d: Data, clock: Clock, written: nat)
    requires Inv.Invariant(s) && p < |s.peers| && s.peers[p].downloading
    requires R.Recv(s.peers[p].dl, d, clock(p, 1), clock(p, 2)).finished
    ensures var t := OnData(s, p, d, clock, written); t.dlRemain > 0 ==> NothingToDo(t)
  {
    hide Inv.Invariant, R.Recv, FinishDownload, Refresh, Wanted, Asked, UnfetchedNames;
    Inv.LiveWhenBusy(s, p);
    JobIsInside(s, p);
    Inv.IndexUnchangedByData(s.peers[p].dl, d, clock(p, 1), clock(p, 2));
    var u := s.(peers := s.peers[p := s.peers[p].(dl := R.Recv(s.peers[p].dl, d, clock(p, 1), clock(p, 2)))]);
    var f := FinishDownload(u, p, written);
    RefreshOnlyGets(f, 0, clock);
    Inv.RefreshLeavesNothingToDo(f, clock);
  }

  // ---------------------------------------------------------------- loading

  lemma {:induction false} AllNames(chunks: seq<Chunk>)
    requires forall i :: 0 <= i < |chunks| ==> chunks[i].state == Unfetched
    ensures UnfetchedNames(chunks) == NamesOf(chunks)
  {
    if chunks != [] {
      AllNames(chunks[..|chunks| - 1]);
    }
  }

  /** process_get asks for every name of the list, in order. */
  lemma LoadingAsksForEverything(s: Server, list: seq<(int, string)>, file: seq<Byte>, now: nat)
    ensures var t := LoadList(s, list, file, now);
            && t.lastWhohas == now && |t.log| == |s.log| + 1 && t.log[..|s.log|] == s.log
            && t.log[|s.log|] == SendWhohas(seq(|list|, i requires 0 <= i < |list| => list[i].1))
  {
    hide UnfetchedNames;
    var t := LoadList(s, list, file, now);
    AllNames(t.chunks);
    assert NamesOf(t.chunks) == seq(|list|, i requires 0 <= i < |list| => list[i].1);
  }

  // ---------------------------------------------------------------- writing

  /**
    A chunk written in part: the bytes that reached the file are the first of the buffer at
    its place, everything else stays as it was, and a gap before the place reads as zeroes.
   */
  lemma SavedBytes(s: Server, d: R.Download, written: nat, k: nat)
    requires d.getIndex < |s.chunks|
    ensures var place, n := Place(s.chunks[d.getIndex].id), Min(written, CHUNK_SIZE);
            var f := SaveBuffer(s, d, written).file;
            && |f| == (if n == 0 then |s.file| else Max(|s.file|, place + n))
            && (k < |f| ==> f[k] == if place <= k < place + n then d.buffer[k - place]
                                    else if k < |s.file| then s.file[k] else 0)
  {
    hide Place;
  }

  /** A chunk is accepted under a 40-digit name if and only if that is its SHA-1 in lower-case digits. */
  lemma AcceptedIffNamed(bytes: seq<Byte>, name: string)
    requires |name| == 40
    ensures HashMatches(bytes, name) <==> name == Hex.FromBytes(Sha1Spec.Sha1(bytes))
  {
    hide Sha1Spec.Sha1, Hex.FromBytes;
    assert name[..40] == name;
  }
}
