/**
  The global server record of src/include/peer_server.h with the procedures that update
  it in place.  Every method is proved equal to its function in module Scheduler; the
  transfers inside a peer are the values of modules Sender and Receiver.
 */
module ServerRecord {
  import opened Common
  import opened Scheduler
  import S = Sender
  import R = Receiver
  import Inv = SchedulerInvariant
  import Hex
  import LinkedList
  import Sha1
  import Sha1Spec

  class PeerServer {
    var peers: seq<Peer>
    var chunks: seq<Chunk>
    const has: seq<string>
    const maxConn: int
    var dlNum: int
    var ulNum: int
    var dlRemain: int
    var lastWhohas: nat
    var file: seq<Byte>
    var log: seq<Message>

    ghost function State(): Server
      reads this
    {
      Server(peers, chunks, has, maxConn, dlNum, ulNum, dlRemain, lastWhohas, file, log)
    }

    /** peer_init and init_peerlist */
    constructor (unknown: seq<Peer>, has: seq<string>, maxConn: int)
      ensures Initial(State()) && this.has == has && this.maxConn == maxConn && |peers| == |unknown|
    {
      this.has := has;
      this.maxConn := maxConn;
      dlNum, ulNum, dlRemain, lastWhohas := 0, 0, 0, 0;
      chunks, file, log := [], [], [];
      peers := seq(|unknown|, i requires 0 <= i < |unknown| =>
                     unknown[i].(alive := false, downloading := false, uploading := false, queue := []));
    }

    /** find_unfetched_chunk: the chunk found leaves the queue of the peer. */
    method FindUnfetchedChunk(p: nat) returns (found: Option<nat>)
      requires p < |peers|
      modifies this`peers
      ensures var k := FirstWanted(old(peers)[p].queue, chunks, 0);
              if k.None? then found.None? && peers == old(peers)
              else
                && found == FirstUnfetched(chunks, old(peers)[p].queue[k.value], 0)
                && peers == old(peers)[p := old(peers)[p].(queue := Without(old(peers)[p].queue, k.value),
                                                           dl := old(peers)[p].dl.(getIndex := found.value))]
    {
      var queue := peers[p].queue;
      var k := 0;
      while k < |queue|
        invariant k <= |queue| && peers == old(peers)
        invariant FirstWanted(queue, chunks, 0) == FirstWanted(queue, chunks, k)
      {
        var i := 0;
        while i < |chunks|
          invariant i <= |chunks| && peers == old(peers)
          invariant FirstUnfetched(chunks, queue[k], 0) == FirstUnfetched(chunks, queue[k], i)
        {
          if chunks[i].state == Unfetched && chunks[i].sha1 == queue[k] {
            peers := peers[p := peers[p].(queue := Without(queue, k), dl := peers[p].dl.(getIndex := i))];
            return Some(i);
          }
          i := i + 1;
        }
        k := k + 1;
      }
      found := None;
    }

    /** send_get */
    method GetChunk(p: nat, i: nat)
      requires i < |chunks|
      modifies this`chunks, this`log
      ensures chunks == Assigned(old(chunks), i, Fetching) && log == old(log) + [SendGet(p, old(chunks)[i].sha1)]
    {
      chunks := chunks[i := chunks[i].(state := Fetching)];
      log := log + [SendGet(p, chunks[i].sha1)];
    }

    /** try_send_get */
    method TryGet(p: nat, now: nat)
      requires p < |peers|
      modifies this
      ensures State() == TrySendGet(old(State()), p, now)
    {
      hide R.Init, FirstWanted, FirstUnfetched;
      var found := FindUnfetchedChunk(p);
      if found.Some? {
        GetChunk(p, found.value);
        peers := peers[p := peers[p].(downloading := true, dl := R.Init(found.value, now))];
        dlNum := dlNum + 1;
        assert peers == TrySendGet(old(State()), p, now).peers;
      }
    }

    /** send_whohas: the names still unfetched, in list order. */
    method AskAll()
      modifies this`log
      ensures log == old(log) + [SendWhohas(UnfetchedNames(chunks))]
    {
      var names := [];
      for i := 0 to |chunks|
        invariant names == UnfetchedNames(chunks[..i]) && log == old(log)
      {
        if chunks[i].state == Unfetched {
          names := names + [chunks[i].sha1];
        }
        assert chunks[..i + 1][..i] == chunks[..i];
      }
      assert chunks[..|chunks|] == chunks;
      log := log + [SendWhohas(names)];
    }

    /** refresh_chunk_download */
    method RefreshChunkDownload(clock: Clock)
      modifies this
      ensures State() == RefreshDownloads(old(State()), clock)
    {
      hide TrySendGet, UnfetchedNames;
      ghost var s := State();
      var i := 0;
      while i < |peers|
        invariant i <= |peers| == |s.peers|
        invariant Refresh(State(), i, clock) == Refresh(s, 0, clock)
      {
        if dlNum >= maxConn {
          break;
        }
        if peers[i].alive && !peers[i].downloading {
          TryGet(i, clock(i, 0));
        }
        i := i + 1;
      }
      assert State() == Refresh(s, 0, clock);
      if dlNum == 0 && dlRemain > 0 && clock(|peers|, 0) - lastWhohas > DEFAULT_TIMEOUT {
        AskAll();
        lastWhohas := clock(|peers|, 1);
      }
    }

    /** kill_download */
    method KillDownload(i: nat)
      modifies this`chunks, this`dlNum
      ensures chunks == Assigned(old(chunks), i, Unfetched) && dlNum == old(dlNum) - 1
    {
      if i < |chunks| {
        chunks := chunks[i := chunks[i].(state := Unfetched)];
      }
      dlNum := dlNum - 1;
    }

    /** The kill_upload, kill_download and die calls of check_all_timeout. */
    method Abandon(p: nat)
      requires p < |peers|
      modifies this
      ensures State() == GiveUp(old(State()), p)
    {
      hide Assigned;
      if peers[p].downloading {
        KillDownload(peers[p].dl.getIndex);
      }
      if peers[p].uploading {
        ulNum := ulNum - 1;
      }
      peers := peers[p := peers[p].(alive := false, downloading := false, uploading := false)];
    }

    method CheckDownload(p: nat, clock: Clock)
      requires p < |peers|
      modifies this
      ensures State() == DownloadCheck(old(State()), p, clock)
    {
      hide R.CheckTimeout, GiveUp;
      if peers[p].downloading {
        var wasFinished := peers[p].dl.finished;
        peers := peers[p := peers[p].(dl := R.CheckTimeout(peers[p].dl, clock(p, 1), clock(p, 2)))];
        var count := if wasFinished then -1 else peers[p].dl.timeoutCnt as int;
        if count > MAX_TIMEOUT_CNT {
          Abandon(p);
        }
      }
    }

    method CheckUpload(p: nat, clock: Clock)
      requires p < |peers|
      modifies this
      ensures State() == UploadCheck(old(State()), p, clock)
    {
      hide S.CheckTimeout, GiveUp;
      if peers[p].uploading {
        var wasFinished := peers[p].ul.finished;
        var readings := Readings(clock, p);
        peers := peers[p := peers[p].(ul := S.CheckTimeout(peers[p].ul, clock(p, 3), readings))];
        var count := if wasFinished then -1 else peers[p].ul.timeoutCnt as int;
        if count > MAX_TIMEOUT_CNT {
          Abandon(p);
        }
      }
    }

    /** check_all_timeout */
    method CheckAll(clock: Clock)
      modifies this
      ensures State() == CheckAllTimeout(old(State()), clock)
      ensures old(Inv.Invariant(State())) ==> Inv.Invariant(State())
    {
      hide DownloadCheck, UploadCheck, RefreshDownloads, Inv.Invariant;
      ghost var s := State();
      var i := 0;
      while i < |peers|
        invariant i <= |peers|
        invariant CheckPeers(State(), i, clock) == CheckPeers(s, 0, clock)
      {
        if peers[i].alive {
          CheckDownload(i, clock);
          CheckUpload(i, clock);
        }
        i := i + 1;
      }
      if dlRemain > 0 {
        RefreshChunkDownload(clock);
      }
      if Inv.Invariant(s) {
        Inv.CheckAllTimeoutKeeps(s, clock);
      }
    }

    /** check_hash_succeed */
    method CheckHash(d: R.Download) returns (ok: bool)
      requires d.getIndex < |chunks|
      ensures ok == HashMatches(d.buffer, chunks[d.getIndex].sha1)
    {
      hide Sha1Spec.Sha1, Hex.FromBytes;
      var hash := Sha1.DigestOf(d.buffer);
      var text := Hex.Binary2Hex(hash);
      var listed := chunks[d.getIndex].sha1;
      ok := |listed| >= 40 && listed[..40] == text;
    }

    /** dl_save_buffer */
    method Save(d: R.Download, written: nat)
      requires d.getIndex < |chunks|
      modifies this
      ensures State() == SaveBuffer(old(State()), d, written)
    {
      hide WriteAt;
      var n := if written < CHUNK_SIZE then written else CHUNK_SIZE;
      file := WriteAt(file, Place(chunks[d.getIndex].id), d.buffer[..n]);
      if n == CHUNK_SIZE {
        chunks := chunks[d.getIndex := chunks[d.getIndex].(state := Fetched)];
        dlRemain := dlRemain - 1;
      }
    }

    /** The branch of parse_packet for a finished download, up to the refresh. */
    method Finish(p: nat, written: nat)
      requires p < |peers| && peers[p].dl.getIndex < |chunks|
      modifies this
      ensures State() == FinishDownload(old(State()), p, written)
    {
      hide HashMatches, WriteAt;
      var i := peers[p].dl.getIndex;
      dlNum := dlNum - 1;
      peers := peers[p := peers[p].(downloading := false)];
      var ok := CheckHash(peers[p].dl);
      if ok {
        Save(peers[p].dl, written);
      }
      if chunks[i].state != Fetched {
        chunks := chunks[i := chunks[i].(state := Unfetched)];
      }
    }

    method HandleData(p: nat, d: Data, clock: Clock, written: nat)
      requires p < |peers|
      modifies this
      ensures State() == OnData(old(State()), p, d, clock, written)
    {
      hide R.Recv, FinishDownload, RefreshDownloads;
      if !peers[p].alive || !peers[p].downloading || peers[p].dl.getIndex >= |chunks| {
        return;
      }
      Inv.IndexUnchangedByData(peers[p].dl, d, clock(p, 1), clock(p, 2));
      peers := peers[p := peers[p].(dl := R.Recv(peers[p].dl, d, clock(p, 1), clock(p, 2)))];
      if peers[p].dl.finished {
        Finish(p, written);
        if dlRemain > 0 {
          RefreshChunkDownload(clock);
        }
      }
    }

    /** The loop of send_ihave. */
    method Match(names: seq<string>) returns (held: seq<string>)
      ensures held == Held(names, has)
    {
      held := [];
      for i := 0 to |names|
        invariant held == Held(names[..i], has)
      {
        for j := 0 to |has|
          invariant held == Held(names[..i], has) && names[i] !in has[..j]
        {
          if names[i] == has[j] {
            held := held + [names[i]];
            break;
          }
        }
        assert names[..i + 1][..i] == names[..i];
      }
      assert names[..|names|] == names;
    }

    method HandleWhohas(p: nat, names: seq<string>)
      requires p < |peers|
      modifies this
      ensures State() == OnWhohas(old(State()), p, names)
    {
      if ulNum >= maxConn {
        return;
      }
      if !peers[p].alive {
        peers := peers[p := peers[p].(alive := true)];
      }
      assert peers == old(peers)[p := old(peers)[p].(alive := true)];
      if peers[p].uploading {
        return;
      }
      var held := Match(names);
      if held == [] {
        return;
      }
      log := log + [SendIhave(p, held)];
    }

    method HandleIhave(p: nat, names: seq<string>, clock: Clock)
      requires p < |peers|
      modifies this
      ensures State() == OnIhave(old(State()), p, names, clock)
    {
      hide TrySendGet;
      if !peers[p].alive {
        peers := peers[p := peers[p].(alive := true)];
      }
      assert peers == old(peers)[p := old(peers)[p].(alive := true)];
      if peers[p].downloading {
        return;
      }
      peers := peers[p := peers[p].(queue := names)];
      if dlNum >= maxConn {
        return;
      }
      TryGet(p, clock(p, 0));
    }

    /** hash2Index */
    method HashToIndex(name: string) returns (index: Option<nat>)
      ensures index == IndexOf(has, name)
    {
      var i := 0;
      while i < |has|
        invariant i <= |has|
        invariant IndexOf(has, name) ==
                  match IndexOf(has[i..], name) case None => None case Some(k) => Some(k + i)
      {
        if has[i] == name {
          return Some(i);
        }
        assert has[i..][1..] == has[i + 1..];
        i := i + 1;
      }
      index := None;
    }

    method HandleGet(p: nat, name: string, clock: Clock)
      requires p < |peers|
      modifies this
      ensures State() == OnGet(old(State()), p, name, clock)
    {
      hide S.Start, IndexOf;
      if !peers[p].alive || ulNum >= maxConn {
        return;
      }
      var index := HashToIndex(name);
      if index.None? {
        return;
      }
      if peers[p].uploading {
        ulNum := ulNum - 1;
      }
      peers := peers[p := peers[p].(ul := S.Start(index.value, Readings(clock, p)))];
      ulNum := ulNum + 1;
      peers := peers[p := peers[p].(uploading := true)];
      assert peers == OnGet(old(State()), p, name, clock).peers;
    }

    method HandleAck(p: nat, ack: nat, clock: Clock)
      requires p < |peers|
      modifies this
      ensures State() == OnAck(old(State()), p, ack, clock)
    {
      hide S.Step;
      if !peers[p].alive || !peers[p].uploading {
        return;
      }
      peers := peers[p := peers[p].(ul := S.Step(peers[p].ul, S.Ack(ack, clock(p, 3), Readings(clock, p))))];
      if peers[p].ul.finished {
        ulNum := ulNum - 1;
        peers := peers[p := peers[p].(uploading := false)];
        assert peers == OnAck(old(State()), p, ack, clock).peers;
      }
    }

    /** parse_packet; the invariant of module SchedulerInvariant is kept. */
    method Parse(p: nat, pkt: Packet, clock: Clock, written: nat)
      modifies this
      ensures State() == ParsePacket(old(State()), p, pkt, clock, written)
      ensures old(Inv.Invariant(State())) ==> Inv.Invariant(State())
    {
      hide OnWhohas, OnIhave, OnGet, OnData, OnAck, Inv.Invariant;
      ghost var s := State();
      if p < |peers| {
        match pkt
        case Whohas(names) => HandleWhohas(p, names);
        case Ihave(names) => HandleIhave(p, names, clock);
        case Get(name) => HandleGet(p, name, clock);
        case DataPacket(d) => HandleData(p, d, clock, written);
        case AckPacket(ack) => HandleAck(p, ack, clock);
        case Other =>
      }
      if Inv.Invariant(s) {
        Inv.ParsePacketKeeps(s, p, pkt, clock, written);
      }
    }

    /** process_get */
    method ProcessGet(list: seq<(int, string)>, contents: seq<Byte>, now: nat)
      modifies this
      ensures State() == LoadList(old(State()), list, contents, now)
    {
      hide UnfetchedNames;
      chunks := seq(|list|, i requires 0 <= i < |list| => Chunk(Unfetched, list[i].0, list[i].1));
      file := contents;
      dlRemain := |chunks|;
      AskAll();
      lastWhohas := now;
    }
  }

  /** The search of find_unfetched_chunk on the nodes of the list: where the answer sits and which chunk it names. */
  method FindUnfetchedNode(dq: LinkedList.Linlist<string>, chunks: seq<Chunk>) returns (found: Option<nat>)
    requires dq.Valid()
    modifies dq, dq.head, dq.nodes
    ensures dq.Valid()
    ensures var k := FirstWanted(old(dq.Items()), chunks, 0);
            if k.None? then found.None? && dq.nodes == old(dq.nodes)
            else
              && found == FirstUnfetched(chunks, old(dq.Items())[k.value], 0)
              && dq.nodes == old(dq.nodes)[..k.value] + old(dq.nodes)[k.value + 1..]
              && dq.Items() == Without(old(dq.Items()), k.value)
  {
    hide LinkedList.Linlist.Valid;
    ghost var items, nodes, k := dq.Items(), dq.nodes, 0;
    var iter := dq.Start();
    dq.AtEnd(0);
    while iter != dq.head
      invariant dq.Valid() && dq.nodes == nodes && dq.Items() == items
      invariant k <= |nodes| && iter == dq.Successor(k - 1) && (iter == dq.head <==> k == |nodes|)
      invariant FirstWanted(items, chunks, 0) == FirstWanted(items, chunks, k)
      decreases |nodes| - k
    {
      assert iter == nodes[k] && iter.item == items[k];
      var i := 0;
      while i < |chunks|
        invariant i <= |chunks| && FirstUnfetched(chunks, items[k], 0) == FirstUnfetched(chunks, items[k], i)
      {
        if chunks[i].state == Unfetched && chunks[i].sha1 == iter.item {
          dq.Remove(iter, k);
          assert dq.Items() == Without(items, k);
          return Some(i);
        }
        i := i + 1;
      }
      iter := dq.Next(iter, k);
      k := k + 1;
      dq.AtEnd(k);
    }
    found := None;
  }
}
