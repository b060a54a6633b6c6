# A verified model of the chunk-transfer peer

The program is a BitTorrent-like peer on UDP. This project models its five algorithmic cores in Dafny
and proves what they promise:

- the sender of a chunk (`src/upload.c`): window, congestion states, duplicate-ack counters, timers, go-back-to-ack
  retransmission (modules `Sender`, `SenderRuns`, `CongestionControl`, `SenderExamples`, `SenderAmbiguity`,
  `UploadRecord`);
- the receiver (`src/download.c`, `src/recv_win.c`): reassembly buffer and a packed ring bitmap as receive window
  (`RingWindow`, `Receiver`, `ReceiverRuns`, `DownloadRecord`);
- the two joined by a network that loses, duplicates and reorders (`Session`, `Progress`, `SessionExamples`);
- SHA-1 (`src/sha.c`) against FIPS 180-4 (`Sha1Spec`, `Sha1`, `Words`, `Sha1Example`);
- the multi-peer scheduler (`src/peer_server.c`, `src/parse_packet.c`, `src/send_helper.c`, `src/linkedlist.c`)
  (`Scheduler`, `SchedulerInvariant`, `SchedulerEvents`, `ServerRecord`, `LinkedList`);
- the network simulator (`hupsim.pl`): shortest-path tables, and packets on their way through the queues (`Paths`,
  `Dijkstra`, `Routers`, `Forwarding`, `Timing`, `MapFile`, `Simulator`);
- and two smaller ones that feed these: RTT smoothing (`Rtt`) and hash lists in packets (`Hex`, `HashPackets`).

Code that updates records in place is a class whose methods are proved equal to functions on the record's value; the
lemmas are about those functions, about single events and about whole runs. Clock readings are inputs: any positive
values, one per reading, and in `Session` never running backwards. Sending is adding to the set of packets in flight.

## What the model shows about the code

Where the code and its documentation disagree the model follows the code.

- Integrity holds in every run: a finished receiver has the chunk byte for byte, and the sender never finishes first
  (`Session.EndToEndIntegrity`).
- Progress is not unconditional. `Progress.StepsToProgress` says for every k exactly when a new acknowledgement is at
  most k steps away: one step when it is in flight, two when the receiver has something unacknowledged or the next
  packet is in flight, three while the sender has a retry left, four when a zero ack can restore the retries, five when
  the receiver can still send one, and otherwise never. The last kind, a dead end, is reachable
  (`SessionExamples.DeadEndIsReachable`).
- A finished receiver acknowledges nothing more, so a sender whose final ack is lost can never finish
  (`Progress.SenderFinishesOnlyByTheLastAck`, an if-and-only-if; `SessionExamples.LostLastAckIsReachable` is a transfer
  in which nothing else is lost).
- `readme.txt` says that acks of retransmitted packets are not used for the RTT. That is proved for acks that advance
  the window and for every sampled ack above the retransmission mark. A sampled repeat of the mark itself is the one
  family left, and there nothing in the record decides: `SenderAmbiguity.NoTestOnTheRecordDecides` gives two histories
  that leave the same record, under a clock that never runs backwards, with the sampled number sent once in the one and
  twice in the other.
- `readme.txt` promises a back-off of the timeout. A timeout makes the next one longer if and only if the estimate is
  neither zero nor as much as a quarter of the default (`SenderRuns.TimeoutLengthensIffEstimateIsShort`); above that it
  is cut down to half the default. Timeouts in a row therefore stop growing at half the default, and before the first
  ack every one of them gives just that, half the timeout packet 1 was first sent under (`SenderRuns.TimeoutsInARow`).
- `readme.txt` says the slow-start window grows by one for every valid ack. It grows by the number of packets newly
  acknowledged, which is one if and only if the ack is the next one (`SenderRuns.SlowStartGrowsByPacketsAcked`).
- The RTT estimate never drifts below the least sample rounded down to a multiple of eight (or its own start, if that
  is lower), a bound that a steady sample reaches. It is safe from falling back to zero, which means "not started", if
  and only if samples are at least 8 ms.
- A chunk is written at id times 512 KiB exactly for ids below 4096 (`SchedulerInvariant.PlaceIsRightUpTo4096`). From
  there on the product of two C ints overflows; the model takes it to wrap, as compilers in practice do, and chunks may
  then overwrite each other. File integrity needs, and assumes, that the chunks of one list have different places.
- `send_packet` computes the number of packets from payload bytes, not from hashes per payload. Lists of up to 370 names
  are carried whole, 371 names lose one, and `HashPackets.CarriedWhole` gives the exact lengths.

- The simulator keeps its promises on connected maps: packets take shortest ways and none is lost without being counted
  as dropped (`Forwarding.NothingVanishes`), none is faster than its links (`Simulator.NothingIsEarly`), and none stays
  behind once it is due (`Simulator.NothingWaitsOnceDue`).

## Model

| member | source | states |
|---|---|---|
| UploadRecord.Uploader.constructor | src/upload.c:107-119 | a new record is the cleared one with window 1, threshold 64 and half the default timeout as estimate |
| UploadRecord.Uploader.SendWindow | src/upload.c:56-102 | emits exactly the unsent numbers of the window in order, each with its own 1024 bytes, and leaves the state of Sender.Send |
| UploadRecord.Uploader.OnLoss | src/upload.c:132-143 | in-place form of Sender.Loss |
| UploadRecord.Uploader.GrowWindow | src/upload.c:186-229 | in-place form of Sender.Grow, all status branches |
| UploadRecord.Uploader.CountArrival | src/upload.c:165-183 | samples the RTT in slow start and congestion avoidance, counts the ack, and asks for a loss exactly on the fourth arrival |
| UploadRecord.Uploader.OnAck | src/upload.c:148-245 | in-place form of Sender.HandleAck for every ack value |
| UploadRecord.Uploader.IncreaseWindow | src/upload.c:262-276 | in-place form of the additive increase |
| UploadRecord.Uploader.OnTick | src/upload.c:252-298 | in-place form of Sender.CheckTimeout, its result, and the packets it resends |
| UploadRecord.StartUpload | src/send_helper.c:219-229 | a started upload has put exactly packet 1 on the wire |
| UploadRecord.UpdateUpload | src/send_helper.c:234-237 | an arriving ack is handled, then the window sent |
| Sender.HeadTimerIsArmed | src/upload.c:286-289 | while unfinished the timer and stamp of the next unacknowledged number are set, and stamps mark exactly the numbers sent |
| Sender.NewAckAdvances | src/upload.c:177-183 | an accepted ack above the last one never signals a loss and becomes the last one |
| Sender.HandleAckKeeps | src/upload.c:148-245 | handling any ack keeps congestion and bookkeeping invariants, and no mark falls back |
| Sender.StepKeeps | src/upload.c:56-298 | every ack and tick keeps the whole sender invariant; acknowledged and highest sent numbers never fall back |
| SenderRuns.InvariantHolds | src/upload.c:56-298 | the sender invariant holds after every sequence of events |
| SenderRuns.WindowFollowsStatus | src/upload.c:185-233 | in every run FR means window 1, FR_SS a window from 2 to the threshold, SS at most threshold plus one, CA and FR_CA above it, and fast recovery is unreachable |
| SenderRuns.NumbersInOrder | src/upload.c:231-241 | in every run acked <= sent <= highest sent <= 512, finished exactly at 512, and the head timer runs while unfinished |
| SenderRuns.SentExactlyUpToMax | src/upload.c:71-99 | the numbers ever sent are exactly 1 to max_pkt_sent, and any number sent twice is at or below max_retransmit_seq |
| SenderRuns.StampsRecordSending | src/upload.c:90-95 | a number has a stamp and a timer exactly when it has been sent |
| SenderRuns.StampIsLastSending | src/upload.c:90-95 | the stamp of a number is the clock reading of its last sending, and its timer runs from then |
| SenderRuns.SampleRunsFromLastSending | src/upload.c:165-169 | a sampled round trip runs from the last sending of the number acknowledged |
| SenderRuns.AdvancingSampleIsUnambiguous | src/upload.c:165-169 | Karn's rule: an advancing ack that yields an RTT sample is for a number sent exactly once |
| SenderRuns.SampleAboveMarkIsUnambiguous | src/upload.c:165-169 | any sampled ack above the retransmission mark is unambiguous; the others are all repeats of the mark itself |
| SenderExamples.RepeatedAckMaySampleResentNumber | src/upload.c:165-169 | a run in which a repeated ack of a twice-sent number is sampled, against the documented rule |
| SenderExamples.RepeatedAckMaySampleNumberSentOnce | src/upload.c:165-169 | a run in which a repeated ack of the mark is sampled and the number was sent once |
| SenderAmbiguity.NoTestOnTheRecordDecides | src/upload.c:165-169 | two histories under a clock that never runs backwards, with equal records, in which a repeated ack of the mark is sampled, sent once in one and twice in the other: no test on the record is exact at the mark |
| SenderRuns.CountersFollowArrivals | src/upload.c:172-183 | counters stay at most 3, never exceed the arrivals, and are zero above the last ack |
| SenderRuns.FastRetransmitNeedsThreeDuplicates | src/upload.c:178-183 | an ack-triggered loss repeats the last ack, in SS or CA only, after at least three earlier arrivals of it |
| SenderRuns.RetriesAreBounded | src/upload.c:291-297 | at most 2561 timeouts before finishing or being killed, plus five per zero ack |
| SenderRuns.TimeoutLengthensIffEstimateIsShort | src/upload.c:291-296 | a timeout resends the head under a longer timeout if and only if the estimate is neither zero nor a quarter of the default or more; under the same one exactly at zero and at a quarter |
| SenderRuns.TimeoutsInARow | src/upload.c:286-297 | n timeouts without an ack give min(2^(n+1) rtt, half the default), the default for a zero estimate; from the start of a transfer always half of the first timeout |
| SenderExamples.FirstTimeoutsDoNotBackOff | src/upload.c:291-297 | a run from the start in which the first timeout halves the RTO and the second leaves it |
| SenderRuns.SlowStartGrowsByPacketsAcked | src/upload.c:187-189 | in slow start the window grows by the packets newly acknowledged, by one if and only if the ack is the next one |
| CongestionControl.SlowStartEndsAtTheThreshold | src/upload.c:187-196 | an advancing ack ends slow start exactly when the grown window passes the threshold; it neither ends congestion avoidance nor widens its window |
| CongestionControl.RetransmitEndsWithItsPacket | src/upload.c:198-204 | fast retransmit is left exactly when its packet is acknowledged, with a window of two |
| CongestionControl.RepairEndsAtTheMark | src/upload.c:210-228 | a repair ends exactly when the ack reaches the retransmission mark, in slow start or congestion avoidance as the repair was on this or that side of the threshold |
| CongestionControl.LossHalvesAndResendsTheHead | src/upload.c:132-143 | a loss, however it shows, halves the threshold down to two, sets the window to one and the mark to the highest number sent, and sends exactly the first packet not acknowledged |
| CongestionControl.FourthArrivalIsALoss | src/upload.c:172-183 | while sampling, a repetition of the last ack is a loss exactly when three are counted, and otherwise changes only counter and estimate |
| CongestionControl.RepetitionsUntilLoss | src/upload.c:172-183 | any number of repetitions of the last ack include a loss exactly if they bring its count to four |
| CongestionControl.ReceiverTimeoutForcesALoss | src/download.c:129-137 | the acks of a receiver's timeout make a sampling sender go back exactly if it has had that ack before |
| CongestionControl.RepairCountsAnew | src/upload.c:172-175 | during a repair no ack is a loss, and a new one that skips k numbers starts its counter at 1 - k |
| CongestionControl.AckFillsTheWindow | src/upload.c:56-102 | after every ack as much is out as the window holds, or all that is left |
| CongestionControl.IncreaseAfterThePause | src/upload.c:262-276 | a tick widens the window by one exactly when congestion is being avoided and the pause of a round trip is over |
| CongestionControl.OneIncreasePerRoundTrip | src/upload.c:262-276 | however often the timer ticks, each enlargement comes more than a round trip after the one before |
| SenderExamples.CumulativeAckGrowsByTwo | src/upload.c:187-189 | a run in which one ack makes the slow-start window grow by two |
| Rtt.UpdateRtt | src/util.c:24-53 | in-place form of the smoothing step with 32-bit wrap-around |
| Rtt.SmoothingDoesNotDrift | src/util.c:24-53 | over any run of samples in [lo, hi], from any start, the estimate stays between the smaller of its start and 8*floor(lo/8) and the larger of its start and hi, and the deviation at most that width or its own start, whichever is larger; a zero start counts for neither bound of the estimate |
| Rtt.WeightsOfTheUpdate | src/util.c:39-51 | the estimate weighs old to new seven to one and the deviation three to one, truncation losing less than two; zeroes weigh nothing |
| Rtt.SteadySampleSettles | src/util.c:42 | the lower bound is attained: a steady sample brings every higher estimate down to exactly 8*floor(sample/8), and one at most seven below it stays |
| Rtt.NeverZeroAgainIffSamplesReachEight | src/util.c:35-42 | no run of samples brings a started estimate back to zero if and only if all samples are at least 8 |
| RingWindow.SlideFindsLeastMissing | src/recv_win.c:36-50 | a slide stops at the least missing number, loses and invents nothing, and a second slide changes nothing |
| RingWindow.ReplayHasExactlyTheOffered | src/recv_win.c:19-50 | after any interleaving of marks and slides the window has exactly the numbers offered in time |
| RingWindow.RecvWin.constructor | src/recv_win.c:10-14 | a new ring is empty and expects number 1 |
| RingWindow.RecvWin.SeqFitIn | src/recv_win.c:19-22 | answers whether a number lies in the window of 1024 |
| RingWindow.RecvWin.SeqExistIn | src/recv_win.c:27-29 | answers whether a number of the window is held |
| RingWindow.RecvWin.SetAt | src/include/recv_win.h:13 | sets one ring position and no other |
| RingWindow.RecvWin.UnsetAt | src/include/recv_win.h:14 | the exclusive or clears one set position and no other |
| RingWindow.MaskIsPower | src/include/recv_win.h:13-15 | the mask of bit 0 is 1, each further one is the one before shifted left, and none is zero |
| RingWindow.OrSetsBit | src/include/recv_win.h:13 | the or on a 32-bit word sets bit i and keeps every other bit |
| RingWindow.XorFlipsBit | src/include/recv_win.h:14 | the exclusive or on a 32-bit word flips bit i and keeps every other bit |
| RingWindow.PositionsDiffer | src/recv_win.c:8 | two numbers of one window never share a ring position |
| RingWindow.RecvWin.MarkReceived | src/recv_win.c:31-33 | adds exactly the number to the held set the ring represents |
| RingWindow.RecvWin.SlideAck | src/recv_win.c:36-50 | refines Slide: next is the least missing number, the held set is what lies above it, and front stays congruent to next-1 |
| DownloadRecord.Downloader.constructor | src/download.c:24-37 | a new record expects packet 1 and has nothing |
| DownloadRecord.Downloader.GetAck | src/download.c:44-49 | slides the window and answers one less than the next number |
| DownloadRecord.Downloader.Store | src/download.c:108-111 | copies the payload to its own offset and marks it, unless it is there already |
| DownloadRecord.Downloader.OnData | src/download.c:83-123 | in-place form of Receiver.Recv and the ack it sends, none for packets outside window or buffer |
| DownloadRecord.Downloader.OnLoss | src/download.c:129-137 | sends the current ack three times |
| DownloadRecord.Downloader.OnTick | src/download.c:144-168 | in-place form of Receiver.CheckTimeout, its result and its acks |
| ReceiverRuns.TimesOutAfterPatience | src/download.c:152-167 | a tick is a timeout exactly when the silence has lasted the whole default before the first estimate, half of it afterwards |
| ReceiverRuns.TimeoutsTakePatience | src/download.c:144-168 | n timeouts in a row take n times that long, so a silent receiver is not given up before 30 seconds, or 15 |
| ReceiverRuns.TimeoutKeepsWhatIsThere | src/download.c:129-137 | a timeout acknowledges everything up to the least missing number and neither loses nor makes up anything |
| ReceiverRuns.FirstPacketIsNotTimed | src/download.c:91-98 | the packet after the start or a timeout gives the payload length and no sample, every other one is a sample |
| Session.OverwriteSlice | src/download.c:109 | writing one slice of the buffer leaves all the others alone |
| Session.RecvKeeps | src/download.c:83-123 | any packet of the sender, new, old or repeated, keeps what the receiver has right; the next number moves exactly for the expected packet, and the ack is as sent |
| Session.StepKeeps | src/download.c:83-168 | every delivery, loss and timeout keeps the joint invariant: acked <= next-1 <= highest sent, each packet in flight carries its own slice |
| Session.EndToEndIntegrity | src/download.c:83-123 | in every run a finished receiver's buffer equals the sender's chunk and a finished sender implies a finished receiver |
| Progress.StepsToProgress | src/upload.c:286-297 | for every k and every state, exactly when the last acknowledged number can rise within k steps |
| Progress.ThreeStepsIff | src/download.c:129-168 | with both ends alive and the receiver unfinished, one timeout, one DATA and one ACK are enough if and only if a retry is left, something is unacknowledged, or the next packet is in flight |
| Progress.DeadEndsAlive | src/download.c:104-106 | with both ends alive, the dead ends are exactly: next packet lost, nothing unacknowledged, retries used up, and no zero ack to come |
| Progress.DeadEndForever | src/upload.c:154-158 | from a dead end no run ever acknowledges anything new |
| SessionExamples.DeadEndIsReachable | src/peer_server.c:217-231 | a dead end is reachable from the start of a session |
| Progress.SenderFinishesOnlyByTheLastAck | src/download.c:87-89 | once the receiver is finished the sender can finish if and only if it has, or ack 512 is in flight to a living sender |
| SessionExamples.LostLastAckIsReachable | src/download.c:87-89 | a transfer that loses nothing but the last ack leaves the sender unable to finish ever |
| Words.Choose | src/sha.c:52 | F_0_19 is Ch of section 4.1.1 of FIPS 180-4 |
| Words.Majority | src/sha.c:54 | F_40_59 is Maj of section 4.1.1 of FIPS 180-4 |
| Sha1Spec.ConstantsAreRoots | src/sha.c:66-69 | the four constants are the integer parts of 2^30 times the roots of 2, 3, 5 and 10 |
| Sha1.RoundConstantIsK | src/sha.c:66-69 | the macro group of twenty rounds uses the constant of the standard |
| Sha1.ShiftsRotate | src/sha.c:49 | ROTL by 1, 5 and 30 rotates to the left |
| Sha1Example.DigestOfAbc | src/sha.c:32-35 | the digest of "abc" is the published one, in text |
| Sha1.TempIsT | src/sha.c:57-64 | the macro's order of additions gives T of section 6.1.2 |
| Sha1.SwappedLoadIsBigEndian | src/sha.c:80-81 | a little-endian load swapped by BYTESWAP is the big-endian word |
| Sha1.SwappedStoreIsBigEndian | src/sha.c:84-89 | the swapped 64-bit length lies in memory most significant byte first |
| Sha1Spec.ZeroCountIsLeast | src/sha.c:536-538 | the specification's padding is the smallest that leaves room for the length |
| Sha1.PaddingIsPad | src/sha.c:536-543 | the 120-minus-bufferLength rule produces the padding of section 5.1.1 |
| Sha1.MacroRound | src/sha.c:358-442 | each macro round is the round of the standard with the right function and constant |
| Sha1.Sha1Context.constructor | src/sha.c:149-163 | a new context has absorbed nothing |
| Sha1.Sha1Context.LoadBlock | src/sha.c:186-189 | the first 16 words are those of the message schedule |
| Sha1.Sha1Context.Derive | src/sha.c:191-200 | the pointer walk fills in the message schedule |
| Sha1.Sha1Context.TwentyRounds | src/sha.c:214-225 | twenty rounds of one group advance the working variables as the standard does |
| Sha1.Sha1Context.Guts | src/sha.c:176-451 | the hash becomes the compression of the old hash with the buffer |
| Sha1.Sha1Context.Update | src/sha.c:453-527 | absorbs exactly the bytes given, whatever the buffer held |
| Sha1.Sha1Context.Final | src/sha.c:529-558 | the result is the SHA-1 digest of everything absorbed |
| Sha1.DigestOf | src/chunk.c:33-49 | the digest of one message |
| Sha1.DigestOfPieces | src/sha.c:598-602 | however a message is cut into pieces, the digest is that of the whole |
| ServerRecord.PeerServer.constructor | src/peer_server.c:50-107 | a new server knows no live peer and fetches nothing |
| ServerRecord.PeerServer.FindUnfetchedChunk | src/peer_server.c:120-147 | takes the first queue entry naming an unfetched chunk off the queue, or changes nothing |
| ServerRecord.FindUnfetchedNode | src/peer_server.c:120-147 | the same search on the nodes of the linked list: finds the first such entry and removes exactly that node |
| ServerRecord.PeerServer.TryGet | src/peer_server.c:150-162 | in-place form of Scheduler.TrySendGet |
| ServerRecord.PeerServer.AskAll | src/send_helper.c:16-28 | a WHOHAS lists the names still unfetched |
| ServerRecord.PeerServer.RefreshChunkDownload | src/peer_server.c:167-186 | in-place form of Scheduler.RefreshDownloads |
| ServerRecord.PeerServer.KillDownload | src/send_helper.c:171-175 | the chunk is unfetched again and one download fewer |
| ServerRecord.PeerServer.Abandon | src/peerlist.c:17-21 | a peer given up is neither alive, downloading nor uploading |
| ServerRecord.PeerServer.CheckAll | src/peer_server.c:189-240 | in-place form of Scheduler.CheckAllTimeout; keeps the scheduler invariant |
| ServerRecord.PeerServer.CheckHash | src/send_helper.c:189-210 | answers whether the buffer's SHA-1, as 40 hex digits, is the listed one |
| ServerRecord.PeerServer.Save | src/download.c:174-213 | writes the buffer at the place of its id, the wrapped C product, or at the start of the file when the seek fails; fetched only if all of it was written |
| ServerRecord.PeerServer.Finish | src/parse_packet.c:123-135 | in-place form of Scheduler.FinishDownload |
| ServerRecord.PeerServer.Match | src/send_helper.c:37-46 | collects the asked names held here, in the order asked |
| ServerRecord.PeerServer.HandleWhohas | src/parse_packet.c:39-56 | in-place form of Scheduler.OnWhohas |
| ServerRecord.PeerServer.HandleIhave | src/parse_packet.c:58-80 | in-place form of Scheduler.OnIhave |
| ServerRecord.PeerServer.HashToIndex | src/peer_server.c:260-270 | the first index of a name, or none |
| ServerRecord.PeerServer.HandleGet | src/parse_packet.c:82-111 | in-place form of Scheduler.OnGet |
| ServerRecord.PeerServer.HandleData | src/parse_packet.c:113-144 | in-place form of Scheduler.OnData |
| ServerRecord.PeerServer.HandleAck | src/parse_packet.c:146-161 | in-place form of Scheduler.OnAck |
| ServerRecord.PeerServer.Parse | src/parse_packet.c:24-167 | in-place form of Scheduler.ParsePacket for every packet type; keeps the scheduler invariant |
| ServerRecord.PeerServer.ProcessGet | src/peer.c:93-117 | loads a list with every chunk unfetched and asks for all of it |
| SchedulerInvariant.JobGiven | src/send_helper.c:119-151 | giving an idle peer an unfetched chunk keeps jobs and fetching chunks one-to-one |
| SchedulerInvariant.JobTaken | src/send_helper.c:171-175 | taking a job away and settling its chunk keeps them one-to-one |
| SchedulerInvariant.ParsePacketKeeps | src/parse_packet.c:24-167 | any packet keeps the invariant and un-fetches nothing |
| SchedulerInvariant.CheckAllTimeoutKeeps | src/peer_server.c:189-240 | a round of timeouts keeps the invariant and un-fetches nothing |
| SchedulerInvariant.SchedulerAgrees | src/parse_packet.c:35-164 | in every reachable state downloading peers and fetching chunks correspond one-to-one, dl_num and ul_num count them within max_conn, and dead peers do neither |
| SchedulerInvariant.FileIsRight | src/download.c:185-199 | in every reachable state every fetched chunk is in the file at its place, for ids below 4096 at id times 512 KiB, with its listed hash; dl_remain counts the others, and zero means the whole file is right |
| SchedulerInvariant.LoadedListIsUnfetched | src/peer.c:108-111 | every entry of a loaded list is an unfetched chunk with the id and the hash of that entry |
| SchedulerInvariant.WholeListIsInFile | src/download.c:185-199 | from the loading of a list until another is loaded, each fetched entry has its listed hash at the place of its listed id in the file, and nothing is left exactly when all entries are fetched |
| SchedulerInvariant.PlaceIsRightUpTo4096 | src/download.c:185-187 | a chunk is written at id times 512 KiB if and only if 0 <= id < 4096 |
| SchedulerInvariant.SmallIdsHavePlaces | src/download.c:185-187 | for such ids the places differ if and only if the ids do |
| SchedulerInvariant.LargeIdsLandOnChunkZero | src/download.c:185-192 | ids from 4096 to 8192, and negative ones down to -4096, land on the place of chunk 0 |
| SchedulerInvariant.FetchedStaysFetched | src/parse_packet.c:133-135 | until another list is loaded a fetched chunk stays fetched |
| SchedulerInvariant.FinishedIffHashAndWrite | src/parse_packet.c:128-135 | a finished download is fetched if and only if its hash matches and all of it was written |
| SchedulerInvariant.SavingOverwritesSamePlace | src/download.c:185-195 | after a chunk is saved, another in the same place is right if and only if the bytes just written have its hash too |
| SchedulerInvariant.GetTakesFirstWanted | src/peer_server.c:120-162 | a GET goes out for the first wanted queue entry, whose chunk goes from unfetched to fetching, if and only if there is one |
| SchedulerInvariant.RefreshLeavesNothingToDo | src/peer_server.c:167-178 | after a refresh either the limit is reached or no living idle peer has an unfetched chunk in its queue |
| SchedulerEvents.HeldPicksWhatIsHeld | src/send_helper.c:37-46 | an IHAVE lists the asked names at exactly the positions where the name is held, in the order asked |
| SchedulerEvents.HeldAsOftenAsAsked | src/send_helper.c:37-46 | each held name as often as it was asked for, no other name at all |
| SchedulerEvents.UnfetchedNamesPicksUnfetched | src/packet.c:117-137 | a WHOHAS lists the names of exactly the unfetched chunks, in list order |
| SchedulerEvents.WhohasIsAnswered | src/parse_packet.c:39-56 | one IHAVE goes out exactly when the limit is not reached, nothing is uploaded to the peer and something asked for is held |
| SchedulerEvents.IhaveIsUsed | src/parse_packet.c:58-80 | the names replace the queue of an idle peer and a GET goes out for the first wanted one, if a download may start |
| SchedulerEvents.GetStartsTheNamedUpload | src/parse_packet.c:82-111 | an upload of the first chunk with the asked name starts, or replaces a running one, exactly for a living peer below the limit when the name is held |
| SchedulerEvents.DataReachesTheReceiver | src/parse_packet.c:113-125 | DATA goes through the receiver of the peer it came from, and through nothing else |
| SchedulerEvents.LastDataSettlesTheChunk | src/parse_packet.c:123-135 | the completing DATA makes the chunk fetched exactly when the buffer has its hash and was written whole |
| SchedulerEvents.FinishLeavesNothingToDo | src/parse_packet.c:136-141 | after it nothing that may be fetched is left unasked |
| SchedulerEvents.AckReachesTheSender | src/parse_packet.c:146-161 | an ack goes through the sender of that upload, which ends exactly when the sender has finished |
| SchedulerEvents.GivenUpIffSilent | src/peer_server.c:197-231 | one turn of the timeout loop gives a living peer up exactly when its download or upload is silent for too long |
| SchedulerEvents.EveryPeerIsChecked | src/peer_server.c:189-236 | every peer gets its turn, and no peer's turn depends on another's |
| SchedulerEvents.RoundGivesUpTheSilent | src/peer_server.c:189-240 | after a round exactly the silent peers are given up, and nothing that may be fetched is left unasked |
| SchedulerEvents.AsksAgainWhenStuck | src/peer_server.c:180-186 | a refresh sends one WHOHAS for exactly the unfetched names if and only if nothing is being fetched, something is missing and the last one is more than 5 seconds ago |
| SchedulerEvents.LoadingAsksForEverything | src/peer.c:113-116 | loading a list sends a WHOHAS for all its names, in order |
| SchedulerEvents.SavedBytes | src/download.c:185-199 | what a whole or partial write does to each byte of the file |
| SchedulerEvents.AcceptedIffNamed | src/send_helper.c:189-210 | a chunk is accepted under a 40-digit name exactly when that is its SHA-1 |
| LinkedList.Node.constructor | src/linkedlist.c:15-22 | a node carries its item |
| LinkedList.Linlist.constructor | src/linkedlist.c:24-29 | an empty ring |
| LinkedList.Linlist.MutuallyInverse | src/linkedlist.c:47-70 | next and prev lead back to where they came from |
| LinkedList.Linlist.InsertLast | src/linkedlist.c:47-59 | appends the node |
| LinkedList.Linlist.Remove | src/linkedlist.c:61-70 | takes out exactly this node |
| LinkedList.Linlist.Start | src/linkedlist.c:72-75 | the first node or the sentinel |
| LinkedList.Linlist.Next | src/linkedlist.c:76-78 | the following node or the sentinel |
| LinkedList.Linlist.Walk | src/linkedlist.c:31-41 | the walk ends and meets every node once, in order |
| Dijkstra.VisitKeeps | hupsim.pl:247-274 | one visit keeps the label invariant: visited vertices settled, edges respected, predecessors one hop nearer |
| Dijkstra.AllVisitedIsLabelled | hupsim.pl:247-274 | with all vertices of a connected topology visited every label is finite and accounted for |
| Paths.LabelsAreDistances | hupsim.pl:226-274 | such labels are the hop distances |
| Paths.ForwardingIsShortestAndLoopFree | hupsim.pl:150-189 | forwarding through all the tables takes exactly the hop distance over real edges and meets no router twice |
| Paths.EveryPacketArrives | hupsim.pl:150-189 | on a connected topology a packet arrives from wherever it starts |
| Routers.NSQueue.constructor | hupsim.pl:11-30 | an empty queue with the latency and the rate in whole bytes; a limit of zero means 10 |
| Routers.NSQueue.EnQ | hupsim.pl:47-69 | a packet is dropped and counted exactly when the queue is full, else it is the last in it, due after latency, its own transmission and that of all bytes before it |
| Routers.NSQueue.Shift | hupsim.pl:208-210 | the head leaves; size stays the bytes waiting |
| Routers.Router.AddRoute | hupsim.pl:137-148 | files a new empty queue with the given rate, latency and limit under the neighbour's number and keeps the others |
| Routers.DestinationIsListed | hupsim.pl:150-165 | a packet goes to the router listed for its address and port, 0.0.0.0 standing for 127.0.0.1 |
| Routers.Router.Recv | hupsim.pl:150-182 | no node at the address: dropped; a node here: sent and its bytes counted; else to the queue the table names, and without one the program dies |
| Routers.Reset | hupsim.pl:236-245 | distances, stale predecessors aside, are back at their start values |
| Routers.PickNext | hupsim.pl:249-259 | picks an unvisited vertex with the least label |
| Routers.Relax | hupsim.pl:261-272 | relabels exactly the neighbours it improves, through the shared records |
| Routers.VisitAll | hupsim.pl:247-274 | ends with every vertex visited and the invariant of Dijkstra intact |
| Routers.TraceBack | hupsim.pl:278-282 | the walk back along predecessors ends, without meeting an undefined one, at a first hop of a shortest path |
| Routers.CreateTable | hupsim.pl:226-288 | every entry is the queue of a first hop of a minimum-hop path, stale predecessors notwithstanding, and no die is reached |
| Routers.CreateTables | hupsim.pl:386-389 | with every router computing over the records the others left, all tables are right together |
| Forwarding.StepKeeps | hupsim.pl:150-224 | every injection and every release keeps each packet on a shortest path in the queue its table names, and no router dies |
| Forwarding.DeliveredByShortestPath | hupsim.pl:150-224 | whatever is injected and released when, a delivered packet was injected, and from the router of its injection it has taken exactly the hop distance over real edges and met no router twice; a waiting one is on such a way |
| Forwarding.NothingVanishes | hupsim.pl:150-224 | the packets waiting, delivered and dropped, each with entry router and destination, are exactly those injected, each as often as it was injected |
| Forwarding.QueuesRunEmpty | hupsim.pl:191-224 | without new packets there are at most as many releases as hops left, and while anything waits another is possible |
| Forwarding.NothingDroppedWithinLimits | hupsim.pl:54-58 | with no more packets than the smallest queue holds none is dropped |
| Timing.BurstLeavesInLine | hupsim.pl:47-69 | packets that come at once to an idle link leave in order, each when latency and transmission of everything up to it are over; as many as the queue holds are kept |
| Timing.ArriveOnTime | hupsim.pl:150-182 | a packet that arrives is queued with a due time that latency and transmission of the link allow |
| Timing.ReleaseOnTime | hupsim.pl:206-213 | a released head has had the time its link takes, and is on time at the next router |
| MapFile.ReadMap | hupsim.pl:366-383 | the lines of the map file give exactly the described topology, every line an edge both ways, with separate empty queues of the rate, latency and limit of the line |
| MapFile.Connect | hupsim.pl:381-382 | one addRoute adds one edge with the link of the line and keeps the rest of the network |
| Simulator.Accept | hupsim.pl:150-182 | recv on the objects is Arrive of module Forwarding, and changes the queues and their due times as Arrived of module Timing says |
| Simulator.Release | hupsim.pl:208-212 | one turn of the loop of run, for a head that is due, is a Release of module Forwarding; the queues change only by it and by the arrival |
| Simulator.DrainQueue | hupsim.pl:206-213 | releases what is due, in order, and nothing else, until the queue is empty or its head not yet due; only the router at the other end gets anything, and is then woken |
| Simulator.Run | hupsim.pl:191-224 | running a router is a run of releases that leaves every queue of it empty or with a head not due by a reading taken meanwhile, and touches only routers it wakes |
| Simulator.RunAll | hupsim.pl:443-451 | the loop over the routers that are to run ends, because every release leaves fewer hops, and leaves all of them without a head that was due by all readings taken meanwhile |
| Simulator.SetUp | hupsim.pl:363-389 | after reading a connected map and making all the tables the network is ready, shows the empty net and has the links of the map |
| Simulator.Simulate | hupsim.pl:337-455 | the whole program refines a run of module Forwarding whose injections are exactly the admitted packets, in order, each at the router and reading where it came in; in the end no queue has a head that was due by all readings of the last turn, and no packet has been faster than the links of the map |
| Simulator.SocketsSendWhatCameIn | hupsim.pl:150-182 | every packet a router hands to the socket of its node came in somewhere, addressed to that node |
| Simulator.NothingWaitsOnceDue | hupsim.pl:191-224 | once the head of every queue is due by all readings of the last turn nothing waits, and the packets that came in are exactly those delivered or dropped |
| Simulator.NothingIsEarly | hupsim.pl:191-224 | under a clock that never falls a packet is delivered no earlier than it came in plus latency and transmission of every link on its way |
| Hex.Binary2Hex | src/chunk.c:55-61 | in-place form of FromBytes |
| Hex.Hex2Binary | src/chunk.c:77-83 | in-place form of ToBytes |
| Hex.BytesThroughText | src/chunk.c:55-83 | bytes survive the trip through text |
| Hex.TextThroughBytes | src/chunk.c:55-83 | lower-case names survive the trip through bytes |
| HashPackets.OffsetsAreExact | src/include/packet.h:102-104 | in a valid packet the overflow guard never bites and every hash lies inside |
| HashPackets.ReadsWhatIsAnnounced | src/packet.c:180-198 | names are read out of a packet exactly when it is short enough, announces a hash and has all it announces |
| HashPackets.ReadOfPacked | src/include/packet.h:112-119 | reading a packed hash list gives back the names |
| HashPackets.FillPacket | src/packet.c:117-137 | one packet carries exactly the wanted names of its share of the list |
| HashPackets.SendHashes | src/packet.c:83-155 | the names read out of all packets are exactly the wanted ones among those carried, in order; no wanted one is lost if and only if none comes after those |
| HashPackets.NothingLostUpTo370 | src/packet.c:85 | up to 370 names are carried whole |
| HashPackets.ThreeSeventyOneLosesOne | src/packet.c:85 | 371 names lose one |
| HashPackets.CarriedWhole | src/packet.c:85 | the exact list lengths that are carried whole |
| HashPackets.Exchange | src/send_helper.c:30-117 | one valid WHOHAS and its answer leave the asker's queue with exactly the asked names that the other side holds, each as often as asked and in the order asked |

## Left out

- Sockets, spiffy headers, select, mmap, file opening, logging and progress printing: calls without logic of their own.
- Command-line, peer-list and chunk-list parsing, the stdin buffer and make_chunks: input plumbing.
- Failing mmap or clock calls in ul_init and ul_send; is_uploading is set whatever they return, so success is assumed.
- Loading a second list while downloads are active, and DATA left over from an earlier session with the same peer.
- Payloads other than 1024 bytes in the joined protocol; the receiver by itself is modelled for any payload length.
- 32-bit wrap of sequence numbers, windows and timestamps, except in SHA-1, in RTT smoothing and in file offsets.
- The sleeping times the simulator computes for select, its verbose output and its counters per SIGHUP; due times are exact reals where Perl uses floating point.
- Simulator.SetUp: requires a connected map, at least 8 bits a second on every line and a router for every listed node; on others the original dies or divides by zero.
- The GET and DENIED packet layouts, the header fields and byte order, and extended headers in hash packets.
- In ServerRecord the record of a peer is a value in a sequence and its hash queue a sequence of names; the in-place forms of transfers and queue are UploadRecord, DownloadRecord and LinkedList, and sharing between them is not modelled.
- SenderRuns.SampleAboveMarkIsUnambiguous: gives one direction for the mark itself; SenderAmbiguity.NoTestOnTheRecordDecides shows that no test on the record could give the other.
- Routers.CreateTable: requires a connected topology with fewer routers than the infinity constant; on others the original stops with an error or reads stale predecessors.
- Fairness and the duration of a transfer: progress is the existence of a short continuation, not a bound on time.
