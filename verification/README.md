# Chat system: causal multicast, ring election, announced ring

A Dafny model of the three protocols of the C chat system, with proofs about every run of each and about the
linked lists, arrays and texts they work on. Every handler is taken as it is coded, also where that differs from
what it was meant to do.

**Causal group multicast.** A client keeps `DELIVERED`, `SEND_SEQ` and a linked hold-back queue. It stamps a
line with `DELIVERED`, its own slot overwritten by `SEND_SEQ`; what it receives goes to the end of the queue, which
is then drained from the head, while the head's vector is covered by `DELIVERED`.
`Text` and `GroupFrame` are the datagram as text, `HoldBack` the drain on values, `ChatClient` the same code on
arrays and linked nodes, `CausalSystem` a group of clients over a lossy, unordered, duplicate-free network and
`CausalDelivery` what all its runs guarantee.

**Ring election.** When the leader falls silent, the processes elect the largest ID with VOTE and LEADER messages
along the ring and tear down their lists on the way. `Election` is one process, `ElectionRing` the ring over FIFO
links with its invariant, `ElectionProperties` safety, progress, message bounds and termination, `ElectionText`
the messages as text.

**The leader's registry and the ring it announces.** The leader keeps its peers sorted by ID and tells each of them
its successor. `ServerStruct` is the linked list, `RegistryRing` the operations on values and what every history of
them keeps, `RegistryLeader` the C functions on the list. `Peer` and `PeerProcess` are a process on the other end:
its list, its two sockets, the sockets it watches. `Heartbeats` says who stays in the registry, `PeerWatch` what such a
process watches: its sockets, and the age of its leader's last heartbeat.

`PeerKnowledge`, `RingFormation`, `PeerRuns` and `Epochs` close the circle: what the leader has sent makes its peers an
ascending ring, which is where an election starts when the leader is gone; and the winner, alone in its list, is where the
next registry starts. `PeerKnowledge` is what the messages amount to for one peer, `RingFormation` when the peers know
the ring, `PeerRuns` their handlers at work on all that the leader sends, and `Epochs.TwoEpochs` chains one election, the
registry after it, the handlers of the peers and the next election in one theorem, whose conclusion is again a run of an
election from a proper start.

In each layer a method works on the mutable structure and is proved equal to a function on values; the theorems are
about those functions, over all reachable states. An unsafe access (a null pointer followed, an index outside `DELIVERED`
or a dependency array) is a guard `Safe` on the step, and the runs include those in which it might fail: that it never
does is proved.

Every lemma carries `{:induction false}`. No proof needs Dafny's automatic induction, and in Dafny 4.11 the hypothesis it
generates for a lemma over several sequences leaves out their types in part, so that it can be contradictory and prove
anything; the inductions are written out instead.

## What the code does and what it was meant to do

- The drain stops at the first head that is not ready, instead of looking for another deliverable message. Order is
  never violated, but a client whose arrivals are once out of causal order prints nothing more while what arrives can
  be read: `HoldBack.StallExample` is the smallest case, `CausalDelivery.StalledRun` the consequence,
  `CausalDelivery.CompleteIffCausalArrival` the exact condition.
- A blank text line makes the receiver's `sscanf` fail. `deliver_messages` then answers with a null head and the whole
  queue is lost; a stalled client goes on from there, without what it lost (`HoldBack.CutFrees`).
  `CausalDelivery.Conservation` says that nothing is lost if and only if all that arrived could be read, and
  `HoldBack.DrainExact` what is left when some could not.
- `handle_group_receive` and `deliver_messages` scan the vector's text once more, into arrays of eleven bytes. No vector
  of ten counters fits them (`GroupFrame.ScratchTooSmall`), so every message that can be read overruns both.
- `get_deps_str` writes to the fifty bytes of `DEPENDENCY_STR` without looking: it stays within them if and only if the
  ten counters have at most 39 digits in all (`GroupFrame.DepsStrFits`); the frame around them then always fits its
  buffer (`GroupFrame.FrameFitsWithDeps`).
- The return code of `lcr_election` is 1 for a follower and the ID for a winner. `Election.CodeOneAmbiguous` says that
  this goes wrong exactly for ID 1; `ElectionProperties.NeverTrips` that it cannot happen among two or more
  distinct positive IDs.
- A process that forwards a larger VOTE does not become a participant, so it may later originate one of its own. The
  bounds of `ElectionProperties.MessageBounds` hold all the same.
- A participant flag left up would silence `send_ele_msg` in the next election. It is lowered with the teardown, the
  winner's when its LEADER is back: `ElectionProperties.QuiescentElected` includes it.
- `append_server` ignores an ID it already has. A peer told of a successor that is itself or its leader therefore
  watches a socket that has no list entry; `Peer.LinkStep` says that this is the only way to get there, and
  `PeerRuns.PeerStaysLinked` that the messages of the registry never lead there if nobody announces itself twice. The
  answer to a repeated announcement of a sole peer does name that peer itself (`RegistryRing.SentOutward`).
- A process that announces itself a second time is answered on a new socket, which becomes the one it heeds updates on,
  while `append_server_sorted` keeps the entry with the old one. It then misses every UPDATE_FROM_LEADER until it is
  told of a successor by KNOW_NEW_LEADER: `RingFormation.StrayExample`. `PeerKnowledge.AttentionKept` says that this
  operation and no other breaks the peers' attention, and `RingFormation.RingForms` that a peer knows its successor if
  and only if the successor last named on the socket it heeds is still the cyclic one. A second answer to
  a request for a welcome does no harm: the main loop does not read it.
- Several handlers follow `next` or `next->next` without a null test. No message of the registry trips a registered peer
  (`PeerRuns.PeerHandlesAll`), and no message of an election trips a process of a formed ring
  (`ElectionProperties.NeverTrips`). Between the two a process can trip, and `Peer.TripsExactly` says on which events:
  - an election message it must answer, when its successor has just closed its socket (`Peer.ClosedExample`);
  - alone in its list after the teardown, an UPDATE_FROM_LEADER from the old leader. The teardown leaves
    `ltcp_socket` as it was, and a leader that was only slow still sends updates there when it sweeps its silent peers
    (`Peer.TornDownExample`);
  - alone in its list, any HEARTBEAT by multicast, such as that of the winner before the process has rejoined it
    (`Peer.TornDownExample`);
  - alone in its list, an announcement that names itself as the leader, or a check of its leader's age, which the main
    loop does not make then.
- A single remaining peer is not told that it has lost its successor, which is why nothing is claimed of registries
  with one peer.

## Assumptions

- Election: at least two processes with distinct positive IDs, reliable FIFO links, atomic handlers, a fixed set of
  processes in each epoch. Timeouts may strike at any moment. The IDs may be in any order on the ring.
- Registry: a newcomer does not carry the leader's ID, and no two peers share a socket; where peers come in, sockets are
  never handed out again, and a peer handles what the leader sends it in the order in which it was sent, over all its
  sockets. `RegistryRing.RingAgreement` is about what is sent on the registered sockets, also after repeated
  announcements; what the peers know then is the matter of `RingFormation`.
- Epochs: between the end of an election and the next, each survivor announces itself once to the winner
  (`PeerKnowledge.Once`), nobody else joins, and until it has heard from the winner a survivor receives nothing else.
- Peer: new sockets are unused, and the process does not come to lead. `Peer.ShapeKept` assumes further that no handler has
  tripped, `Peer.LinkKept` also that every accepted successor is a third process, and `PeerWatch.SocketsKept` that an
  announcement arrives on a watched socket that is neither the listening one nor the successor's.
- Group: at most `MAX_GROUP_SIZE` clients, numbered as they stand; the network may lose, delay and reorder, but not
  duplicate; a client receives its own datagrams; a line holds no newline but its last.
- Clocks are parameters: `now` of an operation is any number, so the sweep is proved for every set of dead peers.

## Model

| member | source | states |
|---|---|---|
| CausalDelivery.CausalOrder | chat-c/client/client_s.c:235-323 | Causal delivery: whatever happened before a message a client prints has been printed by that client earlier, for all runs, senders and network orders. |
| CausalDelivery.VectorsExact | chat-c/client/client_s.c:235-242 | Of two sent messages one happens before the other if and only if the other's vector exceeds it at its sender's index; vectors grow along happens-before, which is irreflexive. |
| CausalDelivery.FifoWithoutGaps | chat-c/client/client_s.c:301-308 | Although the test is only `<=`, the message delivered carries exactly its sender's count: each client prints 0, 1, 2, ... of every sender; `DELIVERED` counts what was printed and never exceeds the sender's `SEND_SEQ`. |
| CausalDelivery.Conservation | chat-c/client/data_structure.c:4-34 | What was printed, followed by the queue, is the sequence of arrivals, if and only if all of them could be read. |
| CausalDelivery.UnreadIsBlank | chat-c/client/client_s.c:286-291 | A client reads what was sent as it was sent, unless it was a blank line; then it reads nothing. |
| CausalDelivery.CompleteIffCausalArrival | chat-c/client/client_s.c:298-320 | For any arrivals: the queue is empty if and only if every arrival since the last unreadable one came after everything that happened before it, counting what had been printed by that loss. Without unreadable ones that is every arrival. |
| CausalDelivery.LateHasMissing | chat-c/client/data_structure.c:36-49 | Any sent message whose vector a client's counters do not cover lacks one that really was sent, happened before it, and has not been printed there. |
| CausalDelivery.StalledRun | chat-c/client/client_s.c:314-319 | A client that holds something back prints nothing, keeps `DELIVERED` and adds to its queue exactly what arrives, as long as what arrives can be read. |
| CausalDelivery.NeverOverruns | chat-c/client/client_s.c:301-305 | In no run is `DELIVERED` or a dependency array indexed outside its bounds. |
| CausalSystem.StepKeeps | chat-c/client/client_s.c:235-323 | The inductive invariant of the group: every send and every receive keeps it and stays within `DELIVERED` and the dependency arrays. |
| CausalSystem.Gapless | chat-c/client/client_s.c:301-305 | A head that passes the pointwise `<=` test carries exactly the next number of its sender. |
| CausalSystem.DrainKeeps | chat-c/client/client_s.c:298-323 | A drain only moves messages from the front of the queue to the end of what was printed. |
| CausalSystem.ComposedExact | chat-c/client/client_s.c:235-241 | A message carries its sender's ID and index, `SEND_SEQ` in its own slot and `DELIVERED` in all others. |
| CausalSystem.Offered | chat-c/client/multicast.c:35-82 | A send offers the message to every client, the sender included, and otherwise changes the sender's number alone. |
| CausalSystem.ComposedReadable | chat-c/client/data_structure.c:80-88 | What a client sends is read back whole by every receiver, ID, index, vector and content, if and only if the text is not blank. |
| CausalSystem.DatagramCarries | chat-c/client/client_s.c:240-246 | Cutting the padded datagram at the first blank line gives that message, whatever the padding, with or without the newline of `fgets`. |
| HoldBack.DrainExact | chat-c/client/client_s.c:275-324 | For any sequence of arrivals, unreadable ones included: what had been printed by the last unreadable one stays; of what came after it, all before the first late message is printed in order of arrival and all from it on is held back. |
| HoldBack.CompleteIffOnTime | chat-c/client/client_s.c:298-323 | For any arrivals: the queue is empty if and only if since the last unreadable one each vector was covered by the per-sender counts of what was printed by then and arrived before it. |
| HoldBack.StalledForever | chat-c/client/client_s.c:314-319 | Once the queue is not empty, further readable arrivals change nothing but its end. |
| HoldBack.CutFrees | chat-c/client/client_s.c:286-291 | An unreadable message empties the queue and nothing else; the next message is then printed exactly if it is ready. |
| HoldBack.NothingLost | chat-c/client/data_structure.c:101-111 | If all arrivals can be read, nothing is lost, repeated or reordered; otherwise some are missing. |
| HoldBack.StallExample | chat-c/client/client_s.c:314-319 | Two messages of one sender are both printed in the right order, and both held back in the wrong one, although one of them is deliverable then. |
| ChatClient.Client.ArrayCompare | chat-c/client/data_structure.c:36-49 | Not positive exactly when the vector is pointwise covered. |
| ChatClient.Client.DeliverHead | chat-c/client/client_s.c:301-308 | Removing by clock index removes the very message just printed, however many queued ones share the index; the cursor stays on the live head. |
| ChatClient.Client.Drain | chat-c/client/client_s.c:298-321 | The loop over linked nodes is the drain of `HoldBack`. |
| ChatClient.Client.DeliverMessages | chat-c/client/client_s.c:275-324 | Drains a queue that is not empty, or loses the queue when the text cannot be parsed. |
| ChatClient.Client.HandleGroupReceive | chat-c/client/group.c:33-55 | Cut, append, drain: the new counters, queue and output after any datagram, lost queues included. |
| ChatClient.Client.MulticastSend | chat-c/client/client_s.c:235-246 | The datagram is the frame of `DELIVERED` with its own slot overwritten, which fits, followed by `x` up to 255 characters; only `SEND_SEQ` moves on. |
| ChatClient.Queue.Append | chat-c/client/data_structure.c:101-111 | The queue grows by one at its end. |
| ChatClient.Queue.Remove | chat-c/client/data_structure.c:4-34 | The first message of that clock index goes, and nothing else; an empty queue or an absent index is left alone. |
| ChatClient.RemovedExact | chat-c/client/data_structure.c:20-33 | What stood before and behind the first message of that index stays, in order. |
| GroupFrame.GetDepsStr | chat-c/client/data_structure.c:142-154 | The elements of the array, separated by commas, without a trailing one. |
| GroupFrame.GetDepsInt | chat-c/client/data_structure.c:156-166 | The numbers between commas, empty pieces skipped. |
| GroupFrame.NumbersPieces | chat-c/client/data_structure.c:156-166 | A comma separates what is read before it from what is read behind it and counts for nothing else; a piece without one is read by `atoi`. |
| GroupFrame.DepsRoundTrip | chat-c/client/data_structure.c:142-166 | Reading back a printed vector gives the vector, for every non-empty one. |
| GroupFrame.ElementFits | chat-c/client/data_structure.c:148-150 | A 32-bit element with comma and NUL fits the 12 bytes it is printed into. |
| GroupFrame.ClearFirst | chat-c/client/data_structure.c:114-127 | Wherever there is a blank line, the text is cut at the first one. |
| GroupFrame.FrameCut | chat-c/client/data_structure.c:114-127 | The first blank line is the end of the text line, whatever is padded behind it. |
| GroupFrame.FrameRoundTrip | chat-c/client/data_structure.c:85-90 | The five conversions give back the fields exactly if the text is not blank, and fail otherwise. |
| GroupFrame.ScratchTooSmall | chat-c/client/group.c:11-47 | No vector of ten counters fits the eleven bytes it is scanned into. |
| GroupFrame.DepsStrFits | chat-c/client/client_s.c:237-238 | The printed vector stays within `DEPENDENCY_STR` if and only if its counters have at most 39 digits; the receiver's copy takes 40. |
| GroupFrame.FrameFits | chat-c/client/client_s.c:240-246 | The message and its NUL fit in 256 bytes if and only if numbers and input have at most 185 characters together. |
| GroupFrame.FrameFitsWithDeps | chat-c/client/client_s.c:235-246 | They do whenever the vector fits `DEPENDENCY_STR`, with any 32-bit ID and any line `fgets` takes. |
| GroupFrame.SmallCountersFit | chat-c/client/client_s.c:235-246 | Vector and message fit as long as each counter is below 1000. |
| Text.NumberOfDecimal | chat-c/client/data_structure.c:149-163 | Reading the digits of a printed number gives the number. |
| Text.SignedNumbers | chat-c/client/data_structure.c:156-166 | A sign before the digits is read as such. |
| Text.AtoiElse | chat-c/client/data_structure.c:156-166 | White space before a number is skipped, and what does not begin like a number reads as 0. |
| ElectionProperties.ElectionSafety | chat-c/election_lcr.c:11-104 | In every reachable state at most one process leads, and it has the largest ID; every LEADER in flight carries that ID; a VOTE in flight has passed smaller IDs only. |
| ElectionProperties.LargestInFlight | chat-c/election_lcr.c:31-54 | Until somebody leads, the VOTE of the largest participating ID is in flight. |
| ElectionProperties.QuiescentElected | chat-c/election_lcr.c:79-103 | With all links empty after at least one VOTE: exactly one leader, the largest ID, and every other process has handled one LEADER, carrying that ID; every list holds its owner alone and every participant flag is down. |
| ElectionProperties.MessageBounds | chat-c/election_lcr.c:13-54 | A VOTE is sent at most as often as the rank of its ID, so at most n(n+1)/2 VOTEs in all, at most 2n-1 on an ascending ring, and at most n LEADERs. |
| ElectionProperties.VoteRank | chat-c/election_lcr.c:13-31 | A VOTE that has passed only smaller IDs was sent at most as often as the rank of its own. |
| ElectionProperties.PotentialDrops | chat-c/election_lcr.c:109-136 | Every message handled and every timeout that sends lowers the potential; other timeouts change nothing. |
| ElectionProperties.ElectionTerminates | chat-c/election_lcr.c:5-136 | Whatever the schedule, at most n(n+1)+2n events count, and 6n-2 on an ascending ring. |
| ElectionProperties.StuckMeansElected | chat-c/election_lcr.c:5-136 | When no event that counts is left, somebody has been elected. |
| ElectionProperties.NeverTrips | chat-c/socket_changes.c:80-125 | In no run does a handler follow a null pointer or misread a return code. |
| ElectionRing.StepKeeps | chat-c/election_lcr.c:5-136 | The inductive invariant of the election: every timeout and every message keeps it and is handled safely. |
| ElectionRing.FlagsStayDown | chat-c/election_lcr.c:79-89 | Every event keeps the flags of torn-down followers down, and the winner's once its LEADER is back. |
| Election.IntactHandles | chat-c/socket_changes.c:80-125 | What election code and caller do together to a process that has not been torn down, case by case. |
| Election.TornDownHandles | chat-c/election_lcr.c:13-16 | A torn-down process sends nothing and keeps its list, whatever still reaches it. |
| Election.CodeOneAmbiguous | chat-c/socket_changes.c:91-124 | Follower code and winner's ID stay apart if and only if the ID is not 1. |
| Election.LastOneLeads | chat-c/election_lcr.c:116-122 | The last survivor leads at once, alone in its list, and sends nothing. |
| ElectionText.ElectionRoundTrip | chat-c/socket_changes.c:80-91 | Every election message with an ID that is not negative is understood as itself. |
| ElectionText.PrintedLetters | chat-c/election_lcr.c:21-64 | The two messages, to the letter. |
| ElectionText.ScannedWord | chat-c/socket_changes.c:80-80 | The scan of a printed message gives its keyword and its ID. |
| ElectionText.LeaderBehind | chat-c/election_lcr.c:139-157 | `leader_found` finds the ID of a LEADER message behind the prefix. |
| ElectionText.NoLeaderInVote | chat-c/election_lcr.c:139-157 | `leader_found` answers 0 on every VOTE. |
| PeerProcess.Server.LcrVote | chat-c/election_lcr.c:11-78 | The VOTE cases on the linked list: new list, flag, message, return code, and the socket of the third node as target. |
| PeerProcess.Server.LcrLeader | chat-c/election_lcr.c:79-104 | The LEADER cases on the linked list: the lost leader's entry overwritten, flag cleared, message passed on with code 1; nothing from a process alone. |
| PeerProcess.Server.DropSuccessor | chat-c/socket_changes.c:96-110 | The successor's entry and both its sockets are gone together. |
| PeerProcess.Server.Dispose | chat-c/socket_changes.c:91-124 | The teardown for each return code. |
| PeerProcess.Server.ElectionMessage | chat-c/socket_changes.c:80-125 | The whole ELECTION branch: new state and messages sent. |
| PeerProcess.Server.SendEleMsg | chat-c/election_lcr.c:109-136 | A timeout: win alone, stay silent as participant, or vote. |
| PeerProcess.Server.CheckLeaderTimeout | chat-c/disconnection_handler.c:51-64 | Starts an election exactly when the leader's last heartbeat is at least `timeout` old, and otherwise does nothing. |
| PeerProcess.Server.ServiceDiscovery | chat-c/service_discovery.c:94-113 | The welcome builds [self, leader] or [self, leader, successor] and watches their sockets. |
| PeerProcess.Server.UpdateFromLeader | chat-c/socket_changes.c:52-75 | A new successor, heeded on the leader's socket only. |
| PeerProcess.Server.Repoint | chat-c/socket_changes.c:63-75 | A new successor replaces the old one, in the list and among the watched sockets. |
| PeerProcess.Server.KnowNewLeader | chat-c/socket_changes.c:129-161 | A new leader, with or without a successor. |
| PeerProcess.Server.SuccessorClosed | chat-c/disconnection_handler.c:18-20 | The third entry goes when the successor closes its socket. |
| PeerProcess.Server.LeaderClosed | chat-c/socket_changes.c:11-20 | A leader that closes its socket is no longer heeded or watched; its entry stays. |
| PeerProcess.Server.McastHeartbeat | chat-c/multicast.c:137-153 | A heartbeat by multicast stamps the leader's entry exactly if it carries the leader's ID. |
| PeerProcess.Server.Heartbeat | chat-c/socket_changes.c:162-163 | A heartbeat on a socket stamps the first entry with its ID. |
| PeerProcess.Server.Accept | chat-c/server_s.c:224-236 | An accepted socket is watched from then on. |
| Peer.WelcomeKeeps | chat-c/service_discovery.c:94-113 | The welcome gives a well-shaped list; the watched successor socket has its entry if and only if the successor is neither the process nor the leader. |
| Peer.RepointKeeps | chat-c/socket_changes.c:63-75 | The list becomes its first two entries and the new successor; entry and socket agree if and only if the successor is neither the process nor its leader. |
| Peer.LeaderKeeps | chat-c/socket_changes.c:129-161 | Likewise for the announcement of a new leader: without a successor the sockets stay linked, with one exactly if it is neither the process nor its leader. |
| Peer.LossKeeps | chat-c/disconnection_handler.c:18-20 | When the watched successor closes, its entry is there to be deleted, and the rest stays. |
| Peer.ElectionKeeps | chat-c/socket_changes.c:80-125 | An election message the process can answer leaves its list as it was or holding the process alone, and no watched successor socket without its entry. |
| Peer.ShapeStep | chat-c/socket_changes.c:52-161 | Every event that is handled without following a null pointer keeps the list [self], [self, leader] or [self, leader, successor] with distinct IDs. |
| Peer.LinkStep | chat-c/socket_changes.c:52-161 | An event keeps the link between watched successor socket and third entry if and only if it makes the process accept no successor but a third process; and with the link the successor's closing is safe. |
| Peer.ShapeKept | chat-c/socket_changes.c:52-161 | Over any history in which no handler has tripped, the list has one of these three shapes. |
| Peer.LinkKept | chat-c/disconnection_handler.c:18-20 | Over any such history in which every accepted successor was a third process, the deletion of a closed successor names an entry that is there. |
| PeerWatch.SocketsExact | chat-c/socket_changes.c:63-161 | For every event, which sockets are watched, heeded and used for the successor afterwards: a new successor's takes the place of the old one's, a teardown drops those of the successor, nothing else is touched. |
| PeerWatch.SocketsKept | chat-c/socket_changes.c:63-161 | Over any history as in `Peer.LinkKept` the listening socket stays watched, the leader's until it closes, and the successor's while it has an entry. |
| PeerWatch.PulseExact | chat-c/multicast.c:137-153 | A heartbeat by multicast sets the beat of the leader's entry if it is the leader's, and changes nothing else. |
| PeerWatch.LeaderDated | chat-c/multicast.c:137-153 | Over any history without a trip, the leader's beat is the time of the greeting or of its last heartbeat; heartbeats of others do not count. |
| PeerWatch.CheckAsks | chat-c/disconnection_handler.c:51-64 | Over any history without a trip, a check asks for an election if and only if the leader's last sign of life is at least `timeout` ago and the process has not voted; otherwise it changes and sends nothing. |
| Peer.WelcomeShape | chat-c/service_discovery.c:94-113 | The list after a welcome, entry by entry: itself, no longer leading, the leader with its socket and the present time, and the successor if it is a third process. |
| Peer.LeaderShape | chat-c/socket_changes.c:129-160 | The list after the announcement of a new leader, entry by entry. |
| Peer.TripsExactly | chat-c/socket_changes.c:52-161 | After any history as in `Peer.LinkKept`, the next event makes the process follow a null pointer if and only if it is one of those listed above, told by list length, IDs, flag and socket. |
| Peer.ClosedExample | chat-c/election_lcr.c:13-29 | A history, otherwise in order, at whose end a process without successor trips on a VOTE it would have to forward. |
| Peer.TornDownExample | chat-c/socket_changes.c:92-123 | A history, otherwise in order, at whose end a torn-down process trips on an update from its old leader, or on the new leader's heartbeat. |
| RegistryRing.RingAgreement | chat-c/multicast.c:191-312 | Over any history of joins, announcements, heartbeats and sweeps the peers stay strictly ascending, and with two or more of them the last successor told to each is its cyclic next. |
| RegistryRing.JoinKeeps | chat-c/multicast.c:207-245 | A join or announcement keeps the list sorted and that agreement on the registered sockets, also under an ID that is already registered. |
| RegistryRing.DropKeeps | chat-c/disconnection_handler.c:66-133 | Dropping a peer takes out its entry alone and keeps that agreement. |
| RegistryRing.InsertedAt | chat-c/server_struct.c:109-142 | A newcomer lands between smaller and greater IDs, and the successor found for it is its cyclic next. |
| RegistryRing.SweepFilters | chat-c/disconnection_handler.c:31-49 | A sweep that deletes while it walks equals one filter of the list, and leaves agreement, whichever peers died. |
| Heartbeats.SweptExact | chat-c/disconnection_handler.c:37-47 | A sweep leaves the leader in front and behind it exactly the entries with `now - beat < timeout`, in ascending order. |
| Heartbeats.JoinEnters | chat-c/server_struct.c:18-37 | Who joins or announces itself enters with its ID and socket, not leading, and with the time of joining as beat, between unchanged entries; a known ID changes nothing. |
| Heartbeats.JoinSurvives | chat-c/disconnection_handler.c:37-47 | Who has joined survives every sweep less than `timeout` later. |
| Heartbeats.AlwaysDated | chat-c/server_struct.c:286-304 | Over any history, every peer's beat is the time of its last heartbeat, or of its being entered if that was later. |
| Heartbeats.SweepLeaves | chat-c/disconnection_handler.c:31-49 | Over any history, a sweep leaves a peer if and only if its last sign of life is less than `timeout` ago. |
| RegistryRing.SentOutward | chat-c/multicast.c:207-245 | Every message sent goes to a registered peer and names neither it nor the leader; but for the answer to a registered process on a new socket, which names that process exactly if it is the sole peer. |
| RegistryRing.SweepOutward | chat-c/disconnection_handler.c:31-133 | The same of all the messages of one sweep, addressed to peers registered before it. |
| RegistryRing.OrderIndependent | chat-c/multicast.c:249-312 | Whatever the order and number of announcements, the same set of IDs gives the same peers in the same order, and on each registered socket the same successor told last. |
| RegistryRing.SameRegistry | chat-c/server_struct.c:127-138 | A sorted registry is determined by its set of IDs. |
| RegistryRing.HistoryIds | chat-c/multicast.c:249-312 | The registered IDs are exactly those that have joined. |
| RegistryLeader.Leader.NewServer | chat-c/multicast.c:191-247 | New list and messages of a join, on the linked list. |
| RegistryLeader.Leader.RingReconstruction | chat-c/multicast.c:249-312 | New list and messages of an announcement after an election. |
| RegistryLeader.Leader.NotifyPredecessor | chat-c/multicast.c:227-245 | The second message goes to the predecessor, cyclically, once there are two peers. |
| RegistryLeader.Leader.UpdateRing | chat-c/disconnection_handler.c:107-133 | Which successor is named to the predecessor of a lost peer. |
| RegistryLeader.Leader.Repair | chat-c/disconnection_handler.c:74-103 | The predecessor is told of the next peer once two are left, otherwise nothing is sent. |
| RegistryLeader.Leader.RingStatus | chat-c/disconnection_handler.c:66-105 | New list and messages when a peer is lost, the first and the last one included. |
| RegistryLeader.Leader.SweepNode | chat-c/disconnection_handler.c:39-47 | One turn of the loop: the cursor is a node of the shortened list or null, never a deleted one. |
| RegistryLeader.Leader.CheckHeartbeatTimeout | chat-c/disconnection_handler.c:31-49 | One pass leaves the leader's own entry and exactly the entries less than `timeout` old, in order, and keeps ring agreement. |
| RegistryLeader.Leader.Heartbeat | chat-c/socket_changes.c:162-163 | A heartbeat on a socket is the `Beat` of the histories. |
| ServerStruct.ServerList.Exists | chat-c/server_struct.c:4-16 | True exactly if some node, the head included, has the ID. |
| ServerStruct.ServerList.Append | chat-c/server_struct.c:39-57 | The entry comes last, unless its ID is known. |
| ServerStruct.ServerList.AppendSorted | chat-c/server_struct.c:109-142 | The entry comes before the first greater ID behind the head, unless its ID is known. |
| ServerStruct.ServerList.Delete | chat-c/server_struct.c:59-79 | Exactly the first node behind the head with that ID is unlinked. |
| ServerStruct.ServerList.IstPeerServer | chat-c/server_struct.c:144-158 | The node before the first peer with that socket, null without one or on a process that does not lead. |
| ServerStruct.ServerList.GetSuccessor | chat-c/server_struct.c:185-197 | The first greater ID behind the head, else the first peer. |
| ServerStruct.ServerList.GetPredecessor | chat-c/server_struct.c:199-211 | The node before the first one with that ID, null without one. |
| ServerStruct.ServerList.GetLast | chat-c/server_struct.c:213-221 | The last node. |
| ServerStruct.ServerList.UpdateHeartbeat | chat-c/server_struct.c:286-304 | The first entry with that ID has the beat `now`; it is otherwise as it was, and so are all others. |
| PeerKnowledge.HeardIsHandled | chat-c/socket_changes.c:52-161 | What a message makes a process know by ID, and the socket it heeds from then on, is what its handlers do, guard on the leader's socket included; they touch neither participant nor leader flag. |
| PeerKnowledge.HandlesAll | chat-c/socket_changes.c:52-161 | A process that handles all that was sent to its sockets, the messages being in the order in which a leader sends them, never trips, and its list is at every point the one computed from the messages. |
| PeerKnowledge.KnowsLastHeard | chat-c/socket_changes.c:52-161 | After messages on any sockets, in such an order, a greeted peer's list is itself, the leader and the successor last named on the socket of its last greeting, if that is a third process. |
| PeerKnowledge.HistoryGreets | chat-c/multicast.c:191-312 | The messages of any history of the registry are in such an order: a greeting opens every socket, all greetings name the same leader, and only a first one may name no successor. |
| PeerKnowledge.AttentionKept | chat-c/socket_changes.c:160-160 | From a state in which all peers heed their registered sockets, an operation of the leader leaves it so if and only if it is not the announcement of a process already registered. |
| RingFormation.RingForms | chat-c/multicast.c:191-312 | Over any history, with two or more peers, each that has handled its messages knows exactly itself, the leader and its cyclic successor, if and only if the successor last named on the socket it heeds is that one; which it is where that socket is the registered one. |
| RingFormation.RingFormsOnce | chat-c/multicast.c:191-312 | They all do over any history in which no registered process announces itself again. |
| RingFormation.StrayExample | chat-c/server_struct.c:113-114 | A history in which a process that announces itself twice ends up with a successor that is no longer its own. |
| PeerRuns.SentIsApt | chat-c/multicast.c:207-312 | Whatever the leader sends to a registered socket names a third process. |
| PeerRuns.PeerHandlesAll | chat-c/socket_changes.c:52-161 | Over any history of the registry, a registered peer that handles everything sent to its sockets never trips, keeps one of the three shapes and its flag, and ends with [itself, leader, cyclic successor] if and only if it is in touch. |
| PeerRuns.PeerKnowsRing | chat-c/socket_changes.c:52-161 | It does end so over any history in which no registered process announces itself again, with two or more peers. |
| PeerRuns.PeerStaysLinked | chat-c/disconnection_handler.c:18-20 | Over such a history, a peer whose new sockets are unused never watches a successor without an entry for it. |
| Epochs.FormedIsInitial | chat-c/server_struct.c:127-138 | Peers with the lists their messages gave them are an ascending ring in the state in which an election starts, if and only if all are in touch. |
| Epochs.NextElection | chat-c/disconnection_handler.c:51-64 | The election among them is such a run, sends at most 2n-1 VOTEs and n LEADERs, is over after 6n-2 events that count, and then somebody is elected. |
| Epochs.NextEpoch | chat-c/multicast.c:249-312 | The winner is a leader alone in its registry; once the others have announced themselves, each once and in any order, each knows itself, the winner and its cyclic successor. |
| Epochs.TwoEpochs | chat-c/election_lcr.c:5-136 | One election, the registry of its winner, the handlers of the others from the lists and flags it left them, and the next election after the winner falls silent: that one starts properly, runs among the IDs without the winner's, is linear in their number and ends with one of them elected. |
| Epochs.SettledIsFormed | chat-c/socket_changes.c:129-161 | The lists that the handlers leave the peers are those computed from the messages, and nobody is participant or leader who was not before. |
| Epochs.SettledExists | chat-c/socket_changes.c:52-161 | Such runs of the handlers exist for the peers of every history, wherever each starts from. |
| Epochs.SameKnowledge | chat-c/multicast.c:249-312 | Whatever the order in which the survivors announce themselves to a given winner, each ends with the same list of IDs. |

## Left out

- Socket setup, `select`, `getaddrinfo`, failures of `send` and `recv`, and the exits they lead to.
- Addresses and ports. They travel with the IDs, except that a repeated announcement from another address is passed on
  to the predecessor with the new address, while the list entry keeps the old one. That an address of seven characters
  or fewer in a welcome, or the port 0 in an announcement, means "no successor" is modelled as an option.
- The texts of UPDATE_FROM_LEADER, KNOW_NEW_LEADER, HEARTBEAT and the welcome; only election and group messages are
  modelled as text.
- GroupFrame.GetDepsStr: does not model the fixed `DEPENDENCY_STR` it writes to, nor negative elements, which never
  occur; `GroupFrame.DepsStrFits` says when the text fits.
- GroupFrame.GetDepsInt: does not model the caller's fixed array of ten; that what is read fits it is proved
  for whatever a client sends.
- What the overrun of the two arrays of eleven bytes does; their contents are never used.
- ChatClient.Client.HandleGroupReceive: takes for granted that the clock index and the number of counters of a message
  that can be read fit the arrays; `CausalSystem.ComposedReadable` proves it of whatever a client sends.
- ChatClient.Client.MulticastSend: takes for granted that the vector fits `DEPENDENCY_STR`; in `CausalSystem` vectors and
  messages have no size limit.
- An order of handling between two sockets of one peer other than that of sending.
- Wrap-around of the 32-bit counters, IDs and clocks.
- Random IDs, and how the leader hands out clock indices: clients are numbered from 0.
- `handle_mcast_receive` and `peer_mcast_receive`, but for the two announcements and the heartbeat they pass on.
- Clients that join late, reuse of a clock index after a change of leader, processes that join or crash during an
  election epoch.
- Unicast and group forwarding, the client array, change of mode, exit keyword, all printing.
- `chat-c/udp.c`, the `TcpClient` list, `chat-c/test.c`, `get_service_info`.
- Freed and leaked memory: nodes are unlinked, not freed; that no cursor is left on an unlinked node is part of
  the methods' contracts.
- The dependency array inside a queue node is a value, since no code writes to it after the node is filled.
