# A verified model of a call-recording bridge

The program reads GED-188 events from a Cisco CTI server, keeps a record for each call, and sends a start
('S') and an end ('E') notice for each recorded stretch of a call to the VAS that serves the agent's address.
Each VAS has a handler with a bounded queue, a sending loop and a thread that watches its connection; when a
VAS is dead its messages go to an extra VAS. PFS servers, a standby process and an IP index stand around this.

`dafny verify dfyconfig.toml` checks all of it. Modules, from the events to the wire:

- `FloatingFields`: the (tag, length, data) fields of a message, the loops that walk them, the ClientID writer.
- `Decimal`, `IpIndex`: the two-level table from agent address to VAS number. The class `VasIndex` refines a map.
- `CallKeys`: the generator of call keys.
- `CallTracking`: the call tracker as a step function over a map and a log of notices. `CallIndependence` says
  what it does not depend on and what each message type does, `KeyedCalls` which generation gave a record its key.
  `NoticeSources` describes all notices a second time, by the positions of the events alone. `CtiHandling` has the object
  with methods that update the map in place and refine the tracker.
- `Rings`: the fixed ring all queues use, a class that refines a bounded sequence. `Push` and taking the head are
  all the protocols below know of it.
- `Mailbox`: the protocol of ring, semaphore and pending PFS change, as a transition system in which every
  step is one atomic action of one thread, so a run is any interleaving.
- `CtiDelivery`: the CTI queue between the socket thread and the tracker.
- `Watcher`: the thread that watches one VAS connection, one flag write or system call a step.
- `WatcherOutcomes`: what the watcher tells, a second time, by the outcomes of its system calls alone.
- `VasDelivery`: mailbox, watcher and sending loop of one VAS together; the loop reads one flag a step.
- `Forwarding`: any number of such handlers and the extra VAS. `Streams` has the selections of sequences it needs.
- `ScsPacket`: the 119-character packet and its overlapping text writes.
- `Sockets`, `KeepAlive`: the socket slot, the loops that use it, and the takeover by the standby process.

In the transition systems the history fields (`accepted`, `taken`, `routes`, `story`, `lowered`, `aliveAt`, ...) record
what happened, and no step decides by them. In the classes ghost fields play that part.

## What turned out to be conditional

- A message can go to the primary VAS although the read that decides it finds that VAS declared dead, against the
  intent stated in the comment at src/vasifhandler.cpp:489. `VasDelivery.SentAfterDeclaredDead` builds the run.
  `VasDelivery.DecisionsFollowStory` says exactly when: at the fourth flag test, if the declaration was told after
  the last read that saw the VAS alive (connected, or not declared dead) and still stands. `VasDelivery.DeadWhenTakenIsForwarded` and
  `VasDelivery.QuietRoutesAreRight` give conditions known when the message is taken: it never goes to a VAS that
  stands declared dead by then unless a change-back comes first, and while the watcher tells nothing new it goes
  to the primary VAS exactly if that is connected.
- A decision once taken stands: a VAS can also be declared dead between the decision and the send.
  `VasDelivery.SendsFollowStory` says exactly for which sends it was.
- The last PFS change asked for is sent exactly if it was not asked for between the send of another and the clearing
  of the flag, where lines 456 to 476 of src/vasifhandler.cpp drop it (`Mailbox.LastChangeIsSent`).
- An end notice repeats the last start notice exactly for calls that are settled (inbound, or outbound and
  established). Before that there is no start notice at all, and `CallTracking.EndWithoutStart` shows an end
  notice without one.
- A client id reads back exactly up to 252 octets (`FloatingFields.ClientIdReadsBack`).
- The floating-field walk stops exactly at its size only for well-formed buffers
  (`FloatingFields.WalkStopsAtSizeIffWellFormed`).
- A text of four parts is looked up as another address than it spells exactly when the second number is not an octet
  and the first two still combine to a prefix (`IpIndex.TextAliasesAddress`); 9.256.c.d is taken for 10.0.c.d.
- A text reads back from its packet field exactly when it fits and does not end in a blank
  (`ScsPacket.FieldReadsBack`).
- The size once derived from head and tail is right exactly when the ring is not full
  (`Rings.DerivedSizeFailsOnlyWhenFull`).

## Model

| member | source | states |
|---|---|---|
| CallTracking.EveryRunIsWellReported | src/ctiifhandler.cpp:590-795 | Throughout every run, each 'S' announces a settled open call, and each 'E' repeats the last 'S' of its call as the next two rows say |
| NoticeSources.EveryNoticeHasItsSources | src/ctiifhandler.cpp:115-795 | Every run sends exactly the notices the positions of its events call for, with the texts of the last fields with tags 15, 13, 10 of the opening Begin, 28 of the last Established that found a mapped address, and 81, 5, 4 of the last RTP start of direction 0 |
| NoticeSources.RecordsAreTold | src/ctiifhandler.cpp:874-1009 | After every run each text of an open call's record is that of the event at the position that told it last |
| NoticeSources.DirectionOfBegin | src/ctiifhandler.cpp:994-1009 | A Begin is outbound exactly if the texts of tags 25 and 8 are the same five characters |
| KeyedCalls.OpeningIsFirst | src/ctiifhandler.cpp:169 | The Begin that counts is the one at which the call was not open, with no Cleared behind it |
| CallTracking.EndRepeatsLastStart | src/ctiifhandler.cpp:713-795 | After every run, each 'E' of a settled call equals the last 'S' since the call was opened, in VAS, caller, key, extension, agent and address; for an unsettled call no 'S' was sent at all |
| CallTracking.NoStartBeforeEstablished | src/ctiifhandler.cpp:647-703 | Every 'S' belongs to an open call that is inbound or has had an Established event since its Begin |
| CallTracking.DirectionIsFixed | src/ctiifhandler.cpp:141-169 | The direction of a call never changes while its record lives |
| CallTracking.EndWithoutStart | src/ctiifhandler.cpp:750-764 | An outbound call whose media start and stop before Established emits one 'E' and no 'S' if the address is mapped, and nothing otherwise |
| CallTracking.RecordKnows | src/ctiifhandler.cpp:212-287 | After every run the map holds exactly the open calls, with direction and settledness as the events tell, and whatever a settled record could be routed by was announced in the last 'S' |
| CallTracking.OnRecordAnnounces | src/ctiifhandler.cpp:590-770 | One event on one record: the only way to a routable settled record is an 'S' that tells all of it |
| CallTracking.EmittedByOneCall | src/ctiifhandler.cpp:772-795 | A step emits at most one notice, about its own call, which is tracked, of kind 'S' or 'E' |
| CallIndependence.CallsAreIndependent | src/ctiifhandler.cpp:115-171 | For every run and call: its notices and its record are those of a run of its own events alone |
| CallIndependence.StepOnOneCall | src/ctiifhandler.cpp:435-465 | An event changes and reports its own call only, and depends on the record of that call only |
| CallIndependence.CountersDecideNothing | src/ctiifhandler.cpp:647-703 | Every run emits what the machine without nTwoRtpStarted and nTwoRtpStopped emits |
| CallIndependence.DiscardedMessagesDoNotMatter | src/ctisocketif.cpp:566-728 | Parsing the whole stream or only the five enqueued types gives the same map and the same notices |
| CallIndependence.QueuedIffTracked | src/ctisocketif.cpp:566-728 | The socket thread enqueues exactly the types 10, 13, 23, 116 and 117, and Parse gives exactly these to a tracking handler |
| CallIndependence.NoticesByType | src/ctiifhandler.cpp:1662-1721 | A message sends at most one notice, on its own call: a start for types 10 and 116 only, an end for type 117 only |
| CallIndependence.CallsByType | src/ctiifhandler.cpp:1662-1721 | Type 23 leaves the call in the map, type 13 leaves it out, 10, 116 and 117 do neither, and every other type changes nothing |
| CallIndependence.StartOfInbound | src/ctiifhandler.cpp:647-676 | Type 116 of an inbound call sends one 'S', with address and agent of the message, exactly for direction 0 and a mapped address |
| CallIndependence.StartOfOutbound | src/ctiifhandler.cpp:677-703 | The same for an outbound call once established, with the extension of the message |
| CallIndependence.StopOfCall | src/ctiifhandler.cpp:748-764 | Type 117 sends one 'E', with the texts of the record, exactly if both the message's and the record's address are mapped |
| CallIndependence.EstablishedCall | src/ctiifhandler.cpp:246-287 | Type 10 of an outbound call with a mapped address sends one 'S' with the number called |
| CallIndependence.TrackedIffBegunAndNotCleared | src/ctiifhandler.cpp:459-464 | The map holds exactly the calls with a Begin that no Cleared followed |
| CtiHandling.CtiIfHandler.Parse | src/ctiifhandler.cpp:1662-1721 | The object equals the tracker's run over all messages parsed, with the keys of the generator; each 'E' just sent for a settled call repeats its last 'S' |
| CtiHandling.CtiIfHandler.Dispatch | src/ctiifhandler.cpp:1662-1721 | One message changes map and notices as one step of the tracker does |
| CtiHandling.CtiIfHandler.OnBeginCallEvent | src/ctiifhandler.cpp:115-171 | Direction and call key are decided as in the tracker, an existing record is kept, and the generator moves only if a key was needed |
| CtiHandling.CtiIfHandler.OnCallEstablishedEvent | src/ctiifhandler.cpp:212-287 | The record and the notices after Established are the tracker's; an unknown call changes nothing |
| CtiHandling.CtiIfHandler.OnRTPStartedEvent | src/ctiifhandler.cpp:590-711 | The same for an RTP start; only direction 0 brings an address |
| CtiHandling.CtiIfHandler.OnRTPStoppedEvent | src/ctiifhandler.cpp:713-770 | The same for an RTP stop: gated by the event's address, routed by the record's |
| CtiHandling.CtiIfHandler.OnCallClearedEvent | src/ctiifhandler.cpp:435-465 | The record of the call, and no other, is gone |
| CtiHandling.CtiIfHandler.SendScsEventToVasQueue | src/ctiifhandler.cpp:772-795 | One notice from the record to the VAS of the record's address, none without one |
| CallKeys.KeysCollideOnlyAcrossWraps | src/ctiifhandler.cpp:89-112 | Keys fewer than 10000 generations apart differ whatever clock and prefix do; under one prefix two keys are equal exactly if the gap is a multiple of 10000 and the clock read the same |
| CallKeys.GeneratedAt | src/ctiifhandler.cpp:89-112 | The i-th key of a run carries its own prefix and clock and the sequence number (first + i) modulo 10000 |
| CallKeys.KeyReadsBack | src/ctiifhandler.cpp:104-107 | A key reads as prefix, day, hour, minute, second and sequence number, in that order and in 2, 2, 2, 2 and 4 digits |
| CallKeys.CallKeyGenerator.Generate | src/ctiifhandler.cpp:89-112 | The key is the next of all keys the generator makes, and the sequence number moves on modulo 10000 |
| KeyedCalls.OutboundKeysDiffer | src/ctiifhandler.cpp:155-169 | Two open outbound calls with generated keys share a key only if they took it a positive multiple of 10000 generations apart, so never within 10000 |
| KeyedCalls.RecordKeepsKey | src/ctiifhandler.cpp:155-169 | A record has the key its opening Begin gave it for as long as the call is open |
| CtiDelivery.WholeStreamIsReported | src/ctiifhandler.cpp:1724-1755 | If the queue was never full, a handler asleep for good has sent the notices, and holds the calls, of the whole stream the socket received |
| CtiDelivery.NoticesFollowQueue | src/ctiifhandler.cpp:1734-1745 | At every moment the notices are the tracker's over the messages parsed, which are the accepted ones in order but for the one in hand and the ring |
| Decimal.FixedInjective | src/ctiifhandler.cpp:104-108 | Fixed-width printing tells numbers that fit apart |
| Decimal.AtoiFixed | src/ctiifhandler.cpp:105 | A number printed at a fixed width reads back if it fits |
| Decimal.AtoiSigned | src/cfg.cpp:571-572 | A sign in front of a number counts, and what follows its digits does not |
| FloatingFields.WalkVisitsEncodedFields | include/typedefs.h:49-58 | For every list of fields with data below 256 octets, the walk visits exactly these fields in order and stops at the size |
| FloatingFields.FieldLayout | include/typedefs.h:49-58 | A field is one octet of tag, one of length, and the data |
| FloatingFields.WalkStopsAtSizeIffWellFormed | src/ctiifhandler.cpp:884-993 | The walk stops exactly at the size if and only if the buffer is the encoding of some list of fields |
| FloatingFields.WalkBeginCall | src/ctiifhandler.cpp:874-1009 | The five texts are the last occurrences of their tags in the visited fields, cut at the first NUL; the offset is the walk's end |
| FloatingFields.WalkTexts | src/ctiifhandler.cpp:1462-1605 | The same for the up to three texts of the other events |
| FloatingFields.LastTextIsLastOccurrence | src/ctiifhandler.cpp:1485-1537 | A text copied on each occurrence of its tag is in the end that of the last one |
| FloatingFields.LastTextOfAbsentTag | src/ctiifhandler.cpp:743-747 | A text whose tag does not occur stays empty |
| FloatingFields.ClientId | src/ctisocketif.cpp:293-309 | The octets of the field, nothing behind them changed, and the size modulo 256 |
| FloatingFields.ClientIdReadsBack | src/ctisocketif.cpp:99-151 | The walk finds a written client id, whole and alone, if and only if it has at most 252 octets |
| FloatingFields.CTextOfTerminated | src/ctisocketif.cpp:293-309 | A client id without NUL is the text of its field |
| IpIndex.Tokenize | src/util.cpp:166-185 | The loop collects the trimmed runs between dots |
| IpIndex.TokensOfJoined | src/util.cpp:166-185 | Splitting a dotted text of clean parts gives the parts back |
| IpIndex.TrimDropsBlanks | src/util.cpp:26-43 | Blanks around a part do not count |
| IpIndex.PartsAreLookedUp | src/cfg.cpp:637-669 | A text of other than four parts has no VAS, one of four that of the address read |
| IpIndex.LastAcceptedLineWins | src/cfg.cpp:536-669 | After any sequence of range files, aborted ones included, a printed address goes to the VAS of the last accepted line that names it, or to none |
| IpIndex.PrintedLineTakesEffect | src/cfg.cpp:536-635 | A line with an address takes effect exactly if its prefix has one of ten slots or gets one; every other address keeps its VAS |
| IpIndex.NumbersAreJudged | src/cfg.cpp:571-616 | A line of four numbers is accepted exactly if all are in 0..255 and there is a slot |
| IpIndex.OtherLinesAreRejected | src/cfg.cpp:549-569 | A line of another number of parts is rejected unless it is shorter than three characters |
| IpIndex.RejectedLineEndsFile | src/cfg.cpp:563-616 | What follows the first rejected line of a file has no effect |
| IpIndex.DottedAddressIsLookedUp | src/cfg.cpp:637-669 | For numbers in 0..255 the lookup by text is the lookup in the map |
| IpIndex.SecondNumberDecidesAliasing | src/cfg.cpp:650-663 | The lookup is that of the written numbers in every table if and only if the second is an octet or the sum of the first two names no address |
| IpIndex.TextAliasesAddress | src/cfg.cpp:637-669 | The same for every text of four parts |
| IpIndex.SecondNumberCarriesOver | src/cfg.cpp:650-663 | In every table the text 9.256.c.d is looked up as 10.0.c.d |
| IpIndex.VasIndex.constructor | src/cfg.cpp:84-85 | The tables filled with -1 stand for the empty map |
| IpIndex.VasIndex.ClaimSlot | src/cfg.cpp:580-605 | Used slots stay a prefix with distinct values; an eleventh prefix is refused; the map is unchanged |
| IpIndex.VasIndex.Assign | src/cfg.cpp:607-631 | One cell written is one address of the map changed |
| IpIndex.VasIndex.SetLine | src/cfg.cpp:549-631 | A line changes tables and prefixes as the specification of one line says, also when it is rejected after its slot was claimed |
| IpIndex.VasIndex.SetRange | src/cfg.cpp:536-635 | A file has the effect of its lines up to the first rejected one, and returns 0 or -1 accordingly |
| IpIndex.VasIndex.GetVasNo | src/cfg.cpp:637-669 | The search of the two tables gives the VAS number of the map for every text |
| Rings.Ring.Enqueue | src/vasifhandler.cpp:76-112 | On the contents: append, or refuse when full; head = tail + size modulo the capacity and blank free slots are kept |
| Rings.Ring.Dequeue | src/vasifhandler.cpp:119-152 | On the contents: take the oldest and blank its slot, or report empty; the clamp of the size never fires |
| Rings.DerivedSizeFailsOnlyWhenFull | src/ctiqueue.cpp:128-135 | The size derived from head and tail equals the counted one if and only if the ring is not full |
| Mailbox.NoLostWakeUp | src/vasifhandler.cpp:447-485 | In every interleaving, a consumer asleep with no token and no post to come has taken every accepted message and has no change pending |
| Mailbox.LastChangeIsSent | src/vasifhandler.cpp:452-477 | A consumer asleep for good that was asked for changes has sent one; the last one asked for was sent, as the last, exactly if it did not come between a send and the clearing of the flag |
| Mailbox.ChangesSentWereRequested | src/vasifhandler.cpp:47-52 | Each change sent is the newest one asked for at that time, and no request is sent twice |
| Mailbox.AcceptedAsEnqueued | src/vasifhandler.cpp:76-112 | Every message is accepted in the producers' order or refused, and none is refused unless the ring was full |
| Mailbox.StepKeepsInv | src/vasifhandler.cpp:47-152 | Each step keeps the phase-by-phase cover of work by tokens, and accepted = taken ++ ring |
| Mailbox.TokensMatchMessages | src/ctiqueue.cpp:62-145 | Without change requests and failed waits, tokens, posts in flight and held token equal the ring size; the consumer never finds the ring empty |
| Watcher.FlagsAndSocket | src/vasifhandler.cpp:231-397 | The flags are never both up, `connected` means an open socket, descriptors are opened and closed in turn, and a socket is created in an empty slot only |
| Watcher.DeadOnlyAfterThreeFailures | src/vasifhandler.cpp:276-387 | Each declaration is told behind a loss, three failed attempts in a row and one notice to each PFS |
| WatcherOutcomes.DeathTakesThreeRefusals | src/vasifhandler.cpp:276-387 | A VAS stands declared dead only if the last four outcomes of system calls are a broken poll and three refused attempts, all of them calls that failed |
| WatcherOutcomes.FourthLastFails | src/vasifhandler.cpp:276-387 | The first of these is a poll, the others are calls made to reconnect |
| WatcherOutcomes.StoryFollowsOutcomes | src/vasifhandler.cpp:231-387 | In every run the watcher tells what the outcomes of its calls give to tell, as a second description without places or counters says |
| WatcherOutcomes.ToldUponOutcome | src/vasifhandler.cpp:285-350 | A failed attempt is told exactly upon a call that fails while reconnecting; a connection only if the last outcome is a connect that succeeded |
| WatcherOutcomes.SlotFollowsCalls | src/vasifhandler.cpp:236-350 | The slot is in use after exactly those calls to create or connect that succeeded |
| WatcherOutcomes.OutcomesAreToldSoon | src/vasifhandler.cpp:250-387 | Within four of its own steps the watcher has told what its outcomes give to tell and set its flags accordingly |
| WatcherOutcomes.ChangeBackLowersFlag | src/vasifhandler.cpp:383-390 | A requested change-back brings the flag of a dead VAS down within four of the watcher's own steps |
| Watcher.DeadUntilChangeBack | src/vasifhandler.cpp:383-390 | A declaration ends only with a consumed change-back, and each consumption was requested since the one before |
| Watcher.StepKeepsInv | src/vasifhandler.cpp:231-390 | Every step keeps the story well told and flags, slot and requests in agreement with it |
| Watcher.FlagsTellTheStory | src/vasifhandler.cpp:231-390 | In every run `connected` is up exactly if the connection came up last, and `failedToConnect` exactly if the VAS was declared dead since it was last cleared |
| VasDelivery.EachMessageOnceInOrder | src/vasifhandler.cpp:478-534 | At every step accepted = disposed ++ in hand ++ ring; each disposed message went to exactly one server; both got theirs in order of acceptance |
| VasDelivery.NothingLeftBehind | src/vasifhandler.cpp:447-534 | A handler asleep for good has sent or forwarded everything it accepted |
| VasDelivery.DecisionsFollowStory | src/vasifhandler.cpp:489-534 | In every run a read decides to send exactly if it is the third test or the first of the wait loop and the connection came up last, or the fourth test and the VAS was declared dead since a read last saw it alive, with no clearing of the flag behind it; it decides to forward exactly at the second test and in the wait loop while the VAS stands declared dead; the first with the VAS declared dead happens at the fourth test only |
| VasDelivery.SendsFollowStory | src/vasifhandler.cpp:515-533 | In every run, at a send: the VAS was seen alive after the message was taken, with the connection up unless a declaration followed, and it stands declared dead exactly if a declaration was told since and not taken back |
| VasDelivery.DeadWhenTakenIsForwarded | src/vasifhandler.cpp:489-493 | A message taken while the VAS stands declared dead, with no change-back consumed since, is never sent there: its two reads lead to the extra VAS |
| VasDelivery.QuietRoutesAreRight | src/vasifhandler.cpp:489-534 | While the watcher has told nothing new since the message was taken, a decided message goes to the primary VAS exactly if that is connected |
| VasDelivery.StillFlagsDecide | src/vasifhandler.cpp:489-534 | With the flags still, a message is decided within four reads, a waiting one within three: sent if connected, forwarded if declared dead, else it waits |
| VasDelivery.MailboxRunsAlone | src/vasifhandler.cpp:447-534 | The mailbox of a handler is in a run of its own, so that the results on mailboxes hold of it |
| VasDelivery.RoutesFollowSteps | src/vasifhandler.cpp:489-534 | The routes are those of the sends and forwards made, in order |
| VasDelivery.SentAfterDeclaredDead | src/vasifhandler.cpp:490-533 | A reachable state at the fourth test with the VAS declared dead, whose next read decides to send, and the send after it |
| Forwarding.ForwardedMessagesAreConserved | src/vasextra.cpp:74-150 | What all handlers forwarded was admitted or refused by the extra ring; what was admitted is queued, in hand, sent or discarded; the counts add up |
| Forwarding.FatesFollowConnection | src/vasextra.cpp:397-413 | Each delivery is sent exactly if the connection was up, by the last gain or loss before it, and discarded otherwise |
| Forwarding.NothingDiscardedConnected | src/vasextra.cpp:397-413 | With a connection from before the first delivery that lasts, nothing is discarded |
| Forwarding.NothingSentUnconnected | src/vasextra.cpp:397-413 | Without any connection nothing is sent |
| Forwarding.EachSourceKeepsItsOrder | src/vasextra.cpp:388-414 | What the extra VAS got of one handler is in the order in which that handler accepted it |
| ScsPacket.MakeScsEvent | src/pktdef.cpp:192-207 | For all texts of a record the overlapping writes leave exactly the meant packet |
| ScsPacket.Make444 | src/pktdef.cpp:22-113 | The copies of each length case fill all twelve characters as specified |
| ScsPacket.NumbersAreGroupedByFour | src/pktdef.cpp:22-113 | A national number, dialled with or without its 0, comes out as area, exchange and line of four digits each |
| ScsPacket.OtherNumbers | src/pktdef.cpp:22-113 | Up to seven characters get zeros in front, eleven get one, and of twelve or more the first twelve are kept |
| ScsPacket.FieldSlices | include/pktdef.h:14-50 | Each field of the packet is where the struct has it |
| ScsPacket.PacketOfNotice | src/ctiifhandler.cpp:772-795 | Each text of a notice stands in its own field of the packet |
| ScsPacket.FieldReadsBack | src/pktdef.cpp:200-204 | Cutting out and trimming a field gives the text back if and only if it fits and does not end in a blank |
| ScsPacket.LayoutSizes | include/pktdef.h:8-50 | The packet has 119 characters and declares the 110 that follow its header |
| ScsPacket.OverlayExtendsPrefix | src/pktdef.cpp:196-206 | A write at the end of a finished prefix finishes the next field, whatever it spills |
| ScsPacket.EndPacketRepeatsStartPacket | src/pktdef.cpp:192-207 | After every run, the packet of each 'E' of a settled call goes to the VAS of the last 'S' packet of that call and differs from it in time and type only |
| Sockets.MySocket.CreateSocket | src/mysocket.cpp:32-129 | Refused on a used slot; otherwise it leaves a descriptor or an empty slot, with no descriptor left open |
| Sockets.MySocket.ConnectToServer | src/mysocket.cpp:144-166 | A failed connect closes the descriptor and empties the slot |
| Sockets.MySocket.DestroySocket | src/mysocket.cpp:173-185 | The slot is empty and its descriptor closed |
| Sockets.WatchExtra | src/vasextra.cpp:212-304 | No socket is asked for on a used slot; the descriptors are the lives of its attempts, one after the other |
| Sockets.RunPfs | src/pfsifhandler.cpp:105-229 | The same, and the reconnects, losses and change requests are those of the specification |
| Sockets.FanOutAfterThreeFailures | src/pfsifhandler.cpp:147-174 | All handlers are asked to change exactly upon each third failed reconnect in a row |
| Sockets.StoryFollowsTries | src/pfsifhandler.cpp:105-229 | The PFS handler tells what the attempts alone give to tell: a fan-out upon exactly the third failure in a row behind a success |
| Sockets.RunCti | src/ctisocketif.cpp:447-485 | The same for the CTI socket, and the servers are tried in the order of the specification |
| Sockets.StandbyAfterOddFailures | src/ctisocketif.cpp:447-485 | The standby server has its turn exactly after an odd number of unconfirmed attempts |
| Sockets.TurnAt | src/ctisocketif.cpp:447-485 | Each attempt is made at the server which the number of unconfirmed attempts before it says, and its result is that of the script |
| Sockets.ConnectToCtiServer | src/ctisocketif.cpp:161-242 | -1 leaves an empty slot; 0 and 1 leave a connection, without and with a session |
| KeepAlive.KeepAlivedClient.HealthCheck | src/CKeepAlivedClient.cpp:70-130 | The counter equals the failures since the last heartbeat; the session ends where the specification says and the counter never passes 3 |
| KeepAlive.KeepAlivedClient.WaitForTakeover | src/main.cpp:140-174 | The takeover loop follows its specification and ends with the counter at 3 or more exactly if it took over |
| KeepAlive.TakesOverUponThreeFailures | src/main.cpp:140-174 | The process takes over exactly when failures since the last heartbeat have reached three, upon the end of an attempt with at least two failures before |
| KeepAlive.SessionFollowsPolls | src/CKeepAlivedClient.cpp:94-130 | By the polls alone: a session ends at the first failed send or receive, or failed poll that is the third failure since a heartbeat, and the counter is their number |
| KeepAlive.TakeoverFollowsScript | src/main.cpp:142-173 | By the attempts and polls alone: whether the process takes over, and with what count |
| KeepAlive.PollsStopAtThree | src/CKeepAlivedClient.cpp:97-105 | The test for exactly 3 never misses: no session goes on with three failures |

## Left out

- Socket options, poll, recv and send, threads, files, logging and signals: their outcomes are actions or scripts.
- Mutexes are atomic steps and the semaphore is a counter; sem_post is taken to succeed.
- The ring under a lock: the protocols use the sequence operations the class Ring is proved to refine.
- strMessageType, strTagValue, strErrorStatus, strAgentState, strPGStatusCode and all printing: lookup tables.
- The handlers and walkers of the event types that only print.
- Keyword parsing, comment stripping and line ends of configuration files: range lines are given without them.
- Fixed parts of messages and ntohl: messages are given decoded, with the size of their floating part.
- Fields longer than the buffers they are copied to: texts are as long as their field; packets assume texts of at most 29 characters, as a record holds.
- Integer widths of atoi and of the RTP counters: both are unbounded here.
- Short and failed reads in the receive loop at src/ctisocketif.cpp:555-566: every message is whole.
- The CTI queue copies as many octets as a message has: a slot holds a whole message here.
- Termination of the wait loop at src/vasifhandler.cpp:497-514, which can wait forever after a change-back to a dead VAS.
- Heartbeats and their timing, DiffTime and GetSentTime: a broken connection is one outcome, whichever call found it.
- The sends of VAS-change and PFS-change packets are recorded when attempted, whatever send returns.
- The missing terminator behind the twelve characters of the caller number, and the NUL behind the packet: the number is exactly twelve characters and the buffer has a 120th.
- ClientPassword with a text: its length and size disagree; the empty one has the octets of an empty client id under its own tag.
- GetInvokeID: its reset is outside the lock, so its numbers are not unique.
- Reloading the configuration during a run: the IP table and the number of handlers are fixed.
- An extra VAS without a configured port.
- m_nInboundCall has no value before the first Begin: it is taken as inbound, which no notice depends on.
- Sockets.WatchExtra: every connection of its script breaks in the end, and one that lasts is the end of a script.
