# Verification of the unit link

A Dafny model of the firmware of a Wi-Fi/BLE module for a ventilation unit. Its core is the
half-duplex UART link to the unit's board and the mirror of the unit's 243-byte EEPROM record that
is kept over it; around that, the neighbours that feed the mirror or depend on it.

`dafny verify dfyconfig.toml` checks everything.

## How it is built

The link in layers, each resting on the ones before:

| file | content |
|---|---|
| `Layout.dfy` | the packed record, its sections, copies between record and messages |
| `Frame.dfy`, `Requests.dfy` | frames, checksum, the request builders and the unit's reading of them |
| `Mailbox.dfy`, `Receiver.dfy` | the single-slot receive mailbox: as a transition system, and in place |
| `Bootloader.dfy` | the ACK-driven image transfer |
| `Link.dfy` | handshake, Connected loop, parsers and scheduler as step functions |
| `FlagWord.dfy`, `Globals.dfy`, `UnitTask.dfy` | the same in place: the request word with its masks, the record array, the UART, the firmware's variables |
| `Node.dfy`, `TransferRuns.dfy` | the firmware in an arbitrary environment; invariants of all its runs |
| `System.dfy`, `Coherence.dfy`, `Handshake.dfy`, `Runs.dfy` | the firmware with a unit; coherence and handshake correctness over all runs |
| `Witness.dfy` | runs from power-up that show what the coherence theorem has to leave out |
| `Flush.dfy`, `FlushOrder.dfy` | what becomes of a payload the application writes |
| `Timers.dfy` | the timers over the wrapping 32-bit clock |
| `Ticks.dfy` | what single ticks decide: search, handshake's end, priority, what a message does |

And the neighbours: `QueuedWrite.dfy` (BLE and MQTT payloads), `WifiQueue.dfy`, `DebugPrinter.dfy`,
`Subscriptions.dfy`, `Backoff.dfy`, `Staging.dfy`.

Where the source changes things in place there is a class whose methods carry the loops and buffers
and are proved equal to a function of the old state; the results about runs are about those
functions.

## What the environment is assumed to do

A Connected iteration is four ticks: the timers, Read_Message with its dispatch, the scheduler's
request, and, after the time the frame takes to go out, the busy flag and the cleared bit. Between
ticks anything else may happen. An application write is two such steps of another task, the copy
into the record and the raising of the five bits.

`Nodes` puts no condition on the environment: any burst at any time, even in the middle of a drain,
any clock, any steps of the other tasks. Copies whose length a message gives are cut at the end of
the buffers they would leave (`Link.CopyExact` says when).

`Systems` and what builds on it assume a unit that

- answers a request at most once and truthfully, in one frame that arrives whole or damaged;
- does not answer a search poll the firmware has given up on;
- moves a section's counter with every change, and never brings a counter round to the value the
  firmware has recorded, or is about to record from a section reply (fewer than 256 changes between looks);
- accepts every write, keeping its own counter byte; the counter moves unless the write changed nothing;

and an idle line on which a disturbance is over before the next request goes out
(`Witness.NoiseThenRead` shows what happens otherwise).

## Where the code does less than one would hope

Each of these is a theorem with its exact condition:

- a payload whose bits go up while a section's write goes out loses that section's write
  (`Nodes.RaisedInWindow`), and coherence with it if the unit's counter does not give it away
  (`Coherence.OvertakenWrite`, `Witness.UndercutLosesSection`; harmless with a unit that moves a
  counter at every write, `Runs.CoherentWithSteadyUnit`);
- a damaged answer to a read loses the read (`Witness.GarbledReadLosesSection`); one to a
  poll, a debug request or a write that moves its counter is harmless (`Runs.CoherentInEveryRun`), and one
  to a write that does not leaves at most the counter byte behind (`Coherence.DamagedAck`);
- a payload section whose counter byte is not the unit's is overwritten by a re-read before it is sent
  (`Flush.FlushWrites`, `Flush.FlushedByte`);
- a reply that never comes leaves the loop busy for good while the link counts as alive
  (`Timers.LostReplyWedges`);
- the link is given up, without need, if the clock wraps inside a window of one iteration
  (`Timers.LossExactly`);
- a burst of 128 bytes jams the receiver (`Mailbox.FullBurstJams`);
- an image whose length is no multiple of 4 loses its last bytes, one of 2^24 bytes or more its length
  (`Bootloader.TransferBody`, `Bootloader.TransferHeader`);
- a queued write is taken for the record whenever its first piece is, whatever the others are for
  (`QueuedWrite.FirstHandleCounts`);
- a serial change seen by the event handler is not subscribed for (`Subscriptions.SwallowedChange`), and
  a serial equal to the hardware id can take the hardware id's topics down with it
  (`Subscriptions.AliasLosesHwId`);
- the backoff gate opens early if the tick counter wraps (`Backoff.GateExactly`), and a client whose start
  failed is started again without it (`Backoff.AttemptWhileHeld`);
- images whose version byte is not two decimal digits can have equal versions though they differ
  (`Staging.SameVersion`, `Staging.VersionsCollide`);
- a quotation mark in topic or address breaks the debug message (`DebugPrinter.FieldsExactly`);
- the second comparing download stores a wrong file, since Data_Counter is never set back
  (`Staging.ExactlyIfCounterZero`, `Staging.CounterStays`).

The source's own comments differ from the code in one place that matters: the record has 243 bytes, not
242, so the conversion of old payloads in `src/ble.c` is never taken.

## Model

| member | source | states |
|---|---|---|
| Layout.SectionMacros | include/eeprom_data_struct.h:19-112 | The section offsets, ends and counts used everywhere are those that follow field by field from the packed record, whose size is 243 bytes (the comment on its last line says 242) |
| Layout.SectionMap | include/protocol_serial.h:314-336 | Sections that name different bytes do not overlap; exactly bytes 129-134 and 240-242 lie in no section |
| Layout.PatchSection | src/unit_comm.c:890-895 | Storing a section's bytes replaces that section (under either of its names), leaves every other section and every unassigned byte alone |
| Frame.CalcCksum16 | src/WBM_Serial.c:95-103 | The accumulating 16-bit loop returns the one's complement of the byte sum modulo 2^16 |
| Frame.WriteMessage | src/WBM_Serial.c:108-130 | Sealing in place: header, checksum low and high byte at the position byte 2 names, and position + 2 (cut to 7 bits) bytes on the wire |
| Frame.SealedIsFrame | src/WBM_Serial.c:108-130 | For every checksum position 3..125 the wire holds a well-formed frame around the caller's bytes |
| Frame.VerifyAcceptsFrames | src/WBM_Serial.c:178-191 | The receive tests accept a burst exactly when it is a well-formed frame, and otherwise return one of the three error codes |
| Frame.CksumSeesByte | src/WBM_Serial.c:95-103 | Because the sum of at most 127 bytes cannot wrap, changing one byte always changes the checksum |
| Frame.OneByteChanged | src/WBM_Serial.c:178-191 | A frame with any one byte changed, header, length and checksum bytes included, is never a frame |
| Frame.CorruptionDetected | src/WBM_Serial.c:165-202 | A frame with one byte changed gets a negative code if and only if the damaged burst does not read as containing one of the two unchecked tokens |
| Requests.ComSendRequestPollingBase | src/WBM_Serial.c:204-222 | The frame sent makes the unit hear a polling request with the error byte and the serial number |
| Requests.ComSendRequestDataDebug | src/WBM_Serial.c:274-283 | The frame sent makes the unit hear a debug request |
| Requests.ComSendRequestReadEeprom1 | src/WBM_Serial.c:224-272 | The frame sent asks for exactly the section's offset and count |
| Requests.ComSendRequestWriteEeprom | src/WBM_Serial.c:285-304 | For every count: nothing is sent past the record's end, nor for the counts of 120 and more the transmit buffer cannot carry (above 120 the code writes past it, which is reported); otherwise the unit hears a write of just those mirror bytes at that address |
| Requests.ComSendRequestWriteEeprom1 | src/WBM_Serial.c:306-335 | Every section but Configuration is written, with the mirror's bytes of that section |
| Requests.RequestArrives | src/WBM_Serial.c:108-202 | Every request the builders make is delivered unchanged by the second Read_Message call of an idle receiver |
| Mailbox.ReadIsSound | src/WBM_Serial.c:132-202 | The mailbox invariant (claim position 0 between calls; tail equal to the claim, or 0 with a claim of 0 or 128) survives every call whatever bursts arrive during the drain; the result fits int8_t; the mode flags never fall and a call raises at most one |
| Mailbox.Replay | src/WBM_Serial.c:44-202 | The mailbox invariant holds after every history of bursts and calls, bursts in the middle of drains included |
| Mailbox.DrainedBytes | src/WBM_Serial.c:160-163 | Byte j of a drained message is the byte the cache holds when the reader reaches j: a burst arriving during the drain mixes into the message |
| Mailbox.DrainedClaim | src/WBM_Serial.c:64-79 | A drain of 1..127 bytes gives the claim back and touches nothing but the message buffer |
| Mailbox.DrainedInTwoCalls | src/WBM_Serial.c:132-202 | An undisturbed burst of 1..127 bytes takes exactly two calls: the first says in progress, the second yields precisely its bytes and the verdict on them |
| Mailbox.SecondBurstWins | src/Uart1.c:50-65 | A burst between the two calls replaces the first: the reader gets its beginning cut to the old length, and the whole of it later |
| Mailbox.FrameRoundTrip | src/WBM_Serial.c:108-202 | What Write_Message sends is returned by the second call with result position + 2 and the same zero-padded bytes, if and only if the checksum position is 3..125; mode flags unchanged without a token |
| Mailbox.CorruptionReported | src/WBM_Serial.c:132-202 | End to end through the mailbox: one damaged byte gives a negative result if and only if no token appears |
| Mailbox.FullBurstJams | src/WBM_Serial.c:44-79 | After a burst of 128 bytes or more has come to an idle receiver and been looked at before another came, no later history makes the receiver deliver a message again |
| Receivers.Receiver.OnUartData | src/Uart1.c:50-65 | The UART event in place: at most 128 bytes kept, the rest of the cache zero, an unclaimed burst lost |
| Receivers.Receiver.SerialAvailable | src/WBM_Serial.c:44-57 | In place with the aliasing claim pointer: refines the mailbox's claim step |
| Receivers.Receiver.SerialRead | src/WBM_Serial.c:64-79 | In place: refines the mailbox's byte step, releasing the claim with the last byte |
| Receivers.Receiver.ReadMessage | src/WBM_Serial.c:132-202 | Read_Message in place, with bursts preempting the download loop, refines the mailbox transition all mailbox results are about |
| Bootloader.TransferHeader | src/unit_comm.c:676-699 | Decoding the 14-character header gives the length modulo 2^24 (so the length if and only if it is below 2^24) and the first file word |
| Bootloader.TransferBody | src/unit_comm.c:713-749 | The block step iterated from the start of an image: ceil(n/16) blocks; decoding them gives the first 4*floor(n/4) bytes, so the whole file if and only if n is a multiple of 4 |
| TransferRuns.TransferInRun | src/unit_comm.c:661-749 | In every state of every run that has opened a non-empty image: the unit was sent the header and, for the ACKs taken since, one block each, the first ones of the image; at the end all of them, which decode to the image's whole words |
| TransferRuns.TransferHappens | src/unit_comm.c:661-749 | For every non-empty image there is a run from power-up that opens it, takes one ACK per block and ends in Bootloader_State_End with all blocks sent, decoding to the image's whole words |
| Bootloader.ChunksCoverFile | src/unit_comm.c:720-745 | The blocks still to come stand for exactly the rest of the file, with bytes left to send as measure |
| Bootloader.DecodeBlock | src/unit_comm.c:722-736 | Reading a block's characters as words undoes the nibble encoding and the byte swap on every whole word |
| Bootloader.ValueOfDigits | src/unit_comm.c:680-697 | n characters from '0' up encode a number modulo 16^n |
| Bootloader.NothingToSend | src/unit_comm.c:661-676 | A missing or unreadable image announces size 0 and no block follows |
| Bootloader.BootTransfer.Announce | src/unit_comm.c:661-710 | The state that opens the image, in place on Send_Buffer: refines the announcement the header results are about |
| Bootloader.BootTransfer.SendNext | src/unit_comm.c:713-749 | One acknowledgement, in place on Temp_Buffer and Send_Buffer: refines the block step the body results are about |
| Link.Rereads | src/unit_comm.c:837-867 | Read bits are raised for exactly the counted sections whose counters differ, and for nothing else |
| Link.SetCounters | src/unit_comm.c:907-940 | Taking over the four counters changes just those four bytes |
| Link.CopyExact | src/unit_comm.c:890-895 | The reply's copy stays inside both buffers if and only if its offset and count say so, and then is byte for byte the code's |
| FlagWord.RaiseShows | src/ble.c:134-140 | OR-ing a mask into the 16-bit request word adds that job and no other |
| FlagWord.ClearShows | src/unit_comm.c:268-380 | AND-ing with a mask's complement removes that job and no other |
| Globals.Shared.CopyIn | src/unit_comm.c:890-895 | The byte loop into the record leaves the record with the data laid over it |
| Globals.Shared.ApplyEepromPayload | src/ble.c:167-189 | A payload of 241 bytes or more clears the record array and is copied over it; a shorter one changes nothing |
| UnitTasks.UnitTask.RunIteration | src/unit_comm.c:106-393 | One iteration of Unit_event_task on the global variables, the record array, the request word, the UART and the receiver, with what other tasks do before Read_Message, before the scheduler and while a request goes out, does exactly what the state machine's four ticks do; every frame written makes the unit hear its request |
| UnitTasks.UnitTask.ConnectToUnit | src/unit_comm.c:396-751 | Connect_To_Unit in place refines the handshake step |
| UnitTasks.UnitTask.ScheduleRequest | src/unit_comm.c:266-383 | The scheduler in place: the chain of mask tests, the frame written out, whatever happens meanwhile, then the busy flag up and the bit down |
| UnitTasks.UnitTask.WriteEepromDataParse | src/unit_comm.c:896-940 | The write acknowledgement in place, section by section: re-read bits and counters |
| UnitTasks.UnitTask.PollingBaseDataParse | src/unit_comm.c:758-867 | The counter part of a polling reply in place, seeding the external counters first if need be |
| UnitTasks.UnitTask.ReadEepromDataParse | src/unit_comm.c:890-895 | The copy loop on the record array refines the mirror update that the coherence results are about |
| UnitTasks.UnitTask.OnSectionMessage | src/unit_comm.c:460-590 | A reply in one of the six section stages: bytes stored at the stage's section, next request, next stage |
| UnitTasks.UnitTask.SendWrite | src/unit_comm.c:342-380 | A section write reads the section from the record array and puts on the UART a frame the unit hears as the request recorded |
| Nodes.AlwaysSane | src/unit_comm.c:106-393 | Under arbitrary bursts, clocks and steps of other tasks, also while a request goes out, the phase, search, order and half-duplex invariants hold in every reachable state |
| Nodes.OneRequestOutstanding | src/unit_comm.c:135-383 | In every reachable Connected state at most one request is open, one is exactly if the loop is busy or has just written it out, requests sent are at most one more than messages taken, and while one is open nothing is sent |
| Nodes.PendingIsServed | src/unit_comm.c:266-383 | At the scheduler of every reachable state that is not busy and has bits up, the request of one of them goes out, and after whatever other tasks do meanwhile exactly that bit comes down |
| Nodes.RaisedInWindow | src/unit_comm.c:342-380 | A payload that raises its bits while a section's write goes out is left with the other four: that section's is taken down unserved |
| Nodes.NoButtonJobs | src/unit_comm.c:304-340 | Bits 0x07F0 are never set, so busy always stands for a frame that went out |
| Nodes.ReadyMeansConnected | src/unit_comm.c:108-121 | Runtime-ready implies the Connected loop or WBM_Error, and the first iteration in WBM_Error takes it back |
| Nodes.ErrorIsFinal | src/unit_comm.c:387-391 | WBM_Error at the loop head is absorbing, sends nothing and is not ready from the next iteration on |
| Nodes.SearchRounds | src/unit_comm.c:403-451 | retriesCounter never passes 2, and a search round that gives up has sent exactly two polls |
| Nodes.BootloaderEntry | src/unit_comm.c:661-713 | Bootloader_State1 is entered with the ACK flag down |
| Nodes.HandshakeOrder | src/unit_comm.c:452-607 | When the Connected loop starts, the link has carried search polls, then the six section reads and one poll in their fixed order, nothing else |
| Nodes.NoStageRevisited | src/unit_comm.c:452-607 | From any reached stage no history leads to an earlier stage |
| Ticks.SearchDecides | src/unit_comm.c:421-450 | In time, with a burst claimed, the search goes to Bootloader_State if the burst has the bootloader's token, whatever the checks say of it; else to the link's next stage if it has the ACK token or is a well-formed frame; else it goes on searching |
| Ticks.StageTimeout | src/unit_comm.c:424-436 | A stage's time is up 15 s after its timer was set, or when the clock has wrapped: the search polls again or after the second poll starts over, any later stage gives the link up |
| Ticks.StageWaits | src/unit_comm.c:421-607 | Until then, with nothing received, the stage changes nothing and sends nothing |
| Ticks.RequestsStartTimer | src/unit_comm.c:403-590 | Every request of the handshake leads to a stage that waits for its reply and starts that stage's timer |
| Ticks.HandshakeEnds | src/unit_comm.c:608-627 | The handshake's last tick raises the read bit of a counted section exactly if the polled counter (bytes 38-41) is not the one recorded, or the mirror's where none was; no other bit changes; the mirror's counters are recorded; byte 76 decides between Running and PowerOff; both loop timers start |
| Ticks.BootloaderOpens | src/unit_comm.c:661-710 | Nothing while the server's update runs; else fourteen characters go out, the image's size and first word, and the ACKs are awaited, or fourteen zeros and the end where there is no image |
| Ticks.LowestFirst | src/unit_comm.c:266-383 | In every reachable state the job served at the scheduler is the one with the lowest mask of all that are up |
| Ticks.WordMasks | src/ble.c:134-140 | The five writes' masks make up 0xF800, the four reads' 0x000F |
| Ticks.PollTaken | src/unit_comm.c:758-867 | A polling reply raises the read bit of a counted section exactly if its counter byte (38-41) has moved since the last one, or since the mirror's where none was recorded; it records them, frees the loop and leaves the mirror alone |
| Ticks.SectionTaken | src/unit_comm.c:890-895 | A section reply that fits lays its bytes from 6 on at the offset it names, changes no other byte and no bit, and frees the loop |
| Ticks.AckTaken | src/unit_comm.c:896-940 | A write acknowledgement raises the read bit of a counted section exactly if its counter byte (7-10) is not the mirror's, takes over those four bytes and no other, and frees the loop |
| Ticks.OtherTaken | src/unit_comm.c:180-264 | A debug reply only frees the loop; a message of an unknown kind does not even that, though it sets the link timer |
| Ticks.ErrorClears | src/unit_comm.c:260-264 | A burst that fails the checks frees the loop, leaves an idle receiver with a zeroed message buffer, and changes nothing else |
| Ticks.LossForgets | src/unit_comm.c:170-178 | Giving the link up takes down every bit, the busy flag and the record of external counters, and leaves the mirror |
| Coherence.PollKeepsLoop | src/unit_comm.c:758-867 | Taking a polling reply, however old, keeps every counted section covered |
| Coherence.ReadKeepsLoop | src/unit_comm.c:890-895 | Taking a section reply keeps every counted section covered, even if the unit has moved on since it answered |
| Coherence.AckKeepsLoop | src/unit_comm.c:896-940 | Taking a write acknowledgement keeps every counted section covered |
| Coherence.ClearKeepsLoop | src/unit_comm.c:266-383 | Taking a bit down after its request went out keeps every section covered, provided a counted write still carries what the mirror holds |
| Coherence.LoopKeepsConnection | src/unit_comm.c:125-383 | Every part of a Connected iteration keeps the coherence invariant or ends in WBM_Error |
| Coherence.OvertakenWrite | src/unit_comm.c:342-380 | Exactly which overtaken write loses coherence: with no bit up and the unit's counter known, the section is covered after the acknowledgement if and only if the payload brought another counter byte than the unit's |
| Coherence.DamagedAck | src/unit_comm.c:260-264 | Exactly which damaged acknowledgement loses coherence: where the write moved no counter, the section stays covered if and only if the mirror has the unit's counter byte, and every other byte of it is the unit's |
| Handshake.LearnSection | src/unit_comm.c:460-590 | Storing a truthful section reply makes the firmware know that section at the version answered, and none of the others worse |
| Handshake.FinishCovers | src/unit_comm.c:609-627 | When the handshake ends every counted section is covered, given the counters recorded then |
| Handshake.LoopKeepsInv | src/unit_comm.c:106-393 | Every loop part of the firmware keeps the system invariant |
| Runs.StepKeepsInv | src/unit_comm.c:106-393 | Firmware, answering unit, damaged answers, disturbances, changing unit and application: every step but the two that lose a section keeps the system invariant |
| Runs.CoherentInEveryRun | src/unit_comm.c:266-298 | Cache coherence: in every Connected state of every run in which no payload's bits go up while a counted write it has overtaken goes out, and no answer to a read (or to a write that moves no counter) is damaged, each counted section equals the unit's, or its bit is up or about to be, or a request for it is under way, or its counter has moved since the firmware last recorded it |
| Runs.CoherentWithSteadyUnit | src/unit_comm.c:896-940 | With a unit that moves a counter at every write it takes, payloads are harmless wherever they fall |
| Witness.UndercutLosesSection | src/unit_comm.c:342-380 | A legal run from power-up whose one excluded event is such a payload, and which ends with the section stale, no bit up, nothing under way, no counter moved |
| Witness.GarbledReadLosesSection | src/unit_comm.c:260-274 | The same for a damaged answer to a read |
| Witness.Connects | src/unit_comm.c:452-627 | There is a legal run from power-up through the whole handshake into the Connected loop |
| Witness.NoiseThenRead | src/unit_comm.c:180-383 | A disturbance still in the mailbox when a request goes out is taken for its answer: five ticks later the firmware is free although the unit has yet to answer |
| Runs.QuiescentMirrors | src/unit_comm.c:837-867 | With no bit pending, not busy and the counters up to date, the mirror equals the unit's memory on every counted byte |
| Runs.HandshakeMirrors | src/unit_comm.c:452-607 | With a unit left alone, reaching CLKTSConnectState_Connected means the mirror equals the unit on every section byte and is unchanged on bytes 129-134 and 240-242 |
| Runs.HandshakeLearns | src/unit_comm.c:452-607 | In any run, a section whose version is still the one the handshake read is in the mirror, or an application write to it is pending |
| FlushOrder.FlushInOrder | src/unit_comm.c:342-380 | From any connected state, over any run with no later payload (the unit may change, earlier writes may be pending or under way) in which no section still to be written is read or about to be: the section writes sent are the first of Info, SettingPar, SetTemp, DayProg, HWSetting, each at most once, in order, carrying the payload's bytes up to the counter, and all five once no write bit is left |
| Flush.FlushWrites | src/unit_comm.c:342-380 | The exact outcome from a settled state with the unit left alone, read bits included: the same writes, except that a section whose counter byte in the payload differs from the unit's is sent with the unit's own old bytes; with no bit left all five were sent, and once idle the unit holds what they carried |
| Flush.FlushedByte | src/ble.c:134-189 | After a finished flush each byte the unit holds is the payload's byte if the section's counter byte agreed with the unit's (always for Info and HWSetting), and the unit's old byte otherwise |
| Flush.TurnIsDueWrite | src/unit_comm.c:342-380 | A write is served only when no read is pending, and it is the next one due |
| Flush.AckUnwritten | src/unit_comm.c:907-940 | What the acknowledgement of one section does to a section still to be written: nothing if the counters agree, a read ahead of the write if not |
| Flush.OrderCovers | include/protocol_serial.h:314-336 | The five sections written are the bytes [0,129) and [135,240) |
| Timers.LossExactly | src/unit_comm.c:135-178 | The link-loss branch is taken if and only if the 32-bit clock wraps between the link timer's setting and the test; from the first poll tick on only a wrap between poll test and loss test counts, and the link timer is less than 5 s plus the loop's own delay old |
| Timers.TicksExactly | src/unit_comm.c:135-168 | On true times: when Running the debug tick is due exactly if 4000 ms have passed since the last one or the clock has wrapped; the poll tick 1000 ms (Running) or 5000 ms (PowerOff) after the last tick of either kind; a free loop sends the request, a busy one nothing, and the timers start again either way |
| Timers.TicksInEveryRun | src/unit_comm.c:135-168 | The same after any number of timely iterations: a debug request goes out in an iteration if and only if the loop is free and those 4 s are over, a poll if and only if it is free, no debug request went out and its period is over |
| Timers.NeverLost | src/unit_comm.c:170-178 | Over any number of iterations without such a wrap the Connected loop never gives the link up |
| Timers.BusyIteration | src/unit_comm.c:135-264 | Only a decoded reply of a known kind or an error code clears the busy flag, and until then nothing is sent |
| Timers.LostReplyWedges | src/unit_comm.c:140-168 | If a reply is lost altogether, nothing is sent any more and the link still counts as alive, for as long as no message is taken |
| Timers.EntryIsTimed | src/unit_comm.c:604-619 | The end of the handshake starts the timers in the state the timer results assume |
| QueuedWrite.BleServer.PrepareWrite | src/ble.c:658-700 | One prepared piece: buffer taken at the first and its handle kept, offset and length checked from the second on, the status answered; of an unchecked first piece the part that fits |
| QueuedWrite.BleServer.ExecWrite | src/ble.c:702-727 | Executing a buffer of at least 241 bytes whose handle is the EEPROM one makes record byte i the buffered byte i, 0 beyond, and adds the five write bits; in every other case neither changes; the buffer is given back |
| QueuedWrite.BleServer.WriteEeprom | src/ble.c:547-555 | A direct write of at least 241 bytes makes record byte i the payload's, 0 beyond it, and adds exactly the five write bits to those that are up; a shorter one changes neither |
| QueuedWrite.BleServer.MqttEeprom | src/mqtt_app.c:117-132 | The same for an MQTT payload, reported valid exactly if it has 241 bytes or more |
| QueuedWrite.WriteIsTwoSteps | src/ble.c:547-551 | Such a record and such bits are what the application's two steps, copying and raising, leave in the state machine the run theorems are about; a payload too short is no step at all |
| QueuedWrite.PieceRefused | src/ble.c:661-684 | Which piece gets which status; a refused one changes nothing, an accepted later one replaces just its bytes and adds its length |
| QueuedWrite.QueuedIsDirect | src/ble.c:658-727 | Executing a queued write of any split of a payload of up to 1024 bytes, in any order and whatever the new buffer held, is a direct write of that payload |
| QueuedWrite.InOrderSplits | src/ble.c:698-699 | Consecutive in-order pieces from offset 0 are such a split |
| QueuedWrite.FirstHandleCounts | src/ble.c:661-667 | Whatever handles later pieces name, the buffer goes to the record if and only if the first piece's handle is the EEPROM one |
| QueuedWrite.CopiedWhole | src/ble.c:698-698 | A piece is copied whole if and only if it ends inside the buffer |
| WifiQueue.AlwaysInv | src/mqtt_app.c:562-598 | Under every interleaving of queue calls the queue invariant holds |
| WifiQueue.QueuedRun | src/mqtt_app.c:582-592 | Queued ids are the contiguous ascending run ending at the counter, at most eight, and the send after drop-oldest never fails |
| WifiQueue.AppliedInOrder | src/mqtt_app.c:1147-1161 | Applied ids strictly increase |
| WifiQueue.LastWriterWins | src/mqtt_app.c:562-598 | The queue refines a last-writer-wins register: the last accepted request is never lost, and at rest it is the last applied |
| WifiQueue.AcceptIssues | src/mqtt_app.c:571-582 | An accepted call takes the next number and becomes the register's value |
| WifiQueue.EmptySsidRefused | src/mqtt_app.c:571-574 | In every run the calls with an empty SSID leave no trace, and no request without one is ever issued |
| WifiQueue.StepsKeepRegister | src/mqtt_app.c:1147-1161 | No queue call of either side changes the register, so a request is only discarded for a later one |
| DebugPrinter.PublishDebugMessage | src/mqtt_app.c:759-784 | The snprintf chain hands over exactly the message text and its length, if and only if the text has at most 1023 characters |
| DebugPrinter.JsonLength | src/mqtt_app.c:759-778 | json_len is 38 plus digits, commas, topic and address |
| DebugPrinter.ReadPrinted | src/mqtt_app.c:763-771 | Reading the message field back gives exactly the bytes printed, for every topic and address |
| DebugPrinter.FieldsExactly | src/mqtt_app.c:759-784 | Taken apart at its quotation marks the text shows the three fields message, topic and address, each value under its name, if and only if topic and address have no quotation mark of their own |
| Subscriptions.SubscriptionManager.ExtractSerial | src/mqtt_app.c:134-159 | The extraction loops yield the serial the results below are about |
| Subscriptions.SerialIs | src/mqtt_app.c:134-159 | That serial is the longest printable beginning of the 18 bytes without trailing spaces |
| Subscriptions.SubscriptionManager.IsSerialValid | src/mqtt_app.c:159-176 | Valid means some character is neither space nor zero digit |
| Subscriptions.SubscriptionManager.UpdateActiveSerial | src/mqtt_app.c:178-198 | The active serial becomes the valid one or none; the result says whether it changed |
| Subscriptions.SubscriptionManager.RefreshAppSubscriptions | src/mqtt_app.c:640-672 | The refresh in place, with and without a client |
| Subscriptions.SubscriptionManager.OnConnected | src/mqtt_app.c:822-833 | A new session subscribes everything anew |
| Subscriptions.SubscriptionsInStep | src/mqtt_app.c:640-672 | In every state of a session the subscribed identities are the hardware id and the last serial subscribed; right after a refresh that is the valid active serial (serial and hardware id distinct) |
| Subscriptions.SubscriptionsFollow | src/mqtt_app.c:990-1015 | In a session in which no change is discarded, the identities subscribed for after every refresh and every maintenance are the hardware id and the serial the mirror then shows |
| Subscriptions.SwallowedChange | src/mqtt_app.c:810-812 | A change whose result is discarded is not noticed by the next maintenance: topics stay, right if and only if the new serial was the one subscribed |
| Subscriptions.AliasLosesHwId | src/mqtt_app.c:663-670 | A refresh keeps the hardware id subscribed if and only if it was not the last serial or still is |
| Backoff.ComputeDelay | src/mqtt_app.c:548-556 | The 32-bit computation gives min(60000, 1000*2^max(f-1,0)) for every failure count, without overflow |
| Backoff.DelayMonotone | src/mqtt_app.c:548-556 | More failures never shorten the delay |
| Backoff.GateExactly | src/mqtt_app.c:1028-1031 | The gate holds back every moment before the deadline if and only if the tick counter does not wrap before it |
| Backoff.AttemptWhileHeld | src/mqtt_app.c:986-1061 | An attempt is made while the gate would hold if and only if the client is not started, or is online with a changed endpoint |
| Backoff.NoEarlyAttempt | src/mqtt_app.c:1028-1061 | Within a turn of the tick counter a started, offline client tries nothing before the last computed deadline |
| Backoff.TriesExactly | src/mqtt_app.c:990-1061 | With Wi-Fi, maintenance tries exactly if the client is not started, is online with a changed endpoint, or is offline with the gate open |
| Backoff.RetriesExactly | src/mqtt_app.c:1044-1056 | Within a turn of the tick counter, the next attempt after a failed reconnect is made exactly from min(60000, 1000*2^f) ms on, f the failures before it |
| Backoff.DelayInEveryRun | src/mqtt_app.c:548-556 | In every run the n-th failure in a row, a lost connection included, sets the deadline min(60000, 1000*2^(n-1)) ms ahead; only a connection starts the count again |
| Staging.FirmwareStager.OnData | src/main.c:366-433 | One chunk in place on Buffer_Test and its counters: held back, compared, written or streamed |
| Staging.FirmwareStager.OnConnected | src/main.c:331-358 | The start of a download: new file, or the stored version read and the buffer cleared |
| Staging.SameVersion | src/main.c:349-349 | With two decimal digits in byte 1172 of both, two images have the same version if and only if they agree in bytes 1172 and 1173 |
| Staging.VersionReads | src/main.c:378-378 | The version is 100 times byte 1173 plus the two decimal digits of byte 1172 |
| Staging.VersionsCollide | src/main.c:380-380 | Without decimal digits it need not be: two pairs of images with different bytes and the same version |
| Staging.ReplacesExactly | src/main.c:366-404 | On bytes 1172 and 1173: a download replaces the stored file if and only if the stored ones are not both 0, three chunks came, and the new ones differ |
| Staging.NewVersionIsStored | src/main.c:331-456 | With the counter 0, three chunks within the buffer and decimal digits: the new file is stored whole if and only if one of its two version bytes is not the stored one's |
| Staging.AbortedDownload | src/main.c:319-330 | A download that breaks off after any chunks leaves the stored file as it was, or none where its writing had begun, never part of one; an unfinished comparison stays begun |
| Staging.ComparingDownload | src/main.c:331-456 | For any counter values: the stored file stays unless three chunks came and the version differs; then it is replaced by as many buffered bytes as Data_Counter says and the later chunks |
| Staging.NeverAMixture | src/main.c:331-456 | First comparing download after start-up: at the end the file is the old one or exactly the concatenation of all chunks (or gone, if it could not be opened anew) |
| Staging.ExactlyIfCounterZero | src/main.c:374-404 | A replacing download stores exactly what it received if and only if Data_Counter was 0 at its start |
| Staging.CounterStays | src/main.c:374-405 | Data_Counter is not set back, so after one comparing download it is not 0 |
| Staging.FirstDownload | src/main.c:333-343 | Without a stored file everything is streamed into the new one |

## Left out

- Within one tick nothing else happens: a payload that arrives in the middle of one memcpy, between the test
  of a bit and the building of its frame, or between the five OR operations is not modelled.
- Another task's step between the load and the store of one `|=` or `&=` on Read_Eeprom_Request_Index, which
  the hardware does not make atomic, is not modelled. Bit 0x400 is set by no one and served by no branch.
- The receiver's claim takes the burst in one step; a burst between the test and the reset of the counter in
  Uart1_RxClaim is not modelled.
- A timer test reads the clock once, and a tick sets its timers from one read; the code reads it again for
  each comparison and each assignment.
- memcpy and fread that would run past a buffer keep the part inside it; what the code reads or writes
  beyond a buffer is not modelled, except where Staging names the memory behind Buffer_Test.
- QueuedWrite.BleServer.PrepareWrite: keeps the part of an unchecked first piece that fits, where the code
  writes past its block; `QueuedWrite.CopiedWhole` says when that is.
- DebugPrinter.PublishDebugMessage: ends at the first print that does not fit; the writes past the buffer that
  follow in the code are not modelled.
- Runs.CoherentInEveryRun: excludes a damaged answer to a counted write that moved no counter altogether, though it
  leaves the section covered if the mirror has the unit's counter (`Coherence.DamagedAck`).
- FlushOrder.FlushInOrder: states order, content and completeness, not how long it takes; a flush goes on only
  as answers come.
- The unit is an assumption; its own firmware is not part of this repository, and a unit
  that rejects a write (which the code only logs) is not modelled.
- The daily check for new unit firmware, the LastReceived timer, measurement and alarm decoding, and the
  publishing of replies over BLE and MQTT do not touch the link and are not modelled.
- request_id wraps after 2^32 requests; the queue model numbers without bound. One producer at a time.
- A failed fwrite, fread or uart_write_bytes is not modelled; a failed open is.
- Staging.NeverAMixture: asks for Load_Counter 0 at the start; `Staging.AbortedDownload` says when a download that
  broke off leaves it higher, but what the next one then compares is not stated.
- Topics are modelled per identity, the pair app/eeprom and app/request together; the broker forgets them with
  the session.
- ESP-IDF, FreeRTOS, Bluedroid, TLS, NVS, SPIFFS, the GATT table, pairing, provisioning status, LEDs, OTA
  version comparison and endpoint discovery parsing: drivers, static data and foreign calls.
