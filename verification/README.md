# Verification of the BLE AT byte-stream bridge

The firmware in `apps/nrf52840_ble_at_host` turns a USB serial port into a Bluetooth LE client: a text AT
protocol until the host enters data mode, then a raw byte bridge between the serial port and one GATT
service.  The Python code in `python` is the other end of that serial port.  This project models both ends
and proves what the bridge promises: no byte lost, repeated or reordered, no byte of one plane in the other,
an escape sequence that works exactly when it is well timed, and decoders whose answers do not depend on how
the stream was cut into pieces.

## How it is built

Code that changes state in place is a class whose methods are proved to do what a function on values says;
the properties of runs are then lemmas about those functions.

- `BridgeModel` is `main.c` as a step machine: 23 kinds of step (receive interrupt, transmit interrupt, guard,
  coalesce and retry timers, the BLE pump split into start, claim and send result, notifications, AT
  operations, connection callbacks) over all globals, the three rings, the work items and a trace of what was
  observed.  `Bridge` is the same code as a class; the other `Bridge...` modules prove properties of all runs:
  what never happens (`BridgeInvariant`, `BridgeDelivery`, `BridgeEscape`, `BridgeWire`), and what does
  (`BridgeWakeup`, `BridgeGuard`, `BridgeOutput`, `BridgeSessions`, `BridgeCounts`).
- `ControlParser`, `ExitMatcher`, `Host` and `HostLink` are `ble_at.py` and its composition with the firmware.
- `Frames`, `FrameParsing` and `EchoGate` are `e2e_stream_test.py`.
- `AtCommands`, `AtParser`, `AtChunks` and `AtReads` are `at_host.c` on values, `AtText`, `AtDispatch` and
  `AtHosting` the same code on its arrays; `AtGrammar` says what every line means; `AtClient` and `AtSend` compose
  it with what `ble_at.py` writes, `AtAnswers` with what it reads.
- `ProfileModel`, `ProfileDialogue` and `ProfileManaging` are `profile_manager.c`; `Uuid` and `UuidText` are
  `app_common.c`; `Settings` and `SettingsMeaning` are `settings.c`; `Scanning` is the advertisement parser and the scan table of `main.c`.
- `Common` and `Protocol` hold what several of them share.

Premises.  A ring is a bounded FIFO: a put stores the prefix that fits; a claim yields a non-empty prefix,
possibly shorter than asked for, and a claim that no finish follows leaves the ring as it was (exactly-once
delivery over retried sends rests on this).  The clock never goes back.  A callback or handler is one step,
except the pump.  What the Bluetooth stack answers is a parameter of the step.  GATT callbacks come only on a
live link.  A read of the UART is never empty.

## What is not as the documentation or a reader might expect

The model follows the code.  Each of these is a lemma below.

- A fourth `+` turns the candidate into payload only if the clock does not tick between the two readings of
  `handle_data_mode_rx`.  If it does, the difference of the two is negative, is read as a long silence, and a
  new candidate starts with no silence before it (`FourthPlus`, `ByteQuiet`).
- Leaving data mode while reception is paused clears the pause flag without turning the receive interrupt on.
  Nothing turns it on again, so no byte from the host is received until a restart (`LeavingPaused`,
  `DeafForever`; `FloodPauses` shows that an ordinary flood reaches the pause).
- Bytes in the host-to-BLE ring can be left without anything scheduled to send them in exactly three ways: a
  send error that is not retried, a profile that becomes ready again, and data mode entered over bytes left by
  an earlier session (`StepWakes`).
- `README.md:171` of the repository says that text events are no longer emitted in data mode.  MTU, link parameter
  and error lines still are, in the middle of the data (`LineCutsIn`).  The host passes them on as data: what
  it gets is the session's data if and only if no such byte was queued (`DataSplitsExactly`).  This needs
  lines that are whole and hold no exit event (`EventInLine`).
- An AT+SEND payload reaches its operation exactly under a condition on where the reads of the device end:
  if one ends between the CR and the LF of the line, the LF becomes the first byte of the payload and its last
  byte is left over for the next line; if none ends before a payload that begins with line endings, those are
  lost (`PayloadArrives`).  In terms of the parser alone: how its input is cut into reads matters exactly if a
  cut comes after an accepted AT+SEND line and line endings, before another line ending (`ReadsMatter`).
- A 16-bit UUID followed by white space is refused, though a 128-bit one is not (`TrailingSpace`).
- A control line that is just `>` comes out of the host parser as itself; a longer line that starts with `>`
  does not (`LineRoundTrip`).
- A notification in control mode that ends in a space reaches the host without it (`NotificationShown`).
- A negative argument is not always refused: strtoul wraps it, so `-4294967196` is read as 100 (`NumberMeans`).
- Stored texts are checked when they are loaded, stored numbers are not (`LoadMeans`, `DamagedStore`).
- A failed save of an update leaves configuration and store apart unless the keys from the first failure on
  already had their new values (`UpdateKeepsSynced`; `LostUpdate` is an example).
- The pump meets the size error only when AT+SETMTU comes between its claim and its send (`ChunkFits`;
  `ChunkOutgrown` is the example).

## Model

| member | source | states |
|---|---|---|
| BridgeRuns.EveryRun | apps/nrf52840_ble_at_host/src/main.c:100-1101 | for every legal run from power-on the globals are consistent, the host's bytes conserved, the escape candidate accounted for, control and data apart, and every candidate preceded by silence unless a byte started one by a clock tick |
| BridgeInvariant.PowerOnIsConsistent | apps/nrf52840_ble_at_host/src/main.c:60-98 | the initial globals satisfy the application invariant |
| BridgeInvariant.StepKeeps | apps/nrf52840_ble_at_host/src/main.c:616-713 | every step keeps: connection set iff connecting, ready, streaming or disconnecting; pending entry only on a live link outside data mode; candidate active iff 1 to 3 pluses, only in data mode and with the guard timer armed; BLE-to-host ring empty outside data mode; the pump's chunk a prefix of the ring |
| BridgeInvariant.RunKeeps | apps/nrf52840_ble_at_host/src/main.c:828-995 | the same over every run |
| BridgeInvariant.RxKeeps | apps/nrf52840_ble_at_host/src/main.c:497-540 | a received chunk of any bytes and times keeps the invariant |
| BridgeInvariant.GuardKeeps | apps/nrf52840_ble_at_host/src/main.c:433-456 | the guard timer keeps it |
| BridgeInvariant.DropKeeps | apps/nrf52840_ble_at_host/src/main.c:978-995 | a lost link keeps it |
| BridgeDelivery.StepConserves | apps/nrf52840_ble_at_host/src/main.c:542-600 | bytes accepted from the host since the link dropped equal the chunks the link took followed by the ring, whatever sends return and whenever bytes arrive between claim and finish; the two counters are that history modulo 2^32 |
| BridgeDelivery.RunConserves | apps/nrf52840_ble_at_host/src/main.c:542-614 | exactly-once, in-order delivery over every run, across exits and re-entries of data mode |
| BridgeEscape.ByteTracks | apps/nrf52840_ble_at_host/src/main.c:409-423 | one byte keeps: received bytes are the stored ones followed by the candidate |
| BridgeEscape.StepTracks | apps/nrf52840_ble_at_host/src/main.c:497-540 | in data mode every received byte is stored, refused or part of the candidate, in order, and the candidate is the end of what arrived |
| BridgeEscape.RunTracks | apps/nrf52840_ble_at_host/src/main.c:409-540 | the same over every run; without a byte that starts a candidate by a clock tick, every candidate came after the guard time of silence |
| BridgeEscape.ByteQuiet | apps/nrf52840_ble_at_host/src/main.c:518-524 | silence precedes every candidate except exactly one started by a clock tick between the two readings |
| BridgeEscape.DataModeLasts | apps/nrf52840_ble_at_host/src/main.c:425-456 | only the guard timer and the loss of the link end data mode |
| BridgeEscape.WhyDataModeEnds | apps/nrf52840_ble_at_host/src/main.c:433-456 | an escape ends data mode only after three final pluses with silence before and after; exactly those three bytes are withheld |
| BridgeEscape.PlusesPileUp | apps/nrf52840_ble_at_host/src/main.c:505-513 | pluses after silence extend the candidate however they are chunked and whatever else happens meanwhile |
| BridgeEscape.EscapeSucceeds | apps/nrf52840_ble_at_host/src/main.c:433-453 | three well-timed pluses and silence until the timer fires always end data mode |
| BridgeEscape.FourthPlus | apps/nrf52840_ble_at_host/src/main.c:506-516 | with a positive guard time a fourth plus turns all four into payload exactly when the clock did not tick |
| BridgeGuard.GuardMeans | apps/nrf52840_ble_at_host/src/main.c:433-456 | when the guard timer fires: one or two pluses become payload and are scheduled, quiet time restarts; three end data mode after the guard time of silence; a candidate survives its timer if and only if it is complete and the silence after it is not |
| BridgeGuard.GivenUpArrives | apps/nrf52840_ble_at_host/src/main.c:409-614 | one or two pluses the host does not follow up reach the peer, after everything before them, by the guard timer and the work queue alone |
| BridgeGuard.ChunkMeans | apps/nrf52840_ble_at_host/src/main.c:497-540 | after a chunk read in data mode what waits is scheduled, at once if it fills a payload and by the coalesce timer otherwise; quiet time restarts at its last byte; reception is paused exactly when fewer than 64 of the 16384 places are free |
| BridgeGuard.QuietRestarts | apps/nrf52840_ble_at_host/src/main.c:409-540 | the quiet time that the escape is measured against restarts at the last byte of a chunk, when a candidate is given up and when data mode opens, and at nothing else |
| BridgeChunk.ChunkStores | apps/nrf52840_ble_at_host/src/main.c:497-540 | a chunk stores, in order, the longest prefix that fits of the old candidate and its own bytes, less the new candidate |
| BridgeChunk.FewRefused | apps/nrf52840_ble_at_host/src/main.c:1082-1097 | with the interrupt's free-space check no more bytes are refused than the candidate held |
| BridgeWakeup.StepWakes | apps/nrf52840_ble_at_host/src/main.c:468-495 | a step keeps waiting bytes scheduled if and only if it is none of the three ways to strand them |
| BridgeWakeup.RunWakes | apps/nrf52840_ble_at_host/src/main.c:542-614 | no lost wakeup over every run without those steps |
| BridgeWakeup.SessionWakes | apps/nrf52840_ble_at_host/src/main.c:458-614 | no lost wakeup in a session opened over an empty ring while link and profile stay up and errors are retryable |
| BridgeWakeup.ServeProgress | apps/nrf52840_ble_at_host/src/main.c:542-614 | the next scheduled work brings the next send nearer or sends |
| BridgeWakeup.Drains | apps/nrf52840_ble_at_host/src/main.c:542-614 | the work queue alone gets every waiting byte onto the link, in order, and leaves reception on |
| BridgeWakeup.ClaimMeans | apps/nrf52840_ble_at_host/src/main.c:548-578 | the pump claims exactly if the profile is ready, bytes wait and, in data mode, they fill a payload or a flush is due; it takes less than a payload only at the end of the bytes, at the wrap of the ring or at 256 bytes; otherwise it leaves them to the coalesce timer |
| BridgeWakeup.FlushDue | apps/nrf52840_ble_at_host/src/main.c:468-608 | a flush falls due only by the coalesce timer, and is over with the next chunk taken or the next bytes from the host |
| BridgeFlow.LeavingPaused | apps/nrf52840_ble_at_host/src/main.c:197-200 | leaving data mode loses the receive interrupt exactly when reception was paused |
| BridgeFlow.DeafForever | apps/nrf52840_ble_at_host/src/main.c:377-407 | and no later run receives a byte or enters data mode |
| BridgeFlow.FloodPauses | apps/nrf52840_ble_at_host/src/main.c:1082-1088 | a host that keeps sending while BLE does not reaches the pause |
| BridgeWakeup.WorkSpent | apps/nrf52840_ble_at_host/src/main.c:433-614 | a timer that has fired and work that has begun are over; only the guard timer arms itself again, for the end of the silence |
| BridgeWire.StepWire | apps/nrf52840_ble_at_host/src/main.c:1033-1065 | every step keeps the two output rings equal to what was queued less what was sent, data only while the mode is open and no control byte waits |
| BridgeWire.RunWire | apps/nrf52840_ble_at_host/src/main.c:1011-1065 | the same over every run |
| BridgeWire.SoundMeans | apps/nrf52840_ble_at_host/src/main.c:1011-1031 | when data mode opens every control byte queued before has left the UART; a data byte is sent only between opening and end, in order |
| BridgeOutput.TxSends | apps/nrf52840_ble_at_host/src/main.c:1033-1065 | one transmit interrupt puts exactly the oldest bytes that the UART takes, at most 128, on the wire: data in data mode with no control byte waiting, control bytes otherwise; and data mode opens exactly when it is pending and the control ring has become empty |
| BridgeOutput.TransmitsAll | apps/nrf52840_ble_at_host/src/main.c:1011-1065 | over any run of transmit interrupts, whatever room the UART has, bytes only move from the rings to the wire, in order, and as many as there is backlog empty both rings and open data mode if it is pending |
| BridgeOutput.NotificationArrives | apps/nrf52840_ble_at_host/src/main.c:903-916 | a notification in data mode that fits the ring is on the wire, whole and after all that was queued before it, as soon as the UART has taken enough |
| BridgeWire.Handover | apps/nrf52840_ble_at_host/src/main.c:425-431 | after a session the wire is the mixture of its data and the control bytes queued meanwhile, then what was queued since; exactly the data, then the exit event, when nothing was queued meanwhile |
| BridgeHandover.LineCutsIn | apps/nrf52840_ble_at_host/src/main.c:918-922 | an MTU line in data mode is the next thing on the wire, in the middle of the data |
| BridgeHandover.SessionHeld | apps/nrf52840_ble_at_host/src/main.c:1033-1065 | while the lines queued during a session are whole and hold no event, and the data holds none, their mixture holds none |
| BridgeHandover.RunNeat | apps/nrf52840_ble_at_host/src/main.c:903-934 | they are whole over every run in which each line said in data mode fits the ring, begins with a plus sign and holds no event |
| BridgeSpeech.StepSays | apps/nrf52840_ble_at_host/src/main.c:156-172 | every step but the transmit interrupt adds to the control ring exactly the prompts and lines it speaks |
| BridgeSpeech.RunQueues | apps/nrf52840_ble_at_host/src/main.c:616-934 | over every run whose control ring never overflows, what was queued is what the steps spoke, in order |
| BridgeWire.NotifyWire | apps/nrf52840_ble_at_host/src/main.c:903-916 | in data mode a notification goes to the data ring and the control ring is left alone; otherwise it is a line in the control ring if printable and not too long, and the data ring is left alone |
| BridgeSessions.NotificationShown | apps/nrf52840_ble_at_host/src/at_host.c:586-601 | outside data mode a notification is shown, with its length, exactly if it is printable and at most 256 bytes; the host reads the line as it is exactly if the bytes do not end in a space |
| BridgeSessions.ScanConfirmed | apps/nrf52840_ble_at_host/src/main.c:616-648 | AT+STARTSCAN is answered +OK exactly if a scan is then going on, a new one with its timer armed; refused, it changes nothing |
| BridgeSessions.ConnectConfirmed | apps/nrf52840_ble_at_host/src/main.c:650-697 | AT+STARTCON is answered +OK exactly if a connection is then being made that was not before, and exactly under the stated conditions; refused, it leaves link and connection alone |
| BridgeSessions.DisconnectConfirmed | apps/nrf52840_ble_at_host/src/main.c:699-713 | AT+DISCON begins a disconnection exactly if there is a connection and its number is 0; when it is answered +OK |
| BridgeSessions.EnterConfirmed | apps/nrf52840_ble_at_host/src/main.c:828-850 | AT+ENTERDATAMODE is answered +OK and announced exactly if entry is then pending and was not: number 0, allowed, profile ready, data mode neither lasting nor pending; refused, it changes nothing |
| BridgeSessions.StepMoves | apps/nrf52840_ble_at_host/src/main.c:273-995 | every step moves application state, link and profile exactly as the state diagram says |
| BridgeSessions.StepRings | apps/nrf52840_ble_at_host/src/main.c:105-189 | each ring is changed only by the steps that own it: bytes from the host enter only in data mode, leave only when the link took them or dropped; data for the host enters only in data mode and goes with it |
| BridgeSessions.SessionOver | apps/nrf52840_ble_at_host/src/main.c:197-212 | when data mode ends no data for the host, candidate, flag or timer of the session is left |
| BridgeSessions.Opens | apps/nrf52840_ble_at_host/src/main.c:650-976 | from the idle device AT+STARTCON, a link, a peer with the profile and AT+ENTERDATAMODE make data mode pending and queue exactly the two confirmations and three announcements |
| BridgeSessions.SessionOpens | apps/nrf52840_ble_at_host/src/main.c:1011-1065 | and then transmit interrupts alone open it, with all of that sent and nothing else on the wire |
| BridgeCounts.StepAdvances | apps/nrf52840_ble_at_host/src/main.c:140-189 | every step advances the nine counters by exactly what happened in it |
| BridgeCounts.StatsTellHistory | apps/nrf52840_ble_at_host/src/main.c:852-857 | after every run from power-on the counters are those of the run modulo 2^32 and the two marks the greatest depths of the rings |
| Bridge.Device.constructor | apps/nrf52840_ble_at_host/src/main.c:60-98 | the globals at power-on |
| Bridge.Device.PutHostBytes | apps/nrf52840_ble_at_host/src/main.c:105-112 | stores the prefix that fits and says how long it is |
| Bridge.Device.QueueCtrlLine | apps/nrf52840_ble_at_host/src/main.c:156-172 | the text and CR LF into the control ring |
| Bridge.Device.QueueDataBytes | apps/nrf52840_ble_at_host/src/main.c:174-189 | the data into the BLE-to-host ring, counting back-pressure and depth |
| Bridge.Device.ClearDataModeSession | apps/nrf52840_ble_at_host/src/main.c:197-212 | the whole state after clear_data_mode_session |
| Bridge.Device.RefreshUartRxFlowControl | apps/nrf52840_ble_at_host/src/main.c:377-407 | pause and resume of reception |
| Bridge.Device.FlushEscapeCandidate | apps/nrf52840_ble_at_host/src/main.c:409-423 | the candidate becomes payload and quiet time restarts |
| Bridge.Device.LeaveDataMode | apps/nrf52840_ble_at_host/src/main.c:425-431 | the whole state after exit_data_mode |
| Bridge.Device.EscapeGuardHandler | apps/nrf52840_ble_at_host/src/main.c:433-456 | re-arm, exit or flush |
| Bridge.Device.ScheduleDataModeTx | apps/nrf52840_ble_at_host/src/main.c:468-495 | nothing, pump now, or coalesce |
| Bridge.Device.HandleDataModeRx | apps/nrf52840_ble_at_host/src/main.c:497-540 | the byte loop does what the model says of the chunk |
| Bridge.Device.UartRxIsr | apps/nrf52840_ble_at_host/src/main.c:1082-1099 | the receive half of the interrupt |
| Bridge.Device.PumpToClaim | apps/nrf52840_ble_at_host/src/main.c:548-578 | the pump's loop up to the claim, coalescing or stopping |
| Bridge.Device.PumpAfterSend | apps/nrf52840_ble_at_host/src/main.c:580-598 | finish, retry or give up |
| Bridge.Device.CoalesceHandler | apps/nrf52840_ble_at_host/src/main.c:602-608 | flush due and pump submitted |
| Bridge.Device.RetryHandler | apps/nrf52840_ble_at_host/src/main.c:610-614 | pump submitted |
| Bridge.Device.StopScanInternal | apps/nrf52840_ble_at_host/src/main.c:273-293 | the result and the new state |
| Bridge.Device.OpStartScan | apps/nrf52840_ble_at_host/src/main.c:616-648 | every refusal, and the scan started |
| Bridge.Device.OpConnect | apps/nrf52840_ble_at_host/src/main.c:650-697 | every refusal, a running scan stopped, the link created |
| Bridge.Device.OpDisconnect | apps/nrf52840_ble_at_host/src/main.c:699-713 | every refusal and the disconnection begun |
| Bridge.Device.OpEnterDataMode | apps/nrf52840_ble_at_host/src/main.c:828-850 | every refusal in the code's order, or entry pending |
| Bridge.Device.ProfileReadyCallback | apps/nrf52840_ble_at_host/src/main.c:892-901 | control state unless streaming or about to |
| Bridge.Device.ProfilePayloadReceived | apps/nrf52840_ble_at_host/src/main.c:903-916 | counters, and data or a line |
| Bridge.Device.ProfileErrorCallback | apps/nrf52840_ble_at_host/src/main.c:924-934 | control state unless streaming, and the error line |
| Bridge.Device.Connected | apps/nrf52840_ble_at_host/src/main.c:957-976 | a successful connection |
| Bridge.Device.ConnectFailed | apps/nrf52840_ble_at_host/src/main.c:947-955 | a failed connection |
| Bridge.Device.Disconnected | apps/nrf52840_ble_at_host/src/main.c:978-995 | the whole state after the link dropped |
| Bridge.Device.ScanStopHandler | apps/nrf52840_ble_at_host/src/main.c:295-299 | the scan ends and says so |
| Bridge.Device.Handle | apps/nrf52840_ble_at_host/src/main.c:100-1101 | every event, served by its handler, takes the object through the model's step |
| Bridge.Device.Play | apps/nrf52840_ble_at_host/src/main.c:100-1101 | a run of events takes it through the model's run |
| Bridge.PowerOnAndPlay | apps/nrf52840_ble_at_host/src/main.c:100-1101 | from power-on through any legal run the object satisfies what is proved of every run |
| Bridge.Device.ActivatePendingDataMode | apps/nrf52840_ble_at_host/src/main.c:1011-1031 | data mode opens only when pending, connected and the control ring is empty |
| Bridge.Device.ServiceUartTx | apps/nrf52840_ble_at_host/src/main.c:1033-1065 | one transmit interrupt, from the right ring |
| ControlParser.OnBytesSplit | python/ble_at.py:61-74 | how control bytes are cut into reads does not matter |
| ControlParser.LineRoundTrip | python/ble_at.py:61-74 | an ASCII line comes back as exactly one event, itself, if and only if it is plain |
| ControlParser.RoundTrip | apps/nrf52840_ble_at_host/src/main.c:156-172 | any sequence of prompts and plain ASCII lines comes back as exactly those events |
| ExitMatcher.Find | python/ble_at.py:87 | the first occurrence of the event, or none |
| ExitMatcher.HeldLen | python/ble_at.py:76-81 | the longest end that is a proper prefix of the event |
| ExitMatcher.FeedBefore | python/ble_at.py:83-110 | before the event, one more chunk gives the answer of the longer stream |
| ExitMatcher.FeedAfter | python/ble_at.py:88-97 | after it, later bytes only follow |
| ExitMatcher.ChunksDoNotMatter | python/ble_at.py:83-110 | any chunking gives the answer read off the whole stream |
| ExitMatcher.SplitsAtEvent | python/ble_at.py:86-97 | data without the event, the event, and a rest are split exactly there |
| ExitMatcher.PartialEvent | python/ble_at.py:104-110 | an incomplete event passes on only data |
| Host.BleAtHost.EmitData | python/ble_at.py:54-59 | the queue grows by the chunk, by nothing for an empty one |
| Host.BleAtHost.ProcessControlBytes | python/ble_at.py:61-74 | the loop is the control parser |
| Host.BleAtHost.PendingExitPrefixLen | python/ble_at.py:76-81 | the loop finds the longest end that may begin the event |
| Host.BleAtHost.HandleExitPendingChunk | python/ble_at.py:83-110 | terminates, and queues, holds back and hands on what the whole-stream answer says |
| Host.BleAtHost.Receive | python/ble_at.py:112-132 | one read in each of the three modes |
| HostLink.ReadsExpected | python/ble_at.py:112-132 | a reader awaiting the exit is in the state of the whole stream after any reads |
| HostLink.DataSplitsExactly | python/ble_at.py:83-110 | firmware and host composed: of a session ended by the escape the host passes on exactly what the UART carried before the event, its control parser gets the event and what follows, and what it passed on is the data if and only if no control byte was queued during the session |
| HostLink.RunSplits | apps/nrf52840_ble_at_host/src/main.c:425-431 | the same over every run from power-on whose lines in data mode are whole |
| HostLink.EventInLine | python/ble_at.py:86-97 | without that the if-and-only-if fails: a line that holds an event |
| HostLink.LinesArrive | python/ble_at.py:61-74 | control bytes that serialise plain lines and prompts, all sent, arrive as exactly those events in any chunking |
| HostLink.RunLinesArrive | apps/nrf52840_ble_at_host/src/main.c:156-172 | over every run from power-on whose control ring never overflows the host reads exactly what the steps spoke |
| Frames.LePack | python/examples/e2e_stream_test.py:141-145 | little-endian packing loses nothing below the width |
| Frames.BuildValid | python/examples/e2e_stream_test.py:37-50 | a built frame of 14 to 65535 bytes is valid and says what it was built from |
| Frames.PackLe | python/examples/e2e_stream_test.py:41 | and packing gives back what was unpacked |
| Frames.ValidMeans | python/examples/e2e_stream_test.py:37-50 | a frame is valid if and only if it is byte for byte a built one, and says what it was built from |
| Frames.GreedyFinds | python/examples/e2e_stream_test.py:52-77 | the frames decoded from a stream are the leftmost non-overlapping built frames in it: no corrupted frame is ever returned and none outside a returned one is missed |
| Frames.DropToMagic | python/examples/e2e_stream_test.py:57-63 | dropping everything before the first magic, or all but three bytes, never changes what any continuation decodes to |
| Frames.DropInvalid | python/examples/e2e_stream_test.py:69-72 | dropping one byte of an invalid candidate does not either |
| Frames.TakeValid | python/examples/e2e_stream_test.py:74-75 | taking a valid frame yields it and the decoding of the rest |
| Frames.DecodesSent | python/examples/e2e_stream_test.py:37-77 | built frames among harmless noise decode to exactly what was sent, in order |
| Frames.NoB | python/examples/e2e_stream_test.py:37-50 | noise without the first byte of the magic is harmless |
| FrameParsing.FrameParser.Feed | python/examples/e2e_stream_test.py:52-77 | the loop returns frames after which its buffer stands for all bytes ever fed |
| FrameParsing.FrameParser.FeedAll | python/examples/e2e_stream_test.py:52-77 | the same of any sequence of chunks: the frames returned are exactly the leftmost built frames of all bytes fed |
| FrameParsing.DecodedSoFar | python/examples/e2e_stream_test.py:52-77 | the frames returned so far are the leftmost greedy frames of the stream so far |
| FrameParsing.Incremental | python/examples/e2e_stream_test.py:52-77 | frames(s + t) is frames(s) followed by frames(rest(s) + t) |
| EchoGate.StreamStats.MarkSent | python/examples/e2e_stream_test.py:92-95 | the new counters and timestamps |
| EchoGate.StreamStats.MarkReceived | python/examples/e2e_stream_test.py:97-112 | the new counters, with repeated numbers only counted |
| EchoGate.TakeKeeps | python/examples/e2e_stream_test.py:218-241 | every turn of loop or callback keeps the timestamps equal to sent less seen and within the gate |
| EchoGate.AlwaysBalanced | python/examples/e2e_stream_test.py:80-116 | outstanding equals tx less rx and never exceeds the limit under any interleaving, duplicates included |
| EchoGate.StartsBalanced | python/examples/e2e_stream_test.py:81-90 | fresh statistics satisfy it |
| EchoGate.GateOpens | python/examples/e2e_stream_test.py:223-225 | the gate opens exactly when it is not used or fewer frames than allowed were sent and not seen |
| EchoGate.RoundTripMeasured | python/examples/e2e_stream_test.py:92-112 | the round trip of a frame is measured from its sending to its first echo, whatever comes in between, and only once |
| EchoGate.CountersMean | python/examples/e2e_stream_test.py:97-108 | the counters are the distinct numbers, the repetitions, and the first arrivals after a larger number |
| AtCommands.RepliesFinal | apps/nrf52840_ble_at_host/src/at_host.c:187-242 | every operation is answered by exactly one final line |
| Protocol.AnswerTells | apps/nrf52840_ble_at_host/src/at_host.c:82-105 | the answer is +OK exactly for success, +ERR=Invalid Parameters exactly for four errors, +ERR=Function Error exactly for all others |
| AtGrammar.LineMeans | apps/nrf52840_ble_at_host/src/at_host.c:244-492 | what every line means: blank, confirmed, the call its arguments denote, a payload asked for, or one of three errors, each exactly when |
| AtGrammar.LineAnswered | apps/nrf52840_ble_at_host/src/at_host.c:502-546 | what the device does with every line and its CR LF in any reads: a line over 159 bytes is refused whole, a blank one ignored, a call made once and answered, every other line answered by its error |
| AtGrammar.SplitMeans | apps/nrf52840_ble_at_host/src/at_host.c:145-167 | the arguments are the first pieces between commas, a last empty one not counted |
| AtGrammar.NumberMeans | apps/nrf52840_ble_at_host/src/at_host.c:127-143 | white space, a sign and digits are read as their number if it fits 16 bits, with the wrap of strtoul for negative ones |
| AtGrammar.NumberShape | apps/nrf52840_ble_at_host/src/at_host.c:127-143 | and nothing else is |
| AtGrammar.TrimMeans | apps/nrf52840_ble_at_host/src/at_host.c:107-125 | trimming takes white space off both ends, and all of it |
| AtGrammar.WhiteSpace | apps/nrf52840_ble_at_host/src/at_host.c:112-118 | white space is the six characters of isspace |
| AtGrammar.SameLetter | apps/nrf52840_ble_at_host/src/at_host.c:39-66 | letters are compared without regard to case, all else as it is |
| AtParser.WithinByte | apps/nrf52840_ble_at_host/src/at_host.c:502-546 | a byte keeps both buffers within bounds |
| AtParser.WithinBytes | apps/nrf52840_ble_at_host/src/at_host.c:502-546 | any input does |
| AtChunks.CutMatters | apps/nrf52840_ble_at_host/src/at_host.c:502-515 | cutting the input changes state or output if and only if line endings are being skipped and the second part begins with one |
| AtChunks.SkipMeans | apps/nrf52840_ble_at_host/src/at_host.c:504-527 | that is: the first part ends with an accepted AT+SEND line and only line endings |
| AtReads.ReadsMatter | apps/nrf52840_ble_at_host/src/main.c:1067-1100 | over any run of reads the parser does what it does with the whole input if and only if no cut is torn |
| AtReads.ReadsRefineLines | apps/nrf52840_ble_at_host/src/at_host.c:502-546 | the same against reading the input line by line, where a line over 159 bytes is one Invalid Command and never executed in part |
| AtReads.ReadsAccount | apps/nrf52840_ble_at_host/src/at_host.c:169-185 | over every run of reads, torn or not, from any state: final lines plus an outstanding payload grow by the completed commands; each prompt is that of a payload delivered or awaited |
| AtReads.CompletedMeans | apps/nrf52840_ble_at_host/src/at_host.c:244-256 | when no cut is torn the completed commands are those of the input read line by line |
| AtReads.Responses | apps/nrf52840_ble_at_host/src/at_host.c:244-546 | the same from power-on |
| AtClient.NumberRoundTrip | apps/nrf52840_ble_at_host/src/at_host.c:127-143 | a printed number is read back if and only if it fits in 16 bits, and refused otherwise |
| AtClient.SplitJoined | apps/nrf52840_ble_at_host/src/at_host.c:145-167 | joining arguments with commas and splitting gives them back if and only if none contains a comma and the last is not empty |
| AtClient.DispatchAny | apps/nrf52840_ble_at_host/src/at_host.c:244-492 | the chain of comparisons takes any line to the branch of its verb, which gets the rest, cut at a terminator and at trailing white space |
| AtClient.AnyCase | apps/nrf52840_ble_at_host/src/at_host.c:258-491 | a line that has a verb in any mixture of case takes the branch of that verb, wherever it stands in the chain |
| AtClient.RepliesTell | apps/nrf52840_ble_at_host/src/at_host.c:187-492 | a call answered by its error number is answered by the line that tells it, and entering data mode by its announcement exactly if accepted |
| AtClient.CommandArrives | python/ble_at.py:162-241 | a command line is understood as the call it was written for if and only if its numbers are in range, its texts hold no comma, and the line holds no terminator and does not end in white space |
| AtSend.SendUnderstood | python/ble_at.py:205-206 | the line for a payload is accepted exactly for 1 to 256 bytes |
| AtClient.CommandRuns | apps/nrf52840_ble_at_host/src/at_host.c:502-546 | such a line with CR LF, cut into any reads, makes exactly that one call and is answered, by the line that tells its error, and the parser is idle again |
| AtSend.PayloadArrives | python/ble_at.py:205-212 | line, CR LF and payload, cut into any reads, hand exactly the payload to the operation if and only if, when a read ends after the CR, the payload is all LFs, and otherwise it does not begin with a line ending or a read ends before it; then the prompt and the line that tells the result are sent |
| AtSend.TornSend | apps/nrf52840_ble_at_host/src/at_host.c:504-521 | a read that ends between CR and LF shifts the payload by one byte, in any cutting |
| AtAnswers.CommandLearned | python/ble_at.py:150-153 | client, device and client: a command in any reads makes the call, and from the answer in any pieces the client returns exactly if the operation succeeded and otherwise raises the line that tells the error |
| AtAnswers.StatsLearned | python/ble_at.py:233-238 | the answer to AT+STREAMSTAT is never cut, and splitting it gives back every counter after its name |
| AtAnswers.ProfileLearned | python/ble_at.py:226-231 | the three UUIDs of the profile come back from their answer |
| AtAnswers.StatusLearned | python/ble_at.py:213-220 | and the address and payload length of the connection, if there is one |
| AtAnswers.MtuLearned | apps/nrf52840_ble_at_host/src/at_host.c:215-222 | and the MTU |
| AtHosting.AtHost.ProcessSendPayload | apps/nrf52840_ble_at_host/src/at_host.c:169-185 | the operation is called with the payload, its result answered, the mode left |
| AtDispatch.ReadCommand | apps/nrf52840_ble_at_host/src/at_host.c:244-492 | copying the line, trimming it, comparing verbs and splitting arguments, all in place on arrays, finds exactly the command that the line is |
| AtDispatch.EqualsText | apps/nrf52840_ble_at_host/src/at_host.c:39-51 | the loop compares without regard to case |
| AtDispatch.StartsText | apps/nrf52840_ble_at_host/src/at_host.c:53-66 | the loop finds the prefix without regard to case |
| AtHosting.AtHost.Invoke | apps/nrf52840_ble_at_host/src/at_host.c:187-242 | the operation is called once and answered by exactly its lines |
| AtHosting.AtHost.ProcessCommand | apps/nrf52840_ble_at_host/src/at_host.c:244-492 | on the terminated line buffer it has the effect of the line: payload mode entered, an operation called and answered, or an error |
| AtHosting.AtHost.EndOfLine | apps/nrf52840_ble_at_host/src/at_host.c:520-538 | executed, ignored when empty, Invalid Command when overflowed |
| AtHosting.AtHost.RxByte | apps/nrf52840_ble_at_host/src/at_host.c:506-545 | one byte over the fixed buffers |
| AtHosting.AtHost.RxBytes | apps/nrf52840_ble_at_host/src/at_host.c:502-546 | the byte loop |
| AtText.TrimWhitespace | apps/nrf52840_ble_at_host/src/at_host.c:107-125 | the C string in the array becomes its trimmed self, in place |
| AtText.SplitInPlace | apps/nrf52840_ble_at_host/src/at_host.c:145-167 | the argument pointers are C strings holding exactly the comma-separated parts |
| Uuid.EqualsMeans | apps/nrf52840_ble_at_host/src/app_common.c:133-144 | two texts are equal exactly when both are accepted and mean the same digits in the same width |
| Uuid.MeansNormalize | apps/nrf52840_ble_at_host/src/app_common.c:18-117 | the canonical text is decided by what the text means |
| Uuid.Idempotent | apps/nrf52840_ble_at_host/src/app_common.c:70-117 | normalising twice is normalising once, and the result fits |
| Uuid.CanonicalShape | apps/nrf52840_ble_at_host/src/app_common.c:18-117 | the canonical text is 0x and four upper-case digits, or 32 lower-case digits with dashes after the 8th, 12th, 16th and 20th, and means what the text meant |
| Uuid.UndashedMeans | apps/nrf52840_ble_at_host/src/app_common.c:97-117 | only dashes are taken out |
| Uuid.ShortForms | apps/nrf52840_ble_at_host/src/app_common.c:18-45 | four digits are a 16-bit UUID with or without a prefix in either case |
| Uuid.Equivalence | apps/nrf52840_ble_at_host/src/app_common.c:133-144 | equality is reflexive on accepted texts, symmetric and transitive |
| Uuid.TrailingSpace | apps/nrf52840_ble_at_host/src/app_common.c:70-95 | white space after an accepted text is accepted, and changes nothing, if and only if the text is not a 16-bit UUID; before it, it never matters |
| UuidText.NormalizeUuid | apps/nrf52840_ble_at_host/src/app_common.c:70-117 | writes the canonical text, or nothing at all |
| Settings.ConfigStore.HandleSet | apps/nrf52840_ble_at_host/src/settings.c:45-147 | one stored key: a failed read, a bad length or a bad text change nothing; texts are normalised, the rest copied |
| Settings.ConfigStore.LoadSubtree | apps/nrf52840_ble_at_host/src/settings.c:170-185 | the stored keys in the store's order |
| Settings.ConfigStore.UpdateProfile | apps/nrf52840_ble_at_host/src/settings.c:192-227 | nothing on a bad UUID; otherwise configuration changed and saved up to the first failure |
| Settings.ConfigStore.UpdateMtu | apps/nrf52840_ble_at_host/src/settings.c:229-237 | the same for the MTU, 23 to 259 |
| Settings.ConfigStore.UpdateConnParams | apps/nrf52840_ble_at_host/src/settings.c:239-271 | the same for the connection parameters |
| Settings.ReloadReproduces | apps/nrf52840_ble_at_host/src/settings.c:45-147 | reloading a synchronised store in any order reproduces the configuration exactly |
| Settings.UpdateKeepsSynced | apps/nrf52840_ble_at_host/src/settings.c:192-271 | an update keeps them synchronised if and only if from the first failing save on every changed key had its new value in the store, or by default, before |
| Settings.LostUpdate | apps/nrf52840_ble_at_host/src/settings.c:229-237 | a failed save of the MTU: the program goes on with the new value, a restart brings the old one |
| Settings.StartsSynced | apps/nrf52840_ble_at_host/src/settings.c:26-43 | defaults and an empty store are synchronised |
| Settings.RestartFindsConfig | apps/nrf52840_ble_at_host/src/settings.c:170-271 | after any history of saved updates a restart finds the configuration it left |
| SettingsMeaning.UpdateMeans | apps/nrf52840_ble_at_host/src/settings.c:192-271 | an update is accepted if and only if its texts are UUIDs and its numbers in range; then the configuration has what it asked for, each in its place, and the rest as before |
| SettingsMeaning.RestartFindsUpdate | apps/nrf52840_ble_at_host/src/settings.c:170-271 | after any history of saved updates a restart finds what the last one set |
| SettingsMeaning.FreshDevice | apps/nrf52840_ble_at_host/src/settings.c:26-43 | a fresh device is as if it had been given the stated updates |
| SettingsMeaning.TakenMeans | apps/nrf52840_ble_at_host/src/settings.c:50-93 | a stored text is taken if and only if it has 1 to 36 bytes and is a UUID, and is loaded as that UUID |
| SettingsMeaning.LoadMeans | apps/nrf52840_ble_at_host/src/settings.c:45-147 | from any store in any order a key gets the stored value if that is taken, and otherwise keeps the value it had |
| SettingsMeaning.DamagedStore | apps/nrf52840_ble_at_host/src/settings.c:170-185 | so even from a damaged store the texts of the configuration are canonical UUIDs |
| Scanning.NetBuf.ParseDeviceName | apps/nrf52840_ble_at_host/src/main.c:214-244 | the parsed name, with the buffer restored |
| Scanning.ParsesFirstName | apps/nrf52840_ble_at_host/src/main.c:221-241 | for well-formed structures, followed by anything that does not begin with one, the name is the first name structure cut to 31 bytes |
| Scanning.ScanTable.Clear | apps/nrf52840_ble_at_host/src/main.c:191-195 | the empty table |
| Scanning.ScanTable.FindEntry | apps/nrf52840_ble_at_host/src/main.c:246-256 | the entry with the address, if there is one |
| Scanning.ScanTable.DeviceFound | apps/nrf52840_ble_at_host/src/main.c:301-350 | nothing outside a scan or for another kind of report; otherwise the advertised name decides: filter, update, append or ignore; valid entries stay a prefix with distinct addresses and index equal to position |
| Scanning.AnnouncedOnce | apps/nrf52840_ble_at_host/src/main.c:301-350 | over any run of reports the announced addresses are those of the table, in order, each once |
| Scanning.FoundKeeps | apps/nrf52840_ble_at_host/src/main.c:323-338 | a report never moves or drops a known device |
| Scanning.TableKnows | apps/nrf52840_ble_at_host/src/main.c:323-346 | over any run of reports a known device has the name of its first matching report and the signal strength of its last |
| ProfileModel.PayloadRange | apps/nrf52840_ble_at_host/src/profile_manager.c:48-67 | the payload length is 20 to 256 and the smaller of both MTUs less three |
| ProfileModel.StepSound | apps/nrf52840_ble_at_host/src/profile_manager.c:87-265 | every callback answering an outstanding request keeps: ready only on a live link with service and both characteristics found; payload length 20 to 256 and within the ATT MTU; a pending write within its buffer |
| ProfileModel.RunSound | apps/nrf52840_ble_at_host/src/profile_manager.c:283-447 | the same over every run |
| ProfileModel.InitialSound | apps/nrf52840_ble_at_host/src/profile_manager.c:267-275 | it holds initially |
| ProfileModel.PendingFixed | apps/nrf52840_ble_at_host/src/profile_manager.c:427-446 | no step but its answer or the end of the link ends a write in flight, and none changes its bytes |
| ProfileModel.PendingStays | apps/nrf52840_ble_at_host/src/profile_manager.c:255-265 | the same over every run without those two |
| ProfileModel.StepGrows | apps/nrf52840_ble_at_host/src/profile_manager.c:48-67 | on a live link the payload length shrinks exactly when the preferred MTU is set below it |
| ProfileModel.ChunkFits | apps/nrf52840_ble_at_host/src/main.c:569-580 | a chunk claimed by the pump never meets the size error, whatever happens on the link before it is sent, unless the profile is configured anew |
| ProfileModel.ChunkOutgrown | apps/nrf52840_ble_at_host/src/profile_manager.c:406-420 | and it does when AT+SETMTU=23 comes in between |
| ProfileModel.ServicesMean | apps/nrf52840_ble_at_host/src/profile_manager.c:202-235 | the service range is that of the last matching service |
| ProfileModel.CharacteristicsMean | apps/nrf52840_ble_at_host/src/profile_manager.c:127-181 | the handles are those of the first matching characteristics |
| ProfileModel.DiscoveryMeans | apps/nrf52840_ble_at_host/src/profile_manager.c:105-235 | over every legal run on a link with a fixed profile, whatever interleaves: the range is that of the last matching service reported, the handles those of the first matching characteristics reported, and the manager is ready exactly if all three were found and the completing answer came with no lost subscription after it |
| ProfileDialogue.Discovers | apps/nrf52840_ble_at_host/src/profile_manager.c:87-335 | on every link, whatever the peer has and whatever is answered, the discovery runs to its end and reports exactly one outcome; it ends ready, with the handles of the peer, exactly if every request is accepted and service and both characteristics are there, and otherwise with the notice of what failed |
| ProfileDialogue.SendMeans | apps/nrf52840_ble_at_host/src/profile_manager.c:406-447 | a send succeeds exactly if the stack is asked and accepts; why it is not asked; a write with response is in flight with exactly the bytes given |
| ProfileDialogue.WriteCarries | apps/nrf52840_ble_at_host/src/profile_manager.c:427-446 | the bytes of a write stay what they were given until its answer, and no other is started meanwhile |
| ProfileDialogue.StreamSends | apps/nrf52840_ble_at_host/src/profile_manager.c:454-460 | a profile that takes the stream is written to without responses, so sending changes nothing in the manager |
| ProfileDialogue.MtuTakes | apps/nrf52840_ble_at_host/src/profile_manager.c:237-253 | after an exchange the payload length is the largest both MTUs allow and is announced; a failed one changes nothing |
| ProfileDialogue.MtuAsks | apps/nrf52840_ble_at_host/src/profile_manager.c:345-378 | an exchange is asked for exactly if the link is there, none is going on and the stack accepts, and then it can be answered; every refusal |
| ProfileDialogue.WriteEnds | apps/nrf52840_ble_at_host/src/profile_manager.c:255-265 | a write is over with its answer, and only a failed one is reported |
| ProfileDialogue.LinkEndsClean | apps/nrf52840_ble_at_host/src/profile_manager.c:283-343 | the end of the link leaves nothing of it |
| ProfileManaging.ProfileManager.constructor | apps/nrf52840_ble_at_host/src/profile_manager.c:267-275 | the state after initialisation |
| ProfileManaging.ProfileManager.UpdatePayloadLen | apps/nrf52840_ble_at_host/src/profile_manager.c:48-67 | the payload length of the effective MTU |
| ProfileManaging.ProfileManager.Reset | apps/nrf52840_ble_at_host/src/profile_manager.c:283-308 | handles, flags and pending write cleared |
| ProfileManaging.ProfileManager.Start | apps/nrf52840_ble_at_host/src/profile_manager.c:310-335 | no connection refused; service discovery requested, or the failure reported |
| ProfileManaging.ProfileManager.ServiceFound | apps/nrf52840_ble_at_host/src/profile_manager.c:225-234 | one service |
| ProfileManaging.ProfileManager.ServicesEnd | apps/nrf52840_ble_at_host/src/profile_manager.c:210-218 | missing, or characteristics requested |
| ProfileManaging.ProfileManager.CharacteristicFound | apps/nrf52840_ble_at_host/src/profile_manager.c:164-180 | one characteristic |
| ProfileManaging.ProfileManager.CharacteristicsEnd | apps/nrf52840_ble_at_host/src/profile_manager.c:136-157 | missing, subscribed or ready |
| ProfileManaging.ProfileManager.SubscribeHandler | apps/nrf52840_ble_at_host/src/profile_manager.c:87-103 | ready, or the failure reported |
| ProfileManaging.ProfileManager.HandleDisconnected | apps/nrf52840_ble_at_host/src/profile_manager.c:337-343 | reset and no connection, if it is the current one that was lost |
| ProfileManaging.ProfileManager.RequestMtu | apps/nrf52840_ble_at_host/src/profile_manager.c:345-378 | every result and the new state |
| ProfileManaging.ProfileManager.ExchangeHandler | apps/nrf52840_ble_at_host/src/profile_manager.c:237-253 | the payload length follows a successful exchange |
| ProfileManaging.ProfileManager.Send | apps/nrf52840_ble_at_host/src/profile_manager.c:406-447 | every refusal in the code's order, the two kinds of write, and the copy of the data |
| ProfileManaging.ProfileManager.WriteHandler | apps/nrf52840_ble_at_host/src/profile_manager.c:255-265 | the write is no longer in flight |

## Left out

- USB bring-up, DTR handling, the enabling and disabling of the transmit interrupt, semaphores and `main`.
- The insides of Zephyr's ring buffer, work queue, timers and GATT and connection layers: contracts or arbitrary answers.
- A disconnection between the pump's claim and finish: the pump's chunk stays a prefix of the ring there.
- PHY and data-length requests and address-type switches.
- The parsing of the address given to AT+CONNECT: a flag says whether it was accepted.
- `strtoul` is modelled for a 32-bit `unsigned long`.
- The AT operations other than scan, connect, disconnect and data mode reach the bridge model only as the lines they queue.
- The branches of the discovery callbacks for a foreign request type, and the formatting of UUIDs the stack reports.
- Serial input and output, timeouts, `recover_control_mode` and the reader thread's race for the mode flags in `ble_at.py`.
- Decoding of control lines as UTF-8: events stay bytes, and only ASCII white space is stripped.
- Rates and round-trip averages of the test program, and the pacing of its send loop; frame sizes below the header.
- Bridge.Device.HandleDataModeRx: the inner `while (true)` never repeats, so it is written without a loop; flag fields are grouped in records.
- Bridge.Device.PumpToClaim: the pump's loop is cut at the send, so that other steps can come between.
- Bridge.Device.UartRxIsr: in control mode the bytes go to the AT parser, which is a model of its own; its operations are events here.
- Bridge.Device.OpStartScan: the scan table and the filter are `Scanning.ScanTable`, not fields of this object.
- Bridge.Device.OpConnect: whether address and address type are accepted is one flag.
- Bridge.Device.Connected: the MTU, data-length and PHY requests after the start change nothing in this file.
- Bridge.Device.ServiceUartTx: the transmit interrupt is not turned off when there is nothing to send.
- Host.BleAtHost.ProcessControlBytes: events are the bytes of the line, which is what is decoded only for ASCII.
- Settings.ConfigStore.LoadSubtree: every stored value can be read; a read that fails is Settings.ConfigStore.HandleSet.
- ProfileModel.StepSound: assumes that the ATT MTU is at least 23 and does not shrink on a link.
- HostLink.DataSplitsExactly: lines queued in data mode that are broken off by a full ring, or hold an exit event, are excluded; HostLink.EventInLine shows why.
