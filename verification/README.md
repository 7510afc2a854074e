# Verification of the kerchunk scanner

kerchunk is an SDR scanner: a C++ helper turns one radio's IQ stream into lanes, squelches them and
speaks one of them, and a TypeScript scheduler tells it, over a pipe of JSON lines, which window to
listen to. This project models the parts of both whose guarantees hold over whole runs, and proves
them. Check it with `dafny verify dfyconfig.toml`.

Code that changes fields in place is a class here, with those fields; each method is proved to make
exactly one step of a function over the class's state, and the theorems are about runs of those
steps. What a step means is stated apart from that function, on fields, inputs and commands alone.
Buffers are arrays where the source indexes them. Two processes, or two threads, are a state machine
over their interleaved steps.

| modules | what they hold |
|---|---|
| `SquelchSpec`, `ScannerClass`, `SquelchInvariants`, `SquelchLog`, `SquelchRuns`, `SquelchGate` | the scanner's lanes, speaker arbitration, event log and speaker gate |
| `SquelchMeters`, `SquelchCommands`, `SquelchHistory` | what readings and commands mean for a lane, said of the readings and the commands alone |
| `HopSpec`, `HopScheduler`, `HopRuns`, `HopLaws` | the hop timer: dwell, priority looks, sweep stops, max hold, and what holds the radio |
| `OpenSetProtocol`, `OpenSetRuns` | both processes over two FIFO pipes |
| `Retune`, `IqSources`, `SpyServer`, `SpyFrames` | the retune handshake, the two radios, SpyServer's wire format |
| `Grouping` | channel groups |
| `DcsCode`, `DcsClasses`, `DcsInversion`, `DcsDetector` | the DCS code and its detector (the signal of ETSI TS 103 236 and TIA-603) |
| `Resampling`, `IqRate`, `Spsc` | streaming filters, the SpyServer rate converter, the lock-free ring |
| `Speaker`, `EngineClock`, `SpeakerRuns` | fades, the sample clock and poll cadence, and both together |
| `PngRows`, `PngChunks` | the streaming PNG crop (filters: section 9 of the W3C PNG specification, section 6 of RFC 2083) |
| `FdPump`, `Preroll`, `CcRecording`, `Family` | the byte-aligned pump, Close Call clips, service families |
| `Arithmetic`, `Bytes`, `Options` | helpers |

Samples, gains, dB values and times are reals; counters and cursors are unbounded integers, with
`Spsc.CursorsMayWrap` showing that machine-word cursors give the same slots and differences. Inputs
from outside a module (readings, clocks, device answers, what the ring had room for, which
generation a thread loads) are parameters that may take any value, restricted only where a
predicate named `Enabled`, `Allowed`, `InputOk`, `Honest`, `Possible` or `Answers` says so.

## Where the code does not do what its comments say

- The gate follows carrier, tone and quieting at a lane's own turn in a poll (scanner.cpp:236), but
  a lane that takes the speaker over from another lane's turn, a skip or an alert is gated on carrier
  and tone alone (scanner.cpp:127). `SquelchGate.GateInEveryRun` says exactly when, for every run;
  `NoisyHandover` (a poll) and `NoisySkip` are cases.
- groupChannels' dc score counts the channels near the center only for a positive clearance; at zero
  it is minus the number of channels exactly on it (grouping.ts:90). `Grouping.DcIsLinear` is the
  exact condition; `Grouping.EarlyMidpoint` says when a midpoint taken at once is then not the best.
- The SpyServer gain marker has three values, so it tells two older generations in the stream apart
  but not three: `SpyServer.MarkerAliases`, `SpyServer.ThreeInFlight`.
- The byte FdPump keeps when it abandons a chunk inside a sample is the chunk's last one, so the
  stream stays aligned but one sample is made of two halves, unless that byte was all that was left:
  `FdPump.OddCut` and `FdPump.TrueSamples` are exact, `FdPump.TornSample` is a case.
- A clip can exceed its cap (ccRecorder.ts:197-206, 235-240). If the configured length is lowered below
  what the clip already holds, a negative end of subarray counts from the back: `CcRecording.LoweredCap`.
  And a cap that is not a whole number of bytes is exceeded by pre-roll alone, by less than a byte:
  `CcRecording.FractionalCap`. `CcRecording.CapIff` is the exact condition over the lengths read during a
  clip; `CcRecording.ClipsKeepTheCap` is what every queued clip keeps. With a fractional cap a clip can
  also stop just short of it: `CcRecording.PartialByteWaits`.
- audio.cpp:38-42 asserts that no gain change can land inside a fade because polls are far enough
  apart. Skip and alert commands change the gain between polls too; `SpeakerRuns.NoClicks` shows that
  they still never cut a fade short, because they only move the gate together with the source.

Two more conditions are exact although no input can break them. A forced hop after the max hold falls
through with `groupStartedAt` 0 (WidebandEngine.ts:1060) and so sends a tune only if the clock reads at
least the window's share, which a wall clock always does: `HopRuns.ForcedHopTunes`. RTL blocks never mix
generations (rtl_source.cpp:88-90) unless a retune lands while an odd byte is carried, and transfers of
even length never carry one: `IqSources.RtlSource.OnSamples`.

## Model

| member | source | states |
|---|---|---|
| SquelchSpec.NextOpen | kiosk/native/src/scanner.cpp:132-142 | a lane is found if and only if one may speak; it may speak, and if it is not a priority lane then no priority lane may |
| ScannerClass.Scanner.constructor | kiosk/native/src/scanner.cpp:12-18 | all slots parked, nobody audible, gate shut |
| ScannerClass.Scanner.SetAudibleTo | kiosk/native/src/scanner.cpp:123-130 | the whole new state: nothing at all if the lane is already audible, else owner, gate by carrier and tone, and the event |
| ScannerClass.Scanner.NextSpeaker | kiosk/native/src/scanner.cpp:132-142 | the loop finds the next speaker as specified |
| ScannerClass.Scanner.ExpireLaneAlert | kiosk/native/src/scanner.cpp:187-194 | an expired alert gives up the speaker to the next lane, and nothing else changes |
| ScannerClass.Scanner.DecideLane | kiosk/native/src/scanner.cpp:238-273 | the open, close and hang decisions of one lane as a step of the specification, with every state they touch; what the decisions are: SquelchMeters.OpensWhenHeard, SquelchMeters.ClosesAfterHang |
| ScannerClass.Scanner.DoPollLane | kiosk/native/src/scanner.cpp:178-283 | one lane's turn in a poll, as a step of the specification |
| ScannerClass.Scanner.DoPoll | kiosk/native/src/scanner.cpp:154-284 | a poll is the floor update, then every lane's turn in slot order; malformed readings and monitor mode change nothing |
| ScannerClass.Scanner.DoTune | kiosk/native/src/scanner.cpp:82-121 | closes, slot assignment, the ack and the held lane of monitor mode as a step of the specification; who gets which slot: SquelchCommands.TuneAssigns |
| ScannerClass.Scanner.DoSetCcAudible | kiosk/native/src/scanner.hpp:81 | the ranges are replaced and nothing else changes |
| ScannerClass.Scanner.DoSkip | kiosk/native/src/scanner.cpp:298-319 | the audible lane is closed and held off, the speaker handed on; the Close Call frequency is returned |
| ScannerClass.Scanner.DoAlertUnmute | kiosk/native/src/scanner.cpp:321-330 | the lane with that id may speak until the alert ends, and does so at once if open |
| ScannerClass.Scanner.DoAssignCc | kiosk/native/src/scanner.cpp:332-352 | the first parked slot takes the hit, silent if its frequency is outside every range in force |
| SquelchInvariants.PollKeeps | kiosk/native/src/scanner.cpp:154-284 | any poll keeps the arbitration invariant: the audible lane is open and may speak, silence means nobody may, an open gate means carrier and tone; without alerts a priority lane is never outranked |
| SquelchInvariants.TuneKeeps | kiosk/native/src/scanner.cpp:82-121 | so does any tune, from any arbitrated state; outside monitor mode it leaves everything closed |
| SquelchInvariants.SkipKeeps | kiosk/native/src/scanner.cpp:298-319 | so does a skip, and the skipped lane is closed |
| SquelchInvariants.AlertUnmuteKeeps | kiosk/native/src/scanner.cpp:321-330 | an alert keeps arbitration (rank may be overridden) |
| SquelchInvariants.AssignCcKeeps | kiosk/native/src/scanner.cpp:332-352 | a Close Call assignment keeps arbitration and rank |
| SquelchInvariants.RatedHasFloor | kiosk/native/src/scanner.cpp:159-183 | a lane past its warm-up always has a noise floor, so none is passed over for want of a threshold |
| SquelchInvariants.HitFollowsRanges | kiosk/native/src/scanner.cpp:332-352 | a Close Call hit may speak, and pre-empt, if and only if the ranges in force hold its frequency |
| SquelchMeters.LowestFloor | kiosk/native/src/scanner.cpp:171-176 | the shared floor exists if and only if some wide lane has a floor, is one of theirs, and none is below it |
| SquelchMeters.OpensWhenHeard | kiosk/native/src/scanner.cpp:238-256 | one poll: a closed lane counts up if and only if its reading is more than its opening margin above the floor it goes by (its own for sideband, else the lowest of the wide lanes' after tracking), it is quieted, its tone or code is there or was within the loss time, and it is not held off; it opens if and only if that makes OPEN_POLLS |
| SquelchMeters.ClosesAfterHang | kiosk/native/src/scanner.cpp:257-273 | one poll: an open lane closes if and only if it reads under its closing threshold or unquieted and its hang, running since it first did, is over; anything else stops the hang, and a Close Call's slot is freed |
| SquelchMeters.PollMeters | kiosk/native/src/scanner.cpp:199-236 | one poll: floor, carrier, sideband hold, quieting, tone, tone memory and episode of every measured lane are exactly what its readings make them, each hysteresis and time constant written out |
| SquelchMeters.PollAlerts | kiosk/native/src/scanner.cpp:187-194 | a measured lane's alert ends at the first poll not before its end, and the lane then has its configured audibility back; nothing else changes either |
| SquelchMeters.PollWaiting | kiosk/native/src/scanner.cpp:160-170 | a parked, warming or background lane only counts down, its floor seeded by the last reading of the countdown |
| SquelchCommands.TuneAssigns | kiosk/native/src/scanner.cpp:90-108 | the first background channel has the last slot and the others, ranked in list order, the slots before it; the lane of each is closed, unmeasured, warming up, with its own settings and what is left of its holdoff; every other slot is parked; a truncation is logged if and only if some channel has no slot |
| SquelchCommands.TuneOnce | kiosk/native/src/scanner.cpp:102-107 | with each channel listed once, a channel that has a slot is on no other lane |
| SquelchCommands.TuneIds | kiosk/native/src/scanner.cpp:102-107 | and when all have slots, the lanes are exactly the channels |
| SquelchCommands.MonitorHolds | kiosk/native/src/scanner.cpp:109-120 | weather-only: the same slots, but the first lane assigned is open, audible and ungated |
| SquelchCommands.SkipHoldsOff | kiosk/native/src/scanner.cpp:298-319 | the skipped lane is closed and its channel held off until now plus the holdoff, on the lane and by id; a Close Call's slot is freed instead; other lanes stay, and only holdoffs that are over are forgotten |
| SquelchCommands.AlertSpeaks | kiosk/native/src/scanner.cpp:321-330 | the lane with that id may speak until now plus the hold, has the speaker at once if it is open, and no other lane changes |
| SquelchCommands.AlertMisses | kiosk/native/src/scanner.cpp:321-330 | with no such lane nothing changes |
| SquelchCommands.AssignTakes | kiosk/native/src/scanner.cpp:332-350 | the first parked slot, and no other, takes the hit: AM in the airband and else FM, audible and a priority unless its frequency is outside every range in force |
| SquelchCommands.AssignMisses | kiosk/native/src/scanner.cpp:333-351 | with no parked slot nothing changes |
| SquelchGate.GateAfterPoll | kiosk/native/src/scanner.cpp:123-130 | after a poll the gate is open if and only if the audible lane has carrier and tone, and quieting too unless it took the speaker after its own turn |
| SquelchGate.NoisyHandover | kiosk/native/src/scanner.cpp:236-268 | a concrete poll after which an unquieted lane speaks with the gate open |
| SquelchGate.GateAfterSkip | kiosk/native/src/scanner.cpp:298-319 | a skip takes the speaker from its lane, and whoever gets it is gated by carrier and tone alone |
| SquelchGate.GateAfterAlert | kiosk/native/src/scanner.cpp:321-330 | an alert that moves the speaker gates it by carrier and tone alone; any other leaves the gate as it was |
| SquelchGate.NoisySkip | kiosk/native/src/scanner.cpp:123-130 | a concrete skip after which an unquieted lane speaks with the gate open |
| SquelchGate.GateInEveryRun | kiosk/native/src/scanner.cpp:82-352 | in every run outside weather-only the gate is open if and only if the audible lane has carrier and tone, and quieting too unless the speaker changed hands since that lane's own last turn |
| SquelchLog.LeftByClose | kiosk/native/src/scanner.cpp:86-89 | an id in the open set of a prefix of the log is open at the end or was closed in between |
| SquelchLog.PollExtends | kiosk/native/src/scanner.cpp:238-270 | a poll keeps the log's open set equal to the open lanes, opens and closes alternating, and opens only lanes the scanner had |
| SquelchLog.SkipExtends | kiosk/native/src/scanner.cpp:298-319 | the same for a skip |
| SquelchLog.AlertUnmuteExtends | kiosk/native/src/scanner.cpp:321-330 | the same for an alert |
| SquelchLog.AssignCcExtends | kiosk/native/src/scanner.cpp:332-352 | the same for a Close Call assignment |
| SquelchLog.TuneLogs | kiosk/native/src/scanner.cpp:82-121 | every lane that was open is closed before the ack, and what opens afterwards is in the tune's list |
| SquelchRuns.EveryRun | kiosk/native/src/scanner.cpp:82-352 | arbitration holds after any sequence of commands and polls; rank too if no alert was among them; and the log alternates and names exactly the open lanes |
| SquelchRuns.RangesInForce | kiosk/native/src/engine.cpp:88-89 | in any run the ranges in force are those of the last tune |
| SquelchRuns.HitsFollowLastTune | kiosk/native/src/scanner.cpp:332-352 | in any run a Close Call hit may speak if and only if the last tune's ranges hold its frequency |
| SquelchRuns.EvidenceIsStreak | kiosk/native/src/scanner.cpp:239-256 | in any run a closed lane's counter is the number of polls in a row that heard it, in the sense of SquelchMeters.OpensWhenHeard |
| SquelchRuns.OpensAfterStreak | kiosk/native/src/scanner.cpp:238-256 | in any run a poll opens a closed lane if and only if it is the last of OPEN_POLLS polls in a row that heard it |
| SquelchRuns.RowOfPolls | kiosk/native/src/scanner.cpp:238-256 | in any run, OPEN_POLLS polls one after the other from no evidence open a closed lane if and only if every one of them hears it, and not before the last |
| SquelchRuns.FadeTracked | kiosk/native/src/scanner.cpp:257-272 | in any run an open lane's below_since is the poll its unbroken fade began at, or -1 |
| SquelchRuns.ClosesAfterFade | kiosk/native/src/scanner.cpp:257-270 | in any run a poll closes an open lane if and only if the lane fades at it and has faded at every poll since one its hang time or more ago |
| SquelchHistory.OpenedForCause | kiosk/native/src/scanner.cpp:214-240 | in any run, a closed lane that a poll opens read more than its opening margin above its floor, was quieted and not held off, and heard its tone or code at this poll or within the loss time at an earlier poll of the run |
| SquelchHistory.ToneWasHeard | kiosk/native/src/scanner.cpp:214-222 | in any run a lane's tone memory is the time of a poll that heard its tone |
| SquelchHistory.SkipStands | kiosk/native/src/scanner.cpp:314-317 | in any run a skipped channel stays closed until its holdoff is over, through polls, alerts, other skips and retunes away and back; only a weather-only tune, which opens its channel regardless, may not come in between |
| SquelchHistory.SpeakerIsAnnounced | kiosk/native/src/scanner.cpp:123-130 | in any run the last audible event names the lane that has the speaker, or nobody |
| SquelchHistory.SpeakerMoves | kiosk/native/src/scanner.cpp:238-268 | a lane's turn takes the speaker from another only by opening with priority over it, takes it for itself only by opening, and gives it up only by closing or by losing its leave to speak |
| HopScheduler.WidebandEngine.HandleOpen | kiosk/src/backend/engine/WidebandEngine.ts:738-751 | an open is believed if and only if Node can place its id |
| HopScheduler.WidebandEngine.HandleClose | kiosk/src/backend/engine/WidebandEngine.ts:752-766 | a stale close changes nothing; the last close ends the hold, and restarts the dwell only if the lane was audible |
| HopScheduler.WidebandEngine.AlertUnmute | kiosk/src/backend/engine/WidebandEngine.ts:1268-1276 | a silent channel claims the radio, too, for the hold but at least a second |
| HopScheduler.WidebandEngine.Retune | kiosk/src/backend/engine/WidebandEngine.ts:531-543 | a new configuration starts over at its first group with one tune, no look and no sweep stop in progress |
| HopScheduler.WidebandEngine.LaneClaims | kiosk/src/backend/engine/WidebandEngine.ts:833-853 | which open lane has a claim on the radio, as the specification; what that is: HopLaws.ClaimsIffHolds |
| HopScheduler.WidebandEngine.AnyAudibleOpen | kiosk/src/backend/engine/WidebandEngine.ts:836-842 | true if and only if some believed lane has a claim |
| HopScheduler.WidebandEngine.SendGroupTune | kiosk/src/backend/engine/WidebandEngine.ts:923-969 | nothing believed open, timers restarted, one tune for the current group |
| HopScheduler.WidebandEngine.SendEmptyTune | kiosk/src/backend/engine/WidebandEngine.ts:904-921 | the same with an empty channel list |
| HopScheduler.WidebandEngine.StartLook | kiosk/src/backend/engine/WidebandEngine.ts:999-1017 | credit accrues or resets, or a look starts and remembers where to return and the time already spent |
| HopScheduler.WidebandEngine.EndLook | kiosk/src/backend/engine/WidebandEngine.ts:1019-1027 | back to the interrupted group with its elapsed time restored |
| HopScheduler.WidebandEngine.OnTick | kiosk/src/backend/engine/WidebandEngine.ts:1034-1095 | one timer tick as a step of the specification: hold, breach, sweep stop, look, dwell, in that order |
| HopRuns.ForcedHopTunes | kiosk/src/backend/engine/WidebandEngine.ts:1043-1061 | a breached hold is forgotten, and a tune is sent if and only if the clock reads at least the window's share or a look is due |
| HopRuns.TickHops | kiosk/src/backend/engine/WidebandEngine.ts:1034-1095 | a tick either leaves position and open set alone or sends exactly one tune and believes nothing open |
| HopRuns.TickStop | kiosk/src/backend/engine/WidebandEngine.ts:1043-1095 | a held tick restarts the share of the window it is in and does nothing else; any other moves to the next stop if and only if the stop is not in a look and has had its share or its hold was given up; a look costs the stop nothing |
| HopRuns.StayIsSpent | kiosk/src/backend/engine/WidebandEngine.ts:752-766 | over every run of ticks, opens, closes, alerts and new configurations, the engine's arithmetic equals the time the stop has had since its arrival tune or its last audible traffic, looks not counted |
| HopRuns.RotationRun | kiosk/src/backend/engine/WidebandEngine.ts:1043-1095 | over every run, a tick leaves the stop if and only if it is in no look, nothing audible holds it, and its own time adds up to its share or its hold has just been given up; then it goes on cyclically with one sweep stop per wrap, with that stop's tune |
| HopRuns.QuietStay | kiosk/src/backend/engine/WidebandEngine.ts:1038-1041 | silent traffic takes no scan time: through any quiet stretch, silent lanes opening and closing at will, the stay grows by the clock alone |
| HopRuns.QuietRun | kiosk/src/backend/engine/WidebandEngine.ts:1065-1095 | a stop arrived at by a tick and quiet since, whatever opened and closed silently, is left by the first tick that comes its full share later |
| HopRuns.HoldStartTracked | kiosk/src/backend/engine/WidebandEngine.ts:1043-1064 | over any run, alerts and new configurations included, holdStartedAt is the first tick of the unbroken hold, and younger than the cap |
| HopRuns.HoldIsBounded | kiosk/src/backend/engine/WidebandEngine.ts:1043-1061 | in any run a hold goes on if and only if it is younger than maxHoldMs, and ends within one tick of it |
| HopLaws.ClaimsIffHolds | kiosk/src/backend/engine/WidebandEngine.ts:833-853 | an open lane holds the radio if and only if it is a Close Call inside the ranges in force, a channel the current group lists as audible, a lane it does not list, or has an alert running |
| HopLaws.HoldsThrough | kiosk/src/backend/engine/WidebandEngine.ts:1043-1049 | under a hold younger than maxHoldMs, a tick that finds something holding the radio writes no tune, stays where it is and starts the window's share over |
| HopLaws.NothingHolds | kiosk/src/backend/engine/WidebandEngine.ts:1062-1095 | a tick that finds nothing holding the radio ends any hold, leaves the share running unless it writes a tune, and writes one when the share is over |
| HopLaws.AlertStands | kiosk/src/backend/engine/WidebandEngine.ts:1268-1276 | in any run an id is alerting until its last alert's time plus the hold or a second, whichever is longer |
| HopLaws.SilentHoldsWhileAlerting | kiosk/src/backend/engine/WidebandEngine.ts:844-853 | so in any run a silent channel of the current group holds the radio before that end, and not from then on |
| HopLaws.LookTick | kiosk/src/backend/engine/WidebandEngine.ts:993-1017 | a tick saves quiet time towards a look only where one may start; everyMs of it buys a look at the next of the groups with an audible priority channel, a group that has one clears the savings, and everywhere else both stay as they are |
| HopLaws.LooksInTurn | kiosk/src/backend/engine/WidebandEngine.ts:1009-1016 | over any run the looks visit those groups in turn, in rotation order and round again |
| HopLaws.RetargetsAfresh | kiosk/src/backend/engine/WidebandEngine.ts:531-543 | a new configuration sends the tune of its first group and no look, sweep stop, savings or open id survives it |
| OpenSetProtocol.HopKeeps | kiosk/src/backend/engine/WidebandEngine.ts:894-929 | forgetting every open id keeps the protocol's invariant, because a tune is on the way |
| OpenSetProtocol.HearKeeps | kiosk/src/backend/engine/WidebandEngine.ts:738-766 | so does hearing any event, stale or not |
| OpenSetProtocol.AlertKeeps | kiosk/src/backend/engine/WidebandEngine.ts:1268-1276 | so does an alert |
| OpenSetProtocol.TunesKeeps | kiosk/native/src/scanner.cpp:82-121 | so does obeying the newest tune, its Close Call ranges first |
| OpenSetProtocol.RunKeeps | kiosk/native/src/scanner.cpp:154-352 | so do polls, skips, alerts and Close Calls between tunes |
| OpenSetProtocol.ActionKeeps | kiosk/src/backend/engine/WidebandEngine.ts:713-766 | every action of either process keeps the invariant |
| OpenSetRuns.OpenSetIsTrue | kiosk/src/backend/engine/WidebandEngine.ts:738-766 | in every interleaving Node's open set is within what the stream it has read opened and did not close, every id in it is open in the helper or has its close on the way, and with both pipes empty the two sets are equal |
| Retune.LiveLoop.constructor | kiosk/native/src/live.cpp:7-13 | settle is one USB transfer plus the rounded margin |
| Retune.LiveLoop.HandleTune | kiosk/native/src/live.cpp:21-28 | a refused retune fails the loop, an accepted one waits for its generation with a full settle count |
| Retune.LiveLoop.HandleKnown | kiosk/native/src/live.cpp:29-39 | a known list reaches the engine and the pending tune |
| Retune.LiveLoop.Consume | kiosk/native/src/live.cpp:43-56 | each block, cut to its whole samples or to the room it has, whichever is less, is noted as a gap or pushed whole, in the new window if it ends the wait |
| Retune.Clamped | kiosk/native/src/live.cpp:44-48 | the whole samples of the bytes a block says it holds, from its front, and never more than it has room for |
| Retune.SettleEnds | kiosk/native/src/live.cpp:49-55 | a pending tune ends: blocks of older generations and the new blocks that fill the settle count are noted as gaps, and every block from then on is demodulated in order as the new window, with the newest known list |
| Retune.LiveLoop.ReportLost | kiosk/native/src/live.cpp:41-42 | samples the source dropped or discarded go on the clock |
| Retune.DeliverKeeps | kiosk/native/src/rtl_source.cpp:84-100 | any honest delivery, kept or dropped by the ring, keeps the handshake's invariant |
| Retune.TakeKeeps | kiosk/native/src/live.cpp:43-56 | so does consuming any block |
| Retune.NoStaleSample | kiosk/native/src/live.cpp:15-57 | in every run no sample is ever demodulated as a window it was not captured in, and the newest known list survives |
| Retune.EverySampleCounts | kiosk/native/src/live.cpp:41-56 | over every run the clock's pushes and gaps, what is still to be reported and what is in the ring add up to all the source delivered or discarded; once reported and with the ring empty the clock has counted every sample |
| Retune.SettleIsTight | kiosk/native/src/live.cpp:7-13 | one sample less of settle lets an old-center sample through |
| IqSources.BlockWriter.PublishAcc | kiosk/native/src/rtl_source.cpp:66-82 | whole pairs are offered, an odd byte stays, nothing is lost or reordered |
| IqSources.BlockWriter.Append | kiosk/native/src/rtl_source.cpp:92-99 | offered, dropped and buffered bytes are exactly the input in order, in even blocks no larger than the cap |
| IqSources.BlockWriter.Retag | kiosk/native/src/rtl_source.cpp:87-91 | the early flush keeps blocks of one generation unless an odd byte is carried |
| IqSources.RtlSource.OnSamples | kiosk/native/src/rtl_source.cpp:84-100 | a transfer is taken whole; a block mixes generations exactly when a retune lands on a carried odd byte |
| IqSources.FlatEven | kiosk/native/src/rtl_source.cpp:66-82 | what has been offered is always an even number of bytes |
| SpyServer.SpyServerSource.SetCenter | kiosk/native/src/spyserver_source.cpp:252-264 | the marker steps even if nothing was sent; gain and generation change only if it was |
| SpyServer.SpyServerSource.OnIq | kiosk/native/src/spyserver_source.cpp:178-213 | a frame is held, dropped or passed by the marker's verdict, and counted as discarded unless passed |
| SpyServer.EchoEndsHold | kiosk/native/src/spyserver_source.cpp:189-202 | after a retune frames are held if and only if none so far echoed the wanted gain, that one and the next are dropped, and every later frame passes |
| SpyServer.SpyServerSource.TakeDiscarded | kiosk/native/src/spyserver_source.cpp:215-220 | the count is converted exactly, with the remainder carried |
| SpyServer.DiscardedTotal | kiosk/native/src/spyserver_source.cpp:215-220 | over any calls the total is the discarded samples times 750/768, rounded down once |
| SpyServer.EchoIsWanted | kiosk/native/src/spyserver_source.cpp:189-196 | with at most two older generations in the stream, a matching gain is the wanted one |
| SpyServer.TraceInv | kiosk/native/src/spyserver_source.cpp:178-213 | in every run a reader past its marker has seen an echo of its generation, and past its dropped frames the retune has taken hold |
| SpyServer.PassedIsHonest | kiosk/native/src/spyserver_source.cpp:178-213 | in every run a frame passed under a generation was captured at that center or a later one: the delivery assumption of the handshake, with no settle needed |
| SpyServer.MarkerAliases | kiosk/native/src/spyserver_source.cpp:252-264 | an older generation passes for the wanted one if and only if a multiple of three retunes lie between |
| SpyServer.ThreeInFlight | kiosk/native/src/spyserver_source.cpp:189-204 | so with three retunes in flight old-center frames are passed |
| SpyFrames.Append | kiosk/native/src/spyserver_protocol.cpp:5-7 | the loop appends the four bytes of a word, least significant first |
| SpyFrames.GetPut | kiosk/native/src/spyserver_protocol.cpp:5-11 | any word reads back, at any word offset and in any surroundings |
| SpyFrames.SettingReadsBack | kiosk/native/src/spyserver_protocol.cpp:23-30 | a setting command reads back as its code, its body's length and its arguments |
| SpyFrames.HelloReadsBack | kiosk/native/src/spyserver_protocol.cpp:14-21 | so does the greeting, for any client id |
| SpyFrames.FrameParser.Feed | kiosk/native/src/spyserver_protocol.cpp:43-60 | frames delivered, bytes kept and failure are the parse of everything buffered |
| SpyFrames.ParseGoesOn | kiosk/native/src/spyserver_protocol.cpp:43-60 | parsing a longer stream goes on from what the shorter one left |
| SpyFrames.AnySplit | kiosk/native/src/spyserver_protocol.cpp:43-60 | every split of a stream delivers the same frames as the whole at once |
| SpyFrames.DeafAfterFailure | kiosk/native/src/spyserver_protocol.cpp:44-54 | after an oversize header nothing more is delivered |
| SpyFrames.HeaderReadsBack | kiosk/native/src/spyserver_protocol.cpp:48-49 | every header reads back field by field |
| SpyFrames.FramesComeBack | kiosk/native/src/spyserver_protocol.cpp:43-60 | any sequence of encoded frames comes out as sent |
| Grouping.SortedEnabledKeeps | kiosk/src/backend/engine/grouping.ts:38 | the sorted list has every enabled channel as often as the input, and no other |
| Grouping.FirstAtLeast | kiosk/src/backend/engine/grouping.ts:79-83 | the binary search splits the range at the frequency, and counts what lies below |
| Grouping.FirstAbove | kiosk/src/backend/engine/grouping.ts:84-88 | the same for what lies at or below |
| Grouping.DcCounts | kiosk/src/backend/engine/grouping.ts:90 | the dc score is the linear count for a positive clearance, and minus the channels on the center at zero |
| Grouping.DcIsLinear | kiosk/src/backend/engine/grouping.ts:90 | it is the linear count if and only if the clearance is positive or no channel sits on the center |
| Grouping.EdgeCounts | kiosk/src/backend/engine/grouping.ts:91 | the edge score is the linear count of channels off the flat |
| Grouping.ScoreAt | kiosk/src/backend/engine/grouping.ts:76-93 | four binary searches compute both scores |
| Grouping.PlaceCenter | kiosk/src/backend/engine/grouping.ts:97-112 | the center is the midpoint or on the 5 kHz raster and keeps every member within half a window; by the code's score neither the midpoint nor any raster center beats it, except that a midpoint scoring nothing is taken at once, which matters only at zero clearance |
| Grouping.EarlyMidpoint | kiosk/src/backend/engine/grouping.ts:90-103 | at zero clearance a center beats a midpoint that scores nothing if and only if a channel sits on it |
| Grouping.ScanIsBest | kiosk/src/backend/engine/grouping.ts:48-63 | the inner loop finds a cheapest last group, ties going to the latest start |
| Grouping.ScanStops | kiosk/src/backend/engine/grouping.ts:49-50 | breaking at the first infeasible start misses nothing |
| Grouping.FillBest | kiosk/src/backend/engine/grouping.ts:45-64 | the filled table is the recursive optimum for every prefix |
| Grouping.CutsCost | kiosk/src/backend/engine/grouping.ts:65-71 | following the table's links gives a partition of exactly its cost |
| Grouping.BestIsOptimal | kiosk/src/backend/engine/grouping.ts:24-64 | no partition within window and lane count is cheaper, for every prefix |
| Grouping.GroupChannels | kiosk/src/backend/engine/grouping.ts:32-72 | the groups are that partition in order, each with its placed center |
| Grouping.FewestGroupsThenEdges | kiosk/src/backend/engine/grouping.ts:24-28 | the partition has the fewest groups and, among partitions with that many, the fewest channels off the flat at midpoints |
| Grouping.EdgeCountsOff | kiosk/src/backend/engine/grouping.ts:55 | a group's edge count is the number of its channels more than half the flat away from the middle of its span |
| Grouping.EdgeSumCountsOff | kiosk/src/backend/engine/grouping.ts:55-56 | and a partition's is the number of channels that are that far from the middle of their group |
| Grouping.GroupsServe | kiosk/src/backend/engine/grouping.ts:24-37 | the chosen groups' channels one after the other are exactly the sorted channels the cuts cover, and every group has at least one, at most the lane count, and all of them within half a window of its center |
| Grouping.GreedyReachesFarthest | kiosk/src/backend/engine/grouping.ts:28 | no partition into t groups gets past the t-th greedy group |
| Grouping.GreedyWhenFlat | kiosk/src/backend/engine/grouping.ts:28 | when no feasible group is off the flat, the cuts up to the t-th greedy end are the first t greedy ones |
| Grouping.GreedyWhole | kiosk/src/backend/engine/grouping.ts:28 | so for the whole list: the chosen groups are the greedy ones |
| DcsCode.Golay23 | kiosk/native/src/dcs.cpp:11-18 | the shift loop computes data followed by the register's parity |
| DcsCode.LfsrDivides | kiosk/native/src/dcs.cpp:11-18 | after every step the register is the data less a multiple of the generator: the loop is polynomial division |
| DcsCode.GolayInCode | kiosk/native/src/dcs.cpp:9-18 | every encoded word is a multiple of 0xC75, for all data |
| DcsCode.WordInCode | kiosk/native/src/dcs.cpp:45-48 | so is every word on air, in either polarity |
| DcsCode.RotateStaysInCode | kiosk/native/src/dcs.hpp:54 | the code is closed under rotation |
| DcsCode.FlipStaysInCode | kiosk/native/src/dcs.cpp:47 | and under complement |
| DcsCode.RotateClass | kiosk/native/src/dcs.cpp:23-42 | a window is in a class if and only if its rotation is |
| DcsCode.RotateLookup | kiosk/native/src/dcs.cpp:38-42 | so while a word repeats every window looks up to the same class |
| DcsClasses.CodewordsRecur | kiosk/native/src/dcs.cpp:9-10 | every codeword is a linear recurring sequence: its last eleven bits follow from the first twelve |
| DcsClasses.FramedOnce | kiosk/native/src/dcs.cpp:20-22 | a word that reads as a standard code at its start does so nowhere else within half a turn |
| DcsClasses.WordFramed | kiosk/native/src/dcs.cpp:45-48 | the word of every standard code reads as that code at its start |
| DcsClasses.ClassesDisjoint | kiosk/native/src/dcs.cpp:20-22 | the 104 on-air classes are disjoint: no window is two codes |
| DcsClasses.LookupIff | kiosk/native/src/dcs.cpp:37-42 | a window looks up to a code if and only if it is that code's word at some bit phase |
| DcsInversion.InvertedClass | kiosk/native/src/dcs.hpp:17-20 | every standard code sent inverted is in exactly one of the 104 classes |
| DcsInversion.InversionPairs | kiosk/native/src/dcs.hpp:17-20 | inversion pairs codes off: if j is what k inverted sounds like, k is what j inverted sounds like |
| DcsInversion.InversionIsOnto | kiosk/native/src/dcs.hpp:17-20 | so the inverted codes take each of the 104 classes exactly once |
| DcsInversion.Published023 | kiosk/native/test/test_dcs.cpp:117-118 | 023 goes on air as the published word 0x763813 |
| DcsInversion.Inverted023 | kiosk/native/src/dcs.hpp:18 | 023 inverted is 047, and the other way round |
| DcsCode.LookupInCode | kiosk/native/src/dcs.cpp:38-42 | a window that looks up is a codeword |
| DcsDetector.Detector.Hear | kiosk/native/src/dcs.cpp:139-157 | one bit as a step of the specification |
| DcsDetector.MemoryIsHistory | kiosk/native/src/dcs.cpp:144-147 | the per-phase arrays hold exactly which class each recent window had and whether it was confirmed one word apart |
| DcsDetector.DetectorIsFold | kiosk/native/src/dcs.cpp:139-157 | after any bits the detector's lock and code are those of a fold over the bit history |
| DcsDetector.LockedIff | kiosk/native/src/dcs.cpp:143-156 | it is locked to a class if and only if that class was the last confirmed and has matched at least every DCS_RELOCK_BITS bits since |
| DcsDetector.CodeIsLocked | kiosk/native/src/dcs.cpp:149-155 | a code is reported only while locked, confirmed and matched by the current window |
| DcsDetector.CodeIsCurrent | kiosk/native/src/dcs.cpp:149-155 | the current 23 bits are then a codeword of that class |
| DcsDetector.CleanBitsLock | kiosk/native/src/dcs.cpp:139-157 | 46 clean bits of a standard code, from any bit phase and after any history, lock exactly that code and report it |
| DcsDetector.InvertedLocks | kiosk/native/src/dcs.cpp:54-58 | 46 clean bits of any standard code sent inverted, from any bit phase and after any history, lock and report the one standard code that sounds the same |
| DcsDetector.LockDies | kiosk/native/src/dcs.cpp:154-155 | a lock outlives a stretch without match or confirmation if and only if it is at most DCS_RELOCK_BITS long |
| Resampling.EightLaneDot | kiosk/native/src/fir.cpp:52-57 | eight partial sums and a tail add up to the dot product |
| Resampling.DoubledRing.Put | kiosk/native/src/fir.cpp:47-58 | the window after a write is the last n inputs, oldest first |
| Resampling.DotIsFir | kiosk/native/src/fir.cpp:40-60 | reversed taps against that window are the convolution |
| Resampling.FirIsConvolution | kiosk/native/src/fir.cpp:46-60 | the convolution is the sum of tap t times the input t samples ago, over all taps |
| Resampling.FirFilter.Step | kiosk/native/src/fir.cpp:46-60 | each output is the convolution of the taps with everything since reset |
| Resampling.PolyTable | kiosk/native/src/resampler.cpp:13-18 | each phase's row is every up-th tap, oldest first, scaled by up |
| Resampling.DotIsTaps | kiosk/native/src/resampler.cpp:27-36 | a phase's dot product is the convolution of the prototype with the zero-stuffed input |
| Resampling.DotIsOutput | kiosk/native/src/resampler.cpp:28-38 | so the dot product at the due phase is output m |
| Resampling.TapsSettled | kiosk/native/src/resampler.cpp:22-44 | later input does not change an output already due |
| Resampling.OutputIsConvolution | kiosk/native/src/resampler.cpp:28-38 | output m is the sum over all taps of up times tap t times the zero-stuffed input at index m times down less t |
| Resampling.Resampler.constructor | kiosk/native/src/resampler.cpp:10-20 | the padded prototype begins with the taps and ends in zeros |
| Resampling.Resampler.Push | kiosk/native/src/resampler.cpp:22-44 | for any split into pushes, output m is the prototype convolved with the zero-stuffed input at index m times down; none is cut off when the buffer holds max_out |
| Resampling.OutputCount | kiosk/native/src/resampler.cpp:28-40 | n inputs from reset give exactly n times up over down outputs, rounded up |
| Resampling.OutputsFit | kiosk/native/src/resampler.hpp:13 | max_out is enough from any phase |
| Resampling.IqInStep | kiosk/native/src/iq_rate.cpp:18-37 | two resamplers at one ratio that have had equally many inputs have made equally many outputs |
| IqRate.IqRateConverter.Push | kiosk/native/src/iq_rate.cpp:18-37 | for any split into pushes, output pair k is output k of the I and of the Q resampler; the two always hold the same count, and none is lost when there is room for max_out |
| IqRate.NearestByte | kiosk/native/src/iq_rate.cpp:12 | the byte written for a value, in range or out of it, is the one whose sample is nearest |
| IqRate.ByteReadsBack | kiosk/native/src/iq_rate.cpp:12-28 | every byte survives being read and written |
| IqRate.Half | kiosk/native/src/iq_rate.cpp:26-29 | sample k is the k-th I or Q byte, 0 read as -1 and 255 as 1, and all between evenly spaced |
| Spsc.RoundPow2 | kiosk/native/src/spsc.hpp:11 | the smallest power of two that is not below n |
| Spsc.CursorsMayWrap | kiosk/native/src/spsc.hpp:26-29 | wrapping cursors give the slots and differences of unbounded ones |
| Spsc.SlotsDiffer | kiosk/native/src/spsc.hpp:62 | cursors less than a capacity apart use different slots |
| Spsc.FillKeeps | kiosk/native/src/spsc.hpp:58-63 | writing a slot, between any steps of the reader, harms no item still to be read |
| Spsc.CopyKeeps | kiosk/native/src/spsc.hpp:66-71 | a slot being read still holds its item |
| Spsc.NothingLostOrReordered | kiosk/native/src/spsc.hpp:54-87 | for every interleaving and staleness, items read are the items accepted in order, each accepted item is read, skipped or still in its slot, and the ring never overfills |
| Spsc.SpscRing.constructor | kiosk/native/src/spsc.hpp:57 | an empty ring of at least the capacity asked for |
| Spsc.SpscRing.Write | kiosk/native/src/spsc.hpp:58-65 | takes exactly what there is room for in the caller's view, and appends it to the queue |
| Spsc.SpscRing.Read | kiosk/native/src/spsc.hpp:66-72 | returns the front of the queue and removes it |
| Spsc.SpscRing.Discard | kiosk/native/src/spsc.hpp:73-78 | removes the front of the queue |
| Speaker.SpeakerPath.ApplyTarget | kiosk/native/src/audio.cpp:44-64 | a fade on a silence edge, a jump otherwise |
| Speaker.SpeakerPath.SetGain | kiosk/native/src/audio.cpp:66-69 | deferred while a source switch is fading |
| Speaker.SpeakerPath.SetSource | kiosk/native/src/audio.cpp:71-81 | a sounding source is faded first, a silent one switched at once |
| Speaker.SpeakerPath.SwitchNow | kiosk/native/src/audio.cpp:83-98 | the wanted source from silence, then the wanted gain |
| Speaker.SpeakerPath.Cut | kiosk/native/src/audio.cpp:100-115 | everything reset, the last sample held |
| Speaker.SpeakerPath.Process | kiosk/native/src/audio.cpp:138-149 | output i is the audio times the i-th gain of the ramp plus the held sample's share |
| Speaker.HeldRunsDown | kiosk/native/src/audio.cpp:110-115 | after a cut the held sample reaches exactly 0 in FADE_SAMPLES equal steps |
| Speaker.JumpIff | kiosk/native/src/audio.cpp:55-69 | set_gain moves the gain at once if and only if it reopens the source that is fading out |
| Speaker.TicksOk | kiosk/native/src/audio.cpp:139-142 | a ramp of any length ends exactly on its target |
| Speaker.GainsSmooth | kiosk/native/src/audio.cpp:138-142 | any run of output gains moves by at most one step of 1/FADE_SAMPLES a sample |
| Speaker.PollOk | kiosk/native/src/engine.cpp:43-48 | a poll at least a fade after the last one never moves the gain at once, and switches lanes only at gain 0 |
| Speaker.CommandOk | kiosk/native/src/engine.cpp:57-72 | nor does a command, at any moment, that changes the gate only along with the source |
| Speaker.SkipMovesBoth | kiosk/native/src/scanner.cpp:298-319 | a skip is such a command |
| Speaker.AlertMovesBoth | kiosk/native/src/scanner.cpp:321-330 | so is an alert |
| Speaker.SpeakerFollows | kiosk/native/src/engine.cpp:43-48 | two fades' worth of outputs after a poll, or after a command that moves the gate only with the source, the path plays the lane it was told to, at the gate it was told |
| EngineClock.Engine.PushU8 | kiosk/native/src/engine.cpp:152-155 | the input is counted, makes exactly the hops and polls its length completes, and the clock lags it by the hop still filling |
| EngineClock.Engine.OnHop | kiosk/native/src/engine.cpp:158-222 | one hop of lane samples, then a poll if and only if another CHUNK_SAMPLES is complete |
| EngineClock.Engine.NoteGap | kiosk/native/src/engine.cpp:135-150 | a gap is counted on the clock at once and spoken as silence; the clock never goes back |
| EngineClock.Engine.SpeakSilence | kiosk/native/src/engine.cpp:118-134 | the remainder is carried from gap to gap |
| EngineClock.Engine.SilenceIsFloor | kiosk/native/src/engine.cpp:118-134 | over every run the silence spoken is the time missed in lane samples, rounded down once |
| EngineClock.Engine.Tune | kiosk/native/src/engine.cpp:75-110 | the clock catches up with the input, and the poll cadence restarts |
| EngineClock.SilentTotal | kiosk/native/src/engine.cpp:126-132 | the runs of silence add up to the whole gap |
| SpeakerRuns.OutsSpaced | kiosk/native/src/engine.cpp:217-221 | seven hops or more make at least 430 outputs, more than a fade, from any resampler phase |
| SpeakerRuns.AssignLeads | kiosk/native/src/scanner.cpp:332-352 | assigning a Close Call between polls leaves the speaker's feed alone |
| SpeakerRuns.NoClicks | kiosk/native/src/audio.cpp:38-42 | after any run of inputs, gaps, polls and commands consecutive gains differ by at most 1/FADE_SAMPLES, and the fed lane changes only at gain exactly 0 |
| SpeakerRuns.EngineNeverClicks | kiosk/native/src/engine.cpp:217-221 | the engine's own sequence of feeds and polls is such a run |
| PngRows.Paeth | kiosk/src/backend/radar/pngIndexed.ts:155-159 | the predictor is one of the three neighbours, and the nearest to their gradient |
| PngRows.FilterUndone | kiosk/src/backend/radar/pngIndexed.ts:142-164 | each of the five filters is undone, for every row and every row above |
| PngRows.FilterEquations | kiosk/src/backend/radar/pngIndexed.ts:142-164 | each pixel of a decoded row is the stored byte plus nothing, the pixel on the left, the one above, half their sum rounded down, or the nearest of left, above and upper left to left + above - upper left, ties in that order; modulo 256, with 0 outside the image |
| PngRows.DecodeMore | kiosk/src/backend/radar/pngIndexed.ts:166-181 | decoding a longer stream goes on from where the shorter one left off, bad filters included |
| PngRows.DecodeEncoded | kiosk/src/backend/radar/pngIndexed.ts:142-181 | any image under any choice of filters decodes to its rows, whatever follows the last wanted one |
| PngRows.CropAt | kiosk/src/backend/radar/pngIndexed.ts:175 | pixel (x, y) of the crop is pixel (x0 + x, y0 + y) of the image |
| PngRows.RowDecoder.Unfilter | kiosk/src/backend/radar/pngIndexed.ts:142-164 | the loop undoes the filter in place, or reports an unknown one |
| PngRows.RowDecoder.Consume | kiosk/src/backend/radar/pngIndexed.ts:166-181 | rows, crop and partial row are a function of all bytes fed, however they were chunked; the error names the row |
| PngRows.RowDecoder.Finish | kiosk/src/backend/radar/pngIndexed.ts:183-202 | the crop if its last row was reached, else the data ended too early |
| PngRows.RowDecoder.CropOfImage | kiosk/src/backend/radar/pngIndexed.ts:127-181 | fed any image's scanlines in any chunks, with anything after them, the decoder has exactly the window's pixels |
| PngChunks.NumberReadsBack | kiosk/src/backend/radar/pngIndexed.ts:61 | a big-endian length reads back |
| PngChunks.HeaderAccepted | kiosk/src/backend/radar/pngIndexed.ts:92-103 | a header is accepted if and only if it says 8-bit indexed, not interlaced, a width and height other than 0, and the window asked for lies inside |
| PngChunks.SignatureFault | kiosk/src/backend/radar/pngIndexed.ts:57-59 | a stream that begins with eight other bytes than the signature is refused after them |
| PngChunks.FirstChunkFaults | kiosk/src/backend/radar/pngIndexed.ts:60-69 | what a first chunk's length and type lead to: a bad header length and image data before any header are errors |
| PngChunks.PieceIsBytes | kiosk/src/backend/radar/pngIndexed.ts:41-55 | taking a run of bytes within one piece at once is taking them one by one |
| PngChunks.RunSplit | kiosk/src/backend/radar/pngIndexed.ts:39-76 | the reader's state is a function of the byte stream, however it arrives |
| PngChunks.ChunkRuns | kiosk/src/backend/radar/pngIndexed.ts:60-75 | an image-data chunk is passed on whole and any other is skipped whole |
| PngChunks.OpeningRuns | kiosk/src/backend/radar/pngIndexed.ts:57-71 | signature and header are accepted, or the header's fault reported |
| PngChunks.FileRuns | kiosk/src/backend/radar/pngIndexed.ts:27-83 | for any layout of the image data over chunks, with others between them, exactly the image data reaches the inflater, and nothing after the end chunk matters |
| PngChunks.ImageComesBack | kiosk/src/backend/radar/pngIndexed.ts:27-181 | both layers together: a file of any image, any filters, any chunk layout and any inflater that undoes the deflation, gives the image's rows down to the crop's last |
| PngChunks.ChunkReader.TurnPiece | kiosk/src/backend/radar/pngIndexed.ts:57-75 | the transition at the end of a piece, with its four errors |
| PngChunks.ChunkReader.Part | kiosk/src/backend/radar/pngIndexed.ts:39-76 | one arriving part of any size moves the reader as its bytes do one by one |
| FdPump.Pump.Adopt | kiosk/native/src/outputs.cpp:102-107 | a new pipe starts with no carried byte |
| FdPump.Pump.Send | kiosk/native/src/outputs.cpp:118-136 | what was accepted is a prefix of the buffer, in order, through partial and interrupted writes |
| FdPump.Pump.PumpChunk | kiosk/native/src/outputs.cpp:108-136 | bytes sent plus the carried byte plus twice the samples dropped are twice the samples read, even offsets stay low bytes, and the stream is torn exactly when an odd rest of more than one byte was abandoned |
| FdPump.EvenCut | kiosk/native/src/outputs.cpp:128-130 | a chunk abandoned on a sample boundary loses whole samples only |
| FdPump.OddCut | kiosk/native/src/outputs.cpp:128-130 | abandoned inside a sample it stays aligned, but joins two samples' halves unless one byte was left |
| FdPump.TornSample | kiosk/native/src/outputs.cpp:124-131 | two samples, one byte accepted, the rest refused: the reader's first sample has two samples' halves |
| FdPump.TrueSamples | kiosk/native/src/outputs.cpp:124-131 | every even offset is a low byte; some pair is not one sample if and only if such a rest was ever abandoned |
| Preroll.TailOfTail | kiosk/src/backend/ccRecorder.ts:83-93 | what was forgotten stays irrelevant: the newest bytes of the ring and a chunk are those of all bytes and the chunk |
| Preroll.PrerollRing.Write | kiosk/src/backend/ccRecorder.ts:83-93 | after a write the ring holds the newest bytes of everything written since it was cleared, up to its capacity |
| Preroll.PrerollRing.Read | kiosk/src/backend/ccRecorder.ts:96-102 | the newest bytes written since the clear, oldest first, across the seam |
| Preroll.PrerollRing.Clear | kiosk/src/backend/ccRecorder.ts:104-107 | empties the ring |
| CcRecording.CapKept | kiosk/src/backend/ccRecorder.ts:197-201 | a chunk leaves a clip within its cap if and only if it was within it; otherwise by how much it grows |
| CcRecording.TakenFront | kiosk/src/backend/ccRecorder.ts:198-201 | a clip within its cap takes the chunk whole if it fits, else the chunk's first bytes up to the whole bytes of the cap; a clip over it takes all but the last whole bytes it is over by, or nothing |
| CcRecording.CapIff | kiosk/src/backend/ccRecorder.ts:197-206 | for the lengths read during a clip, every possible clip ends within the last of them if and only if the most it can have held by then is within it |
| CcRecording.NotLowered | kiosk/src/backend/ccRecorder.ts:197-206 | unless the length was lowered at the end the excess is under a byte, and nothing once a second chunk has come or if the first cap is whole |
| CcRecording.LoweredCap | kiosk/src/backend/ccRecorder.ts:197-206 | a concrete clip of 2.6 seconds after the length was lowered from three seconds to one |
| CcRecording.FractionalCap | kiosk/src/backend/ccRecorder.ts:235-240 | a concrete seed above a cap that was never changed |
| CcRecording.PartialByteWaits | kiosk/src/backend/ccRecorder.ts:197-206 | with a cap that is not a whole number of bytes, a clip with room for less than one takes nothing and never reaches the cap |
| CcRecording.SeedIsFresh | kiosk/src/backend/ccRecorder.ts:232-240 | a seed holds at most a quarter second of anything but the silence right before the clip |
| CcRecording.WriteKeepsFresh | kiosk/src/backend/ccRecorder.ts:190-195 | the unowned count never exceeds what arrived in this silence, and all of it was unowned |
| CcRecording.CcRecorder.OnPcm | kiosk/src/backend/ccRecorder.ts:178-207 | audio goes to the ring, or to the clip of the lane that owns the speaker: whole while it stays below the cap; up to exactly a whole-byte cap, when the clip is queued and the flap window starts; short of a fractional cap, when the clip goes on |
| CcRecording.CcRecorder.OnAudible | kiosk/src/backend/ccRecorder.ts:209-241 | a change of owner queues the clip; a new one starts if and only if the owner is a recordable Close Call outside the flap window, with exactly the clamped end of the ring |
| CcRecording.CcRecorder.Reset | kiosk/src/backend/ccRecorder.ts:257-264 | the clip so far is queued and everything else forgotten |
| CcRecording.CcRecorder.Flush | kiosk/src/backend/ccRecorder.ts:268-284 | a clip shorter than the minimum is thrown away, any other queued in order |
| CcRecording.ClipsAreOwn | kiosk/src/backend/ccRecorder.ts:178-284 | every queued clip is long enough and its own: pre-roll from before its span, at most the ring's length and at most a quarter second of it anything but the silence right before, then only bytes of its span that its lane was heard on |
| CcRecording.HardlyForeign | kiosk/src/backend/ccRecorder.ts:178-284 | so at most a quarter second of any queued clip was heard while any other lane owned the speaker |
| CcRecording.ClipsKeepTheCap | kiosk/src/backend/ccRecorder.ts:178-284 | every queued clip is as long as its chunks and lengths make it: within the last cap read whenever those lengths keep it, and less than a byte over unless the length was lowered at the end |
| Family.Edges | kiosk/src/backend/config/family.ts:83-85 | the sorted points are exactly the table's edges |
| Family.FirstAllocation | kiosk/src/backend/config/family.ts:28-31 | the first entry that contains a frequency gives its service, and a frequency in no entry has none |
| Family.SameInside | kiosk/src/backend/config/family.ts:77-81 | nothing changes between two edges |
| Family.CcAudibleRanges | kiosk/src/backend/config/family.ts:82-96 | for any table and families a frequency is in some range if and only if its family is listed or is weather; the ranges are in order, disjoint and cannot be merged |
| Family.BothSidesAgree | kiosk/src/backend/engine/WidebandEngine.ts:869-872 | Node's test and the helper's agree on every frequency, and with the list |

## Left out

- txstat, rf, tone-report, power and noise events, and the JSON that carries all events: instrumentation that decides nothing (the bit that gates the tone memory is kept).
- ScannerClass.Scanner.DoPollLane: tone reports and episode statistics are not modelled.
- ScannerClass.Scanner.DoPoll: tone reports and episode statistics are not modelled.
- ScannerClass.Scanner.DoTune: the txstat event of an episode the tune cuts is not modelled.
- The text of lane ids: a Close Call id is its own constructor, so a configured channel whose id begins with `cc_` is not modelled.
- isAudibleNow deletes an expired alert as it looks; the model leaves the entry, which answers the same.
- audibleId, helper spawn, respawn and watchdogs, and the events to the user interface.
- HopScheduler.WidebandEngine.OnTick: the effective dwell is an input, because the activity weighting uses powers of two of measured rates.
- OpenSetRuns.OpenSetIsTrue: one helper process that does not crash; channel ids are distinct within a tune.
- SpyServer.SpyServerSource.OnIq: the converter's output and its reset at a retune are parameters; the converter itself is in IqRate.
- The DCS bit clock, low-pass filter and DC removal, and the text forms of codes.
- Resampling.PolyTable: one row per phase instead of one flat array; taps are arbitrary reals, their design is not modelled, nor is float rounding.
- Spsc.RoundPow2: capacities are unbounded, so doubling past the largest word is not modelled; memory orders are taken to make loads monotone, as acquire and release do.
- Speaker.SpeakerPath.Process: demodulators, filters, AGC and limiter are not modelled; the limiter's output is a parameter.
- EngineClock.Engine.PushU8: what a hop computes is not modelled, only that it happens.
- EngineClock.Engine.OnHop: lane metering and demodulation of the hop are not modelled.
- zlib: the inflater is any function from the image data passed on to the scanlines fed in; stopping the download early, once settled, is the caller ceasing to feed.
- FdPump.Pump.PumpChunk: opening, closing and ownership of descriptors, and the once-per-pipe log line.
- CcRecording.CcRecorder.Flush: decimation, the WAV header, the deferred writes and the store.
- lightning, the activity tracker, ALSA, multimon, device plumbing, HTTP, configuration and the front end.
