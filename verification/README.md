# Verified model of the Dante Babelbox bridge

The bridge joins audio devices of different makers: it forwards property changes between objects that are
mapped to each other, keeps a follower desk's digital trim moving against the leader desk's preamp gain, and
talks to devices in a handful of wire protocols. This project models the parts of it that hold state or
carry an invariant, and proves what they promise.

Every `.dfy` file is checked together with the others: `dafny verify dfyconfig.toml`.

## What is modelled

**The gain lock.** `Law` is the dB grid arithmetic of a control, `X32` the adapter that makes a relative
trim move of a read, the law and a write. `GainTable` holds the engine's records and the desks it talks to;
a desk is its law and the grid index each trim stands at, and a move it does not answer is one it did not
make. `GainSpec` gives each engine operation as a function on the whole state, and `GainEngine` is the
engine itself - a class with the original's fields, loops and nondeterministic order of completion - each of
whose methods is proved to compute that function. The laws are proved about the functions, and so hold of
the class: `GainSettle` (one round of moves), `GainRun` (the invariant of every run), `GainLaws`
(conservation on a lattice), `GainShipped` (the shipped desks are on one), `GainLedger` (conservation over
the reals, every loss accounted for), `GainPaths` (where settled trims are), `GainEffects`, `GainResolve`
and `GainHearing` (what every operation does to every field, spelled out without those functions),
`GainBursts` and `GainOneByOne` (coalescing and catching up), `GainEcho` (one signal's queue of echoes),
`GainOwnEchoes`, `GainSharedPreamps`, `GainSharedExample` and `GainForgetting` (the engine's own echoes in
whole runs), `GainElection` (what a new leader inherits), `GainConfig` (the table the engine starts from).

The books of a follower agree with its desk relative to `base`, the grid point its engineer has its trim at:
where it stood at the lock, carried along by every move made at the desk's own surface since. Decibel values
are reals. A run is any list of `GainRun.Step`s; who answers, what is read and when a report comes are
parameters of each step, so the theorems are about every such choice.

**The Router.** `RouterNet` is echo suppression as a concurrent protocol: one listener per device, each
lock-protected piece of handling an event one atomic step, sets that may fail or be confirmed any number of
times. `RouterCycles` settles which mapping tables it brings to rest. `Router` is the object with its
mapping table, proved to take those steps.

**OCP.1 (AES70-3).** `Ocp1Value` marshals the base types, `Ocp1Pdu` frames and decodes messages,
`Ocp1Layout` says where every field is on the wire, `Ocp1Client` reads a connection and dispatches,
`Ocp1Correlation` is requests in flight as a protocol, `Ocp1Members` parses the two forms of a member list,
`Ocp1Enumerate` and `Ocp1Walker` walk a device's object graph, and `Ocp1Truth` is that walk from the
replies' octets. `Framing` is incremental parsing in general, shared with the MIDI parsers.

**Other wire formats.** `AcnPdu`, `AcnDmp`, `AcnDatagram` and `AcnOctets` (ANSI E1.17 PDU blocks and the
properties in them), `Midi`, `MidiStandard`, `MidiParsers` and `Dlive` (the dLive and AHM byte streams, and
dLive's cache), `Aphex` (the 1788A's SysEx).

## Where the code and its documentation part

The model follows the code. Each of these is a theorem, with the exact condition:

- The engine's own echoes can be taken for moves, in two ways. Its expectations are kept per signal, but every
  signal on an object hears every report of it, and a table with two signals on one leader preamp validates:
  two signals lock at 30 dB, one is set to 33, and the two readings reported back undo the set
  (`GainSharedExample.EchoUndoesSet`). And an election, or a lock while the leader is unplugged, makes a signal
  forget what it expects unless it finds the same preamp number and object number
  (`GainForgetting.ElectForgetsIff`, `AwayAndBackForgetsIff`, `LockForgetsIff`): read one desk, elect another
  and the first again, and the reading reported back is a move, even where the numbers agree
  (`GainForgetting.ElectingAwayMoves`, `ElectionUndoesReading`). Call a run patient if nothing of that second
  kind - a change of leader, or a lock or an election with the leader to be unplugged - comes within the echo
  lifetime of the last lock, poll or set. In patient runs own echoes, in order and in time, never move anything
  exactly if no two signals are on one preamp object of any desk (`GainSharedPreamps.EchoesHarmlessIff`); in
  all runs, exactly if no signal is on any (`GainForgetting.PatienceNeededIff`).
- The gain lock's "always" of conservation holds exactly if the moves ignored as too small and the residues
  written off balance (`GainLedger.ConservedIff`); each costs less than EPSILON and nothing else costs
  anything (`GainLedger.ConservationIsExact`), but small moves ignored one after the other add up without
  limit (`GainLedger.DriftIsUnbounded`). On a lattice no finer than EPSILON, which the shipped desks are on,
  there is nothing to lose (`GainLaws.ConservationOnLattice`, `GainShipped.ShippedDesksAreFine`).
- "Nothing the old leader reported carries over" an election unless the new leader's preamp has the same
  number and object number; the desk is not compared (`GainElection.NothingCarriesIff`). If it then cannot
  be read, the lock arms on the old desk's gain (`GainElection.UnreadLeaderArmsIff`).
- A retry probes the first follower found on a desk; if that one has no object the desk is never probed,
  whatever the others are owed (`GainBursts.RetryReachesIff`, `GainBursts.StrandedDesk`).
- The Router's rule stops an echo of one value. With several values in flight a mapping table is sure to
  come to rest, from every state, exactly if no address leads back to itself by way of another
  (`RouterCycles.TableEndsIff`); so two linked objects on different devices that report different values can
  swap them for ever, whatever was known of them before (`RouterCycles.PairEndsIff`). A failed set leaves the
  map saying the peer holds the value (`RouterNet.HeldIffNotFailed`).
- Size fields are casts: a command, response or blob too long for its field is sent with the wrong size
  (`Ocp1Pdu.CommandRoundTripIff`, `Ocp1Value.BytesRoundTripIff`). Two heartbeats in one PDU look like
  milliseconds (`Ocp1Pdu.KeepalivesRoundTripIff`), and milliseconds from 65536 s up wrap
  (`Ocp1Pdu.MillisecondsRead`).
- A stream that stops making sense ends the reader without waking the requests still waiting; they time
  out (`Ocp1Client.Client.ReadLoop`).
- A status byte that starts no message leaves dLive's running status standing, where MIDI 1.0 has a System
  Common message cancel it, and data bytes after it are read as channel messages. The two readings agree exactly
  if the byte is a System Real Time one; or no channel status is running; or the data is too short for a
  message of the running status and nothing follows it, or there is no data and what follows states its status
  (`MidiStandard.StrayMessageReadIff`).
- A PDU without data does not inherit the data of the one before it, where E1.17 says it does. A block
  written by the standard walks to the PDUs meant exactly if every PDU whose data is left out has none
  (`AcnPdu.StandardBlockIff`); `AcnPdu.InheritedDataIsLost` is one that does not.

## Model

| member | source | states |
|---|---|---|
| Law.QuantizeNearest | crates/core/src/law.rs:26-44 | The value a control is set to lies in range and on the grid, and within half a step of the value asked for (clamped to the range). |
| Law.NudgeBounds | crates/core/src/law.rs:51-55 | On a range that is a whole number of steps a move lands on the grid and in range, reports exactly the change from the quantized start, and differs from the move asked for by at most half a step unless pinned at a limit. |
| Law.ShortcutAgrees | crates/core/src/law.rs:57-62 | `moves` says no only for moves the full arithmetic would round away from every on-grid value. |
| Law.MovesGoSomewhere | crates/core/src/law.rs:57-62 | It says yes for every move of more than half a step, and such a move leaves any on-grid value not already at that end. |
| Law.HalvesGoUp | crates/core/src/law.rs:30-37 | Between two grid points half a step or more rounds to the upper, anything less to the lower. |
| Law.UnitRoundTrip | crates/core/src/law.rs:64-73 | `from_unit` recovers the quantized value from any unit value off by less than half a step's share of the range. |
| Law.UnitScale | crates/core/src/law.rs:64-73 | Unit values run from 0 for the least value to 1 for the greatest, in proportion, both ways. |
| Law.ShippedLawsAreWhole | crates/preamp-adapter-osc/src/x32.rs:62 | The X32's and the Wing's trim ranges are a whole number of steps, so the laws above apply to them. |
| X32.Adapter.NudgeTrim | crates/preamp-adapter-osc/src/x32.rs:253-264 | A relative trim move that succeeds leaves the console where the law's nudge from its true position lands and reports exactly the change made; one that fails leaves the console where it was. |
| X32.Adapter.GetTrim | crates/preamp-adapter-osc/src/x32.rs:230-244 | A trim is always read from the console: the cached value is dropped first, and a reply is the console's own grid value. |
| X32.Adapter.SetTrim | crates/preamp-adapter-osc/src/x32.rs:246-251 | A write puts the console on the grid point the value rounds to and caches that value; a failed one changes neither. |
| X32.MoveLands | crates/preamp-adapter-osc/src/x32.rs:253-264 | The adapter's read-modify-write is the law's move on grid indices, and its shortcut never skips a move that would land elsewhere. |
| X32.WrittenIsNearest | crates/preamp-adapter-osc/src/x32.rs:246-251 | What goes over the wire as a unit value arrives as the grid point the value in dB rounds to. |
| X32.TruthfulRead | crates/preamp-adapter-osc/src/x32.rs:399-405 | A unit float off by less than half a step's share is read as the console's own grid point. |
| GainConfig.Validate | crates/core/src/gain_lock.rs:117-159 | Accepts a table exactly if the leader and every member are configured devices, names are unique, every member has a preamp or an input, no two members share a trim and every signal has a preamp on the leader; an error names a defect that is there. |
| GainConfig.CheckMembers | crates/core/src/gain_lock.rs:128-150 | One signal's members: an error is a real defect, and without one the trims taken so far are exactly those of the signals checked. |
| GainConfig.CheckedEngineStartsSound | crates/core/src/gain_lock.rs:283-300 | An engine built from a validated table starts in a state from which all the whole-run theorems hold. |
| GainEngine.Rack.NudgeObject | crates/core/src/gain_lock.rs:649-655 | A desk that answers moves one trim by its own arithmetic and reports the change; one that does not answer moves nothing. |
| GainEngine.GainLock.constructor | crates/core/src/gain_lock.rs:283-300 | A new engine is unlocked, with its table resolved against the desks there are. |
| GainEngine.GainLock.Lock | crates/core/src/gain_lock.rs:344-376 | Locking resolves, forgets what is down, clears every follower's books and takes each gain read (or failing that the last one known) as the reference. |
| GainEngine.LockSignal | crates/core/src/gain_lock.rs:350-372 | One signal's share of a lock, reading or not. |
| GainEngine.GainLock.Unlock | crates/core/src/gain_lock.rs:379-384 | Unlocking changes nothing but the lock. |
| GainEngine.GainLock.SetLeader | crates/core/src/gain_lock.rs:389-402 | An election is refused while locked or for a desk with no preamp, and otherwise resolves for the new leader. |
| GainEngine.GainLock.SetPreamp | crates/core/src/gain_lock.rs:408-420 | A preamp set that is accepted is expected back and observed at once; one that is refused changes nothing. |
| GainEngine.GainLock.OnEvents | crates/core/src/gain_lock.rs:436-457 | A batch of reports settles every signal's expectations in order and observes the last genuine gain of each signal, in the order signals were first heard from. |
| GainEngine.GainLock.Hear | crates/core/src/gain_lock.rs:444-452 | One report heard by every signal that shares its object. |
| GainEngine.GainLock.IsExpected | crates/core/src/gain_lock.rs:233-246 | Expired expectations go; the first match takes itself and everything older with it; no match clears them. |
| GainEngine.Retain | crates/core/src/gain_lock.rs:234 | The expectations kept are those younger than the echo lifetime, in order. |
| GainEngine.FirstMatch | crates/core/src/gain_lock.rs:235 | The match is the first expectation within EPSILON of the gain. |
| GainEngine.GainLock.Observe | crates/core/src/gain_lock.rs:460-486 | Every gain learnt goes through it and leaves what the function `Observe` says; what that is in each case, locked or not, is `GainEffects.UnlockedObserves`, `FirstGainArms`, `SmallMoveIsNoted` and `MoveIsCompensated`. |
| GainEngine.GainLock.ChargeFollowers | crates/core/src/gain_lock.rs:482-484 | Every follower of one signal owes the opposite of the leader's move; no other row changes. |
| GainEngine.GainLock.ReadLeader | crates/core/src/gain_lock.rs:488-502 | A poll reads each signal in turn, and each reading is expected back and observed before the next. |
| GainEngine.GainLock.RetryFailed | crates/core/src/gain_lock.rs:507-542 | A retry probes the first follower of each desk that is down and settles every follower on the desks that answer. |
| GainEngine.GainLock.Recovered | crates/core/src/gain_lock.rs:531-541 | Desks found answering leave the down set and every follower on them is offered what it is owed. |
| GainEngine.GainLock.ResolveTable | crates/core/src/gain_lock.rs:561-622 | The live table is rebuilt signal by signal for the current leader. |
| GainEngine.GainLock.ResolveSignal | crates/core/src/gain_lock.rs:567-620 | One signal's row; what is in it is `GainResolve.ResolvedRow` and `ResolvedFollowers`. |
| GainEngine.GainLock.Settle | crates/core/src/gain_lock.rs:629-678 | Moves sent in one pass and finished in any order leave the state one simultaneous round of moves describes. |
| GainEngine.GainLock.Offering | crates/core/src/gain_lock.rs:632-656 | Moves go out for exactly the followers that owe enough, resolve to an object and are on a connected desk not marked down. |
| GainEngine.GainLock.Join | crates/core/src/gain_lock.rs:657-677 | One move coming back, whichever it is, extends the round by its trim: booked if it was made, its desk marked down if not. |
| GainSettle.LandingIsAim | crates/core/src/gain_lock.rs:657-667 | Where a desk would put a trim depends only on where its engineer had it and on the whole amount asked of it so far, not on the moves in between. |
| GainSettle.RestedIffAimed | crates/core/src/gain_lock.rs:661-667 | A follower has nothing left to take exactly when its trim is where the whole amount asked so far lands. |
| GainSettle.TakenMove | crates/core/src/gain_lock.rs:661-668 | After a move that was made the books still agree with the desk, a residue under EPSILON is all that can be written off, and the trim rests. |
| GainSettle.SettleLeavesAlone | crates/core/src/gain_lock.rs:633-646 | No trim on a desk marked down, no trim of the leader's and no trim out of scope is ever moved. |
| GainEffects.SettleIsRound | crates/core/src/gain_lock.rs:629-678 | A round of moves in full: a move of at least 0.0001 dB goes out exactly to followers with an object, on connected desks not marked down; where it is made the trim goes to the grid point asked for, the change is applied and no longer owed, and a rest under 0.0001 dB is written off; where it is not the desk is down; nothing else changes. |
| GainEffects.UnlockedObserves | crates/core/src/gain_lock.rs:463-466 | Not locked, a gain learnt is the row's gain from then on, and that is the whole change. |
| GainEffects.FirstGainArms | crates/core/src/gain_lock.rs:467-476 | Locked without a gain or a reference, the gain learnt becomes both, and that is the whole change. |
| GainEffects.SmallMoveIsNoted | crates/core/src/gain_lock.rs:477-480 | Locked and armed, a gain under 0.0001 dB from the last is noted, and that is the whole change. |
| GainEffects.MoveIsCompensated | crates/core/src/gain_lock.rs:477-486 | Locked and armed, any other gain is charged to every follower of its signal in full, and one round of moves goes out to them. |
| GainEffects.UnlockedStepLearns | crates/core/src/gain_lock.rs:463-466 | Not locked, sets, reports, polls and retries change nothing but gains known and reports expected. |
| GainEffects.UnlockedStepMovesNothing | crates/core/src/gain_lock.rs:463-466 | Not locked, no operation of the engine moves a trim; none but a lock marks a desk or forgets one marked; none but a lock or an election touches a follower or a reference. |
| GainEffects.UnlockedRunMovesNothing | crates/core/src/gain_lock.rs:379-384 | In every run without a lock each trim is where its own desk's engineer put it, and without an election every follower is as it was. |
| GainResolve.ResolvedRow | crates/core/src/gain_lock.rs:567-620 | A rebuilt row: the preamp of the first member on the leader's desk, its object if that desk is connected and has it; gain, reference and expectations exactly those of the row of that name if number and object are the same, and none otherwise. |
| GainResolve.ResolvedFollowers | crates/core/src/gain_lock.rs:583-605 | Its followers: one for every member not on the leader that has an input, in member order and no more, each at the object its connected desk has for that input, with what the first of the old followers on that trim had applied and owed, or nothing. |
| GainResolve.LockedRow | crates/core/src/gain_lock.rs:344-376 | A lock leaves every row of the rebuilt table with cleared books, the gain read or failing that the last one known as reference, and the reading alone to hear back; no desk is down and no trim has moved. |
| GainResolve.ElectionIs | crates/core/src/gain_lock.rs:389-402 | An election is refused exactly while locked or for a desk that is no signal's preamp; otherwise it changes the leader and rebuilds the table. |
| GainResolve.ProbesAre | crates/core/src/gain_lock.rs:514-522 | A retry reads exactly the desks down whose first follower, row by row, has an object. |
| GainResolve.RecoveryIsRound | crates/core/src/gain_lock.rs:531-541 | Locked, the desks that answered are no longer down and one round goes out to every follower on them; unlocked meanwhile, nothing happens. |
| GainResolve.RetryIsRound | crates/core/src/gain_lock.rs:507-542 | A retry brings back exactly the desks down that it reads and that answer, and one round goes out to every follower on them; unlocked, or with none of them back, nothing changes. |
| GainHearing.HeardIs | crates/core/src/gain_lock.rs:233-246 | A report is an echo exactly if something expected under 2 s ago is within 0.0001 dB of it; then the first such expectation goes, with all before it and all that are older, and otherwise everything expected does. |
| GainHearing.BatchHeard | crates/core/src/gain_lock.rs:436-453 | A batch, heard: each signal settles its own expectations against the reports of its own object on the leader, and the gain noted for it is its last that was no echo; signals are noted once, in the order first heard from. |
| GainHearing.EventsAre | crates/core/src/gain_lock.rs:436-457 | After a batch each signal expects and knows what that makes of it, and nothing else is different but followers' books, trims and desks found down. |
| GainHearing.ObserveAllAppend | crates/core/src/gain_lock.rs:454-456 | The gains noted are observed in order, the last of them last. |
| GainHearing.PollIs | crates/core/src/gain_lock.rs:488-502 | After a poll exactly the signals with an object that were read know their reading and expect it once more. |
| GainHearing.PollInOrder | crates/core/src/gain_lock.rs:488-502 | A poll takes the signals in table order: one more reading is one more signal observed, after the rest. |
| GainHearing.SetIs | crates/core/src/gain_lock.rs:408-420 | A set is for the first signal of that name and refused without one, without an object, without the leader connected or by the desk; otherwise it is expected back and observed. |
| GainSettle.Confluent | crates/core/src/gain_lock.rs:657-677 | The books, the trims and the desks marked down after a round do not depend on the order in which its moves finish. |
| GainSettle.OneMoreMove | crates/core/src/gain_lock.rs:657-677 | One more move finishing is one more trim in scope of the round. |
| GainSettle.FinishInOrder | crates/core/src/gain_lock.rs:657-677 | Finishing the rest of a round in any order completes it. |
| GainRun.StepInv | crates/core/src/gain_lock.rs:20-26 | Every operation - lock, unlock, election, set, reports, poll, recovery, a move at a desk's own surface, desks coming and going - keeps the books in step with the desks. |
| GainRun.RunInv | crates/core/src/gain_lock.rs:20-26 | So does every run of them. |
| GainRun.SettleInv | crates/core/src/gain_lock.rs:629-678 | A round of moves, whoever answers, keeps one source per trim and each follower's `applied` equal to how far its trim is from its engineer's setting. |
| GainRun.LockInv | crates/core/src/gain_lock.rs:344-376 | A lock starts the books from where every trim then stands. |
| GainRun.ResolveSane | crates/core/src/gain_lock.rs:583-605 | A table that validates resolves to rows no two of whose followers share a trim, none of them on the leader. |
| GainLaws.StepConserves | crates/core/src/gain_lock.rs:20-26 | On a lattice no finer than EPSILON no operation - lock, set, poll, batch of reports, recovery, a hand on a desk - changes `applied + owed` by anything but minus the leader's move. |
| GainLaws.RunConserves | crates/core/src/gain_lock.rs:20-26 | Nor does any run of them. |
| GainLaws.ConservationOnLattice | crates/core/src/gain_lock.rs:20-26 | Conservation, exactly: with gains and steps on a common lattice no finer than EPSILON, after every run `applied + owed == -(gain - reference)` for every follower of an armed signal. |
| GainLedger.StepExact | crates/core/src/gain_lock.rs:476-480 | Over all reals: a step changes a follower's `applied + owed`, beyond minus the leader's move, by exactly its signal's moves ignored less its own residues written off. |
| GainLedger.RunExact | crates/core/src/gain_lock.rs:476-480 | So does a run, and a lock starts the count again. |
| GainLedger.ConservationIsExact | crates/core/src/gain_lock.rs:476-480 | After every run `applied + owed` is minus the leader's move since the lock, plus the moves ignored, less the residues written off, each of those under EPSILON. |
| GainLedger.ConservedIff | crates/core/src/gain_lock.rs:20-26 | The law as documented holds after a run exactly if what was ignored and what was written off balance. |
| GainLedger.ConservationWithinDrift | crates/core/src/gain_lock.rs:664-667 | It is off by at most EPSILON for each move ignored and each residue written off since the lock, and by nothing else. |
| GainLedger.DriftIsUnbounded | crates/core/src/gain_lock.rs:476-480 | For every number there is a run after which it is off by that many half EPSILONs: the leader creeps and the follower never moves. |
| GainShipped.ShippedDesksAreFine | crates/preamp-adapter-ah/src/dlive.rs:146-154 | A dLive's gains and the trim steps of X32s and Wings, in any mix, are whole numbers of 1/2540 dB, which is no finer than EPSILON: for them conservation is exact. |
| GainPaths.RunRests | crates/core/src/gain_lock.rs:629-678 | With no hand on a desk and none unplugged, while locked every follower either has nothing left to take or is on a desk marked down, in every run. |
| GainPaths.SettledIsOnTarget | crates/core/src/gain_lock.rs:460-486 | A settled follower's trim is the grid point nearest its engineer's setting less the leader's move, and only such a follower is settled. |
| GainPaths.PathIndependence | crates/core/src/gain_lock.rs:460-486 | After any sequence of reports, sets, polls, clamps, outages and retries with no hand on a desk, a follower's trim is that same grid point unless its desk is down: a function of the leader's gain now, not of the way there. |
| GainPaths.SettledAfterAnyRun | crates/core/src/gain_lock.rs:20-26 | After any run at all, moves by hand and desks unplugged included, a follower has nothing left to take exactly when its trim is at that grid point. |
| GainPaths.ReturnsHome | crates/core/src/gain_lock.rs:20-26 | Back at its reference, every settled trim is back at its engineer's setting with nothing applied and nothing owed. |
| GainPaths.RoundingNeverAccumulates | crates/core/src/gain_lock.rs:20-26 | However many moves were made, a settled trim is within half a step of exact compensation (or pinned at the limit nearest it). |
| GainBursts.OnlyTheLastCounts | crates/core/src/gain_lock.rs:315-325 | Two bursts of reports with the same last gain for every signal leave the same gains, books and trims (which desks were found down on the way may differ). |
| GainBursts.CoalescingRefines | crates/core/src/gain_lock.rs:436-457 | Acting only on the last genuine report of a batch comes to the same gains, books and trims as observing each of them in turn. |
| GainOneByOne.OneByOneIsEach | crates/core/src/gain_lock.rs:436-457 | Reports delivered one batch each come to exactly the state of hearing them all first and then observing the genuine ones in turn: hearing and observing commute. |
| GainOneByOne.BatchIsOneByOne | crates/core/src/gain_lock.rs:315-325 | So a batch, coalesced, leaves the gains, books and trims that its reports leave when delivered one by one. |
| GainBursts.SameGainSameTrim | crates/core/src/gain_lock.rs:460-486 | The same gain, reference and engineer's setting give the same trim and the same books. |
| GainBursts.RecoveredIsUp | crates/core/src/gain_lock.rs:531-541 | A desk that answers a retry and takes its moves is no longer down. |
| GainBursts.OutageMadeGood | crates/core/src/gain_lock.rs:507-542 | A desk that was down for any run ends, after one successful recovery, with the trim and the books of a desk that never failed. |
| GainBursts.RetryReachesIff | crates/core/src/gain_lock.rs:516-518 | A retry brings back a desk that answers exactly if the first follower found on it has an object to read. |
| GainBursts.StrandedDesk | crates/core/src/gain_lock.rs:516-518 | A table in which it does not: another follower on the desk is owed 3 dB, the desk answers, and the retry leaves everything as it was. |
| GainElection.NothingCarriesIff | crates/core/src/gain_lock.rs:607-618 | What the old leader reported is forgotten at an election exactly if the new leader's preamp has another number or object number (or nothing was known). |
| GainElection.UnreadLeaderArmsIff | crates/core/src/gain_lock.rs:358-371 | Locking on a new leader that cannot be read arms a signal - on a gain only the old leader had - exactly if the two preamps look the same and that gain was known. |
| GainElection.ResolveAgain | crates/core/src/gain_lock.rs:607-618 | Resolving again for the same leader keeps what each row knows. |
| GainEcho.GreedyMatch | crates/core/src/gain_lock.rs:235-239 | Taking the first match and dropping everything older leaves all the later echoes still expected. |
| GainEcho.EchoSwallowed | crates/core/src/gain_lock.rs:233-246 | The next echo to come is swallowed if it comes within the echo lifetime. |
| GainEcho.EchoesAreSwallowed | crates/core/src/gain_lock.rs:226-247 | For one signal's queue: for any sequence of its own reads and sets, any subset of which is reported back in order and in time, every echo is swallowed. |
| GainOwnEchoes.StepAwaiting | crates/core/src/gain_lock.rs:436-457 | The invariant of patient runs, if no two signals are on one object: what is still to be reported of each object in time is expected by the row on it, in order, and of any other object nothing is. Every operation keeps it, if a change of leader, or a lock or an election with the leader to be unplugged, waits out the echo lifetime after the last lock, poll or set. |
| GainOwnEchoes.OwnEchoesMoveNothing | crates/core/src/gain_lock.rs:226-247 | In every patient run whose reports are the engine's own reads and sets, in order and in time, no batch of reports changes anything but expectations, if no two signals are on one preamp object. |
| GainOwnEchoes.RunKeepsRows | crates/core/src/gain_lock.rs:561-622 | In every run there is one row per signal, in order, each on its own preamp's object or on none. |
| GainForgetting.LockForgetsIff | crates/core/src/gain_lock.rs:607-618 | After a lock the echo of something caused before it is still recognised exactly if the row found the object it had (or the lock's own reading matches). |
| GainForgetting.ElectForgetsIff | crates/core/src/gain_lock.rs:389-402 | After an election it is still recognised exactly if the new leader's preamp has the number and the object number the row had. |
| GainForgetting.AwayAndBackForgetsIff | crates/core/src/gain_lock.rs:389-402 | After electing another desk and the first again, exactly if they agree at both elections. |
| GainForgetting.ElectingAwayMoves | crates/core/src/gain_lock.rs:607-618 | From any state and for any two desks that can lead, the first with an object for some signal: a run of own echoes in order and in time, no desk unplugged, in which reading the first, electing the second and the first again has the reading's echo taken for a move. If no two signals share an object it is not a patient run. |
| GainForgetting.ElectionUndoesReading | crates/core/src/gain_lock.rs:607-618 | A validated table of one signal in which that happens. |
| GainForgetting.PatienceNeededIff | crates/core/src/gain_lock.rs:607-618 | In all runs, patient or not, the engine's own echoes never move anything exactly if no signal has a preamp object on any desk. |
| GainOwnEchoes.FreshAwaits | crates/core/src/gain_lock.rs:283-300 | An engine just built from a table with unique names meets the conditions of these theorems. |
| GainSharedPreamps.SharedPreampFails | crates/core/src/gain_lock.rs:444-447 | If two signals are on one object of any desk, then from any state whose rows are the table's there is a patient run in which nothing but the engine's own values are reported, in order and in time, and one of them is taken for a move. |
| GainSharedPreamps.EchoesHarmlessIff | crates/core/src/gain_lock.rs:444-447 | In patient runs - no change of leader, and no lock or election with the leader to be unplugged, within the echo lifetime of the last lock, poll or set - the engine's own echoes never move anything exactly if no two signals are on one preamp object of any desk. |
| GainSharedExample.EchoUndoesSet | crates/core/src/gain_lock.rs:444-447 | A validated table with two signals on one preamp: lock, set, and two readings echoed in time; the second moves the follower's trim back off the point the set put it at. |
| GainEcho.LateEchoIsMistaken | crates/core/src/gain_lock.rs:234 | A lone echo is taken for a move exactly if it comes after its lifetime. |
| GainEcho.EchoMovesNothing | crates/core/src/gain_lock.rs:444-447 | A report every signal expects changes nothing but the expectations: no gain, no books, no trim. |
| GainEcho.RunQueues | crates/core/src/gain_lock.rs:356-361 | In every run the newest expectation of a signal is the gain the engine holds for it. |
| RouterNet.RunsEnd | crates/core/src/router.rs:148-200 | With one value in flight every interleaving of listeners, over any mapping graph and with any bounded number of confirmations per set, stops within a bound known before it starts. |
| RouterNet.StepWorks | crates/core/src/router.rs:163-200 | Every step of any listener uses up some of that bound. |
| RouterNet.OneSetPerAddress | crates/core/src/router.rs:184-191 | No address is sent more than one set, and one already known to hold the value none. |
| RouterNet.Converges | crates/core/src/router.rs:25-36 | If sets succeed and are confirmed, then at quiescence every address a chain of registered links leads to holds the value. |
| RouterNet.RunSpreads | crates/core/src/router.rs:163-200 | The invariant behind it: an address known to hold the value is about to be heard from, or every registered peer of it is known to or is about to be looked at. |
| RouterNet.RunTruthful | crates/core/src/router.rs:184-197 | The map and the devices agree but for the sets in progress and the sets that failed. |
| RouterNet.HeldIffNotFailed | crates/core/src/router.rs:193-197 | An address claimed for a value really holds it exactly if its set did not fail: a failed set leaves its claim in place. |
| RouterCycles.StepWorksOff | crates/core/src/router.rs:163-200 | Without a cycle every step of any listener, whatever values are in flight, uses up some of a bound on the steps left. |
| RouterCycles.AcyclicRunsEnd | crates/core/src/router.rs:163-200 | So without a cycle every run stops within a bound known before it starts, from every state and with any number of values in flight. |
| RouterCycles.MoveOn | crates/core/src/router.rs:163-200 | Two values reported one after the other at one address can both move on along any registered link, leaving the first known nowhere new. |
| RouterCycles.CycleNeverEnds | crates/core/src/router.rs:163-200 | With a cycle there are runs as long as anyone likes, whatever else is known and held. |
| RouterCycles.TableEndsIff | crates/core/src/router.rs:25-36 | A mapping table is sure to come to rest from every state, however the listeners interleave, exactly if no address leads back to itself by way of another. |
| RouterCycles.PairEndsIff | crates/core/src/router.rs:25-36 | Two linked objects that have each reported a value come to rest, whatever was known of them, exactly if it was the same value - or one device reported both and the second was already known to hold the first one's. |
| Router.Router.HandleEvent | crates/core/src/router.rs:163-200 | One event handled: the value reported is known of its address; it goes, once each, to exactly the registered peers not known to hold it, the address itself counted as holding it, and is known of them afterwards; nothing else known changes. |
| Router.Router.Claim | crates/core/src/router.rs:184-191 | Under one lock, a peer is to be set exactly if it was not known to hold the value, and is known to from then on. |
| Router.Router.PeersOf | crates/core/src/router.rs:202-213 | Everyone mapped from an address, and everyone mapped to it both ways, in mapping order. |
| Router.Router.RemoveMapping | crates/core/src/router.rs:136-146 | The first mapping with exactly this pair goes, and the result says whether there was one. |
| Router.Router.DeregisterDevice | crates/core/src/router.rs:106-117 | A device deregistered is gone, and what was known of its objects is not. |
| Router.PeersIff | crates/core/src/router.rs:202-213 | An address hears from another exactly along a mapping, or against one that is bidirectional. |
| Router.PeersOne | crates/core/src/router.rs:202-213 | One mapping's share of an address's peers; a table's are its mappings' shares in order (`Router.PeersConcat`). |
| Router.RemovalUnlinksOne | crates/core/src/router.rs:136-146 | A removal takes one link out of every address's peers and leaves the others in order. |
| Router.RemoveUndoesAdd | crates/core/src/router.rs:132-146 | Removing a pair just added undoes the addition, if it was not mapped before. |
| Router.PassingSets | crates/core/src/router.rs:171-191 | Exactly the registered peers not known to hold the value are set, each of them once. |
| Router.PassingKnows | crates/core/src/router.rs:184-191 | They are known to hold it afterwards, and nothing else known changes. |
| Router.RepeatIsSilent | crates/core/src/router.rs:25-36 | The same report again sets nothing and changes nothing. |
| Router.PassingIsRun | crates/core/src/router.rs:163-200 | The concurrent protocol's steps, taken without interruption, are one call of the event handler, whatever its sets come to. |
| Router.HandlingIsRun | crates/core/src/router.rs:163-200 | Handling an event is a run of the concurrent protocol that begins with taking the report off the wire, and ends with every other report and task as it was. |
| Router.HandlingIs | crates/core/src/router.rs:163-200 | The same as `HandleEvent` of the function it computes. |
| Router.HoldersAreLeftAlone | crates/core/src/router.rs:176-191 | While an address is known to hold a value, a report of that value from anywhere sends nothing to it and leaves it known to. |
| Router.ConfirmationsSendNothingBack | crates/core/src/router.rs:25-36 | The peers set by a report confirm it, in any order and any number of times: nothing goes back to its source and nothing again to a peer. |
| Router.PairSettles | crates/core/src/router.rs:25-36 | Two objects mapped both ways: the report of one sets the other, and the confirmation sets nothing. |
| Framing.ChunksDontMatter | crates/ocp1/src/client.rs:279-327 | For any parser that cuts from the front of a growing buffer: what comes out, whether the stream is given up on and what is left over depend on the bytes alone, not on how reads split them. |
| Framing.PiecesDrain | crates/ocp1/src/client.rs:294-322 | A stream of pieces the parser cuts whole is parsed piece by piece, whatever follows. |
| Ocp1Value.BytesRoundTripIff | crates/ocp1/src/value.rs:58-63 | A blob comes back exactly if its length fits the 16-bit field it is cast to. |
| Ocp1Value.ListRoundTrip | crates/ocp1/src/value.rs:71-82 | A list of elements each of which reads back what was written reads back whole. |
| Ocp1Value.ListCanonical | crates/ocp1/src/value.rs:71-82 | What a list reader accepts is just what the writer would have written. |
| Ocp1Value.Reader.Raw | crates/ocp1/src/value.rs:37-42 | A read takes exactly the octets asked for, or leaves the cursor where it was. |
| Ocp1Value.Reader.U8 | crates/ocp1/src/value.rs:15-22 | A one-octet read follows the function it computes. |
| Ocp1Value.Reader.U16 | crates/ocp1/src/value.rs:15-22 | A big-endian 16-bit read follows the function it computes. |
| Ocp1Value.Reader.U32 | crates/ocp1/src/value.rs:15-22 | A big-endian 32-bit read follows the function it computes. |
| Ocp1Value.Reader.Bytes | crates/ocp1/src/value.rs:58-63 | A length-prefixed read follows the function it computes, short or not. |
| Ocp1Value.Reader.ListOfU16 | crates/ocp1/src/value.rs:71-82 | A counted list read follows the function it computes, to its end or its first short element. |
| Ocp1Value.Writer.Bytes | crates/ocp1/src/value.rs:120-124 | A blob write appends the cast of its length and its octets. |
| Bytes.U32Inverse | crates/ocp1/src/value.rs:15-22 | Big-endian writing and reading undo each other, both ways. |
| Ocp1Pdu.EncodeCommand | crates/ocp1/src/pdu.rs:155-176 | A command's PDU is the header and body of the wire layout, its sizes cast to 32 bits. |
| Ocp1Pdu.EncodeResponse | crates/ocp1/src/pdu.rs:189-206 | So is a response's. |
| Ocp1Pdu.EncodeKeepalive | crates/ocp1/src/pdu.rs:178-183 | And a heartbeat's. |
| Ocp1Pdu.Decode | crates/ocp1/src/pdu.rs:234-250 | The decoding loop computes `DecodePdu`: all the messages announced, or the first error. |
| Ocp1Pdu.DecodeResponse | crates/ocp1/src/pdu.rs:262-272 | The cursor's reading of a response is the function the round trips are about. |
| Ocp1Pdu.DecodeCommand | crates/ocp1/src/pdu.rs:274-284 | And of a command. |
| Ocp1Pdu.DecodeNotification | crates/ocp1/src/pdu.rs:286-305 | And of a notification. |
| Ocp1Pdu.DecodeKeepalive | crates/ocp1/src/pdu.rs:252-260 | And of a heartbeat. |
| Ocp1Pdu.ResponsesRoundTrip | crates/ocp1/src/pdu.rs:234-272 | A response PDU carrying any list of responses that fits the size fields decodes to that list in order. |
| Ocp1Pdu.CommandsRoundTrip | crates/ocp1/src/pdu.rs:234-284 | So does a command PDU, of either kind. |
| Ocp1Pdu.NotificationsRoundTrip | crates/ocp1/src/pdu.rs:286-305 | So does a notification PDU, whatever the fields the controller does not look at say. |
| Ocp1Pdu.CommandRoundTripIff | crates/ocp1/src/pdu.rs:155-176 | A command sent comes back exactly if its PDU's size fits the 32-bit field it is cast to. |
| Ocp1Pdu.ResponseRoundTripIff | crates/ocp1/src/pdu.rs:189-206 | And a response. |
| Ocp1Pdu.KeepaliveRoundTrip | crates/ocp1/src/pdu.rs:178-183 | Every heartbeat comes back. |
| Ocp1Pdu.MillisecondsRead | crates/ocp1/src/pdu.rs:252-260 | A heartbeat in milliseconds is rounded down to seconds but never to none, until it no longer fits sixteen bits. |
| Ocp1Layout.HeaderLayout | crates/ocp1/src/pdu.rs:144-153 | Ten octets: 0x3B, version 1, the size of all that follows the first octet, the type and the count, at their offsets. |
| Ocp1Layout.CommandLayout | crates/ocp1/src/pdu.rs:337-358 | A command's fields at the documented offsets, big-endian. |
| Ocp1Layout.ResponseLayout | crates/ocp1/src/pdu.rs:189-206 | A response's fields at theirs. |
| Ocp1Layout.NotificationLayout | crates/ocp1/src/pdu.rs:286-304 | A notification's fields at theirs, after a context of any length. |
| Ocp1Layout.KeepaliveLayout | crates/ocp1/src/pdu.rs:178-183 | A heartbeat is twelve octets, spelled out. |
| Ocp1Layout.FiveSeconds | crates/ocp1/src/pdu.rs:311-333 | The documented frame of a five-second heartbeat is read as one. |
| Ocp1Layout.PduLenIs | crates/ocp1/src/pdu.rs:211-232 | What a buffer's first ten octets decide: wait, refuse the octet, the version or the size, or cut. |
| Ocp1Layout.KindsAre | crates/ocp1/src/pdu.rs:37-50 | Types are read by their numbers 0 to 4, and there are no others. |
| Ocp1Layout.DecodeRefuses | crates/ocp1/src/pdu.rs:234-250 | A PDU is refused for its header, for not being whole or for its type, and says which. |
| Ocp1Layout.FieldBytes | crates/ocp1/src/value.rs:120-124 | A blob is its length in two octets and then itself. |
| Ocp1Layout.NumbersAreBigEndian | crates/ocp1/src/value.rs:15-22 | A number is its octets at their big-endian weights. |
| Ocp1Pdu.KeepalivesRoundTripIff | crates/ocp1/src/pdu.rs:252-260 | A PDU of heartbeats in seconds comes back exactly if it carries at most one. |
| Ocp1Pdu.ReadStepStable | crates/ocp1/src/pdu.rs:208-231 | A PDU is cut off the same whatever bytes follow it, and every cut is of at least one byte. |
| Ocp1Pdu.FramesAreIndependent | crates/ocp1/src/client.rs:302-305 | A stream of PDUs is decoded frame by frame: a body that does not decode costs its own messages and nothing after it. |
| Ocp1Pdu.ReaderIgnoresChunking | crates/ocp1/src/client.rs:279-327 | The messages dispatched depend only on the bytes received, not on how reads split them. |
| Ocp1Client.Client.ReadLoop | crates/ocp1/src/client.rs:279-327 | What the bytes up to the first read that gives none decode to is delivered - subscribers hear of exactly its notifications, in order, and each waiter whose handle is responded to gets the first such response; at a hang-up everyone still waiting is woken; if the stream made no sense nobody is. |
| Ocp1Client.Client.Cut | crates/ocp1/src/client.rs:294-322 | The inner loop cuts and dispatches every whole PDU, at least ten bytes a turn. |
| Ocp1Client.Client.Deliver | crates/ocp1/src/client.rs:306-321 | One message changes what `Dispatch` says, which `DispatchedIsDelivered` says in turn. |
| Ocp1Client.DispatchedIsDelivered | crates/ocp1/src/client.rs:306-321 | Any messages delivered in turn: notified are exactly the notifications among them, in order; answered exactly the handles someone waited under, each with its first response, and no longer waiting; commands and heartbeats change nothing. |
| Ocp1Client.OutcomeIs | crates/ocp1/src/client.rs:279-327 | How reading ends, from the reads themselves, for the outcome the loop is proved to have. |
| Ocp1Client.Client.NextHandle | crates/ocp1/src/client.rs:132-136 | Handles come from a wrapping counter that passes over 0. |
| Ocp1Client.Client.Request | crates/ocp1/src/client.rs:125-145 | A request waits under a fresh handle, or leaves the table as it was without one if the connection is gone. |
| Ocp1Client.Client.Timeout | crates/ocp1/src/client.rs:150-153 | A request that gives up takes its handle out of the table. |
| Ocp1Correlation.RunInv | crates/ocp1/src/client.rs:125-155 | In every interleaving of requests, answers, timeouts and a hang-up, the table lists exactly the requests waiting, each under a handle of its own. |
| Ocp1Correlation.EachAnswerToItsOwn | crates/ocp1/src/client.rs:306-313 | In every run an answer goes to a request exactly if it is waiting under the answer's handle, and then to no other; its handle is not zero and no other waiting request has it. |
| Ocp1Correlation.AnsweredOnceOrNever | crates/ocp1/src/client.rs:147-154 | A request is answered at most once, and never after it has given up. |
| Ocp1Correlation.HandlesDiffer | crates/ocp1/src/client.rs:132-136 | As long as no handle outlives a full round of the counter, the handles in flight differ and none is 0. |
| Ocp1Correlation.LappedRequestLosesItsAnswer | crates/ocp1/src/client.rs:132-139 | Without that: a request that outlives a full round loses its place, and its answer, to the next one. |
| Ocp1Correlation.RequestIsSteps | crates/ocp1/src/client.rs:125-139 | The protocol's steps, taken without interruption, are one call of `request`. |
| Ocp1Members.RichFormParses | crates/ocp1/src/enumerate.rs:186-204 | Every list of identifications with non-empty class fields parses back to itself. |
| Ocp1Members.BareFormParses | crates/ocp1/src/enumerate.rs:208-212 | So does every list of bare object numbers: it is never mistaken for the other form. |
| Ocp1Members.BareIsNotRich | crates/ocp1/src/enumerate.rs:176-181 | A list of one or more bare numbers is too short to be read as identifications. |
| Ocp1Members.ParsedMembersWereSent | crates/ocp1/src/enumerate.rs:176-212 | A reply that yields members is, octet for octet, one of the two forms of exactly those members. |
| Ocp1Members.Parse | crates/ocp1/src/enumerate.rs:176-181 | The two-step parser computes `ParseMembers`. |
| Ocp1Members.ParseList | crates/ocp1/src/enumerate.rs:186-212 | A list in either form is taken only if it accounts for the whole buffer. |
| Ocp1Members.ReadIdentification | crates/ocp1/src/enumerate.rs:189-199 | One identification; a class of no fields is refused. |
| Ocp1Walker.Walker.Walk | crates/ocp1/src/enumerate.rs:89-152 | Following a block changes the objects seen and collected as the function `Walk` says, and leaves the path as it was, on every return. |
| Ocp1Walker.Walker.Visit | crates/ocp1/src/enumerate.rs:116-148 | One member: passed over if seen before or unclassifiable, followed if a block, collected otherwise. |
| Ocp1Walker.Walker.GetMembers | crates/ocp1/src/enumerate.rs:156-173 | The candidates are tried in order; only an answer that the method is wrong leads to the next. |
| Ocp1Walker.EnumerateFrom | crates/ocp1/src/enumerate.rs:79-85 | Enumeration starts with the root seen and nothing collected. |
| Ocp1Enumerate.EnumerateSafe | crates/ocp1/src/enumerate.rs:89-152 | On any device, however its graph loops or changes underfoot, the walk ends and returns no object twice, no container, at most 4096 objects and none nested 8 deep. |
| Ocp1Enumerate.WalkSafe | crates/ocp1/src/enumerate.rs:89-152 | Below any block: what is collected is new, has the block's path in front of its own, and stays within the limits. |
| Ocp1Enumerate.EnumerateComplete | crates/ocp1/src/enumerate.rs:89-152 | On any device that answers everything always the same way, every object that gives a class other than a container's is returned once, in order, where it is first come to and with its exact container path - the first 4096 of them. Blocks that loop back, share, refuse or go too deep, and objects that give no class, cost only themselves. |
| Ocp1Truth.EnumerationReadsReplies | crates/ocp1/src/enumerate.rs:89-173 | The same from the octets of the replies: member lists in either form to whichever of methods 5, 4 and 3 is the right one, classes with or without their version, roles as text, and refusals. |
| Ocp1Truth.IdentificationLayout | crates/ocp1/src/enumerate.rs:183-199 | A member with its class, octet by octet. |
| Ocp1Truth.RichLayout | crates/ocp1/src/enumerate.rs:183-199 | A list of them: its count and then each. |
| Ocp1Truth.BareLayout | crates/ocp1/src/enumerate.rs:206-212 | A list of bare numbers likewise. |
| Ocp1Enumerate.QuestionsAreBounded | crates/ocp1/src/enumerate.rs:35-39 | No device can keep the walk asking: at most five questions for each different object come across, and three for the root. |
| Ocp1Enumerate.FirstAnswerDecides | crates/ocp1/src/enumerate.rs:156-173 | The first candidate not answered with its being the wrong method decides: its members if it succeeds, nothing otherwise. |
| Ocp1Enumerate.NoMethodFits | crates/ocp1/src/enumerate.rs:156-173 | A device that knows none of the candidates gives nothing. |
| Ocp1Enumerate.ClassReadsBack | crates/ocp1/src/client.rs:220-227 | A class comes back with its version, and with version 1 where the device leaves it out. |
| Ocp1Enumerate.WalkTree | crates/ocp1/src/enumerate.rs:89-152 | The same below any block and from any point of the walk. |
| AcnPdu.WalkPdus | crates/mic-adapter-shure-acn/src/acn.rs:49-112 | The walk over a block computes `Walk`: each PDU resolved against the one before it, up to the first that is not whole. |
| AcnPdu.BlockRoundTrip | crates/mic-adapter-shure-acn/src/acn.rs:49-112 | Whatever a sender leaves to inheritance and however it writes lengths, a block walks to the PDUs meant. |
| AcnPdu.InheritanceIsTransparent | crates/mic-adapter-shure-acn/src/acn.rs:38-48 | A block with parts left out walks to the same PDUs as the block with every part spelled out. |
| AcnPdu.CutShortWalksToPrefix | crates/mic-adapter-shure-acn/src/acn.rs:71-74 | A block cut short anywhere walks to the first of the whole block's PDUs and nothing else. |
| AcnPdu.StandardBlockIff | crates/mic-adapter-shure-acn/src/acn.rs:95-99 | A block whose sender leaves data out as E1.17 allows walks to its PDUs without that data, and so to the PDUs meant exactly if every PDU whose data is left out has none. |
| AcnPdu.InheritedDataIsLost | crates/mic-adapter-shure-acn/src/acn.rs:95-99 | Eight octets of such a block: two reports of one value, the second of which arrives empty. |
| AcnPdu.FrameBack | crates/mic-adapter-shure-acn/src/acn.rs:56-74 | A PDU's flags, length and body are read off the front of a block as they were written, in either length form. |
| AcnOctets.PduOctets | crates/mic-adapter-shure-acn/src/acn.rs:38-48 | The bits of the first octet, the length of either width and the order of vector, header and data, as written. |
| AcnOctets.BlockEnds | crates/mic-adapter-shure-acn/src/acn.rs:56-73 | A block ends exactly where there is no room for a length, or the length is less than its own octets or more than is there. |
| AcnOctets.PartsTooShort | crates/mic-adapter-shure-acn/src/acn.rs:74-93 | It ends too at a PDU too short for the vector or header it is to have. |
| AcnDmp.PropertyRoundTrip | crates/mic-adapter-shure-acn/src/acn.rs:200-219 | Every report the table has a width for comes back, whatever padding follows it. |
| AcnDmp.DecodedIsKnown | crates/mic-adapter-shure-acn/src/acn.rs:177-187 | What is decoded has an address in the table and the width the table gives. |
| AcnDmp.ValueBack | crates/mic-adapter-shure-acn/src/acn.rs:205-217 | Each kind of value comes back, text with its inclusive length included. |
| AcnOctets.WidthsAre | crates/mic-adapter-shure-acn/src/acn.rs:177-187 | The properties whose width is known, by address. |
| AcnOctets.ValuesAre | crates/mic-adapter-shure-acn/src/acn.rs:205-217 | What a value's octets say by kind - big-endian, two's complement, text's inclusive length - and that too few say nothing. |
| AcnOctets.PropertyIs | crates/mic-adapter-shure-acn/src/acn.rs:200-219 | A property is read only with address form 2 and an address in the table, and whole. |
| AcnDatagram.DatagramRoundTrip | crates/mic-adapter-shure-acn/src/acn.rs:225-274 | A datagram of any reports through all four layers, with any parts left to inheritance, decodes to exactly the reports its reporting DMP blocks carry, in order. |
| AcnOctets.CapturedDecodes | crates/mic-adapter-shure-acn/src/acn.rs:281-331 | A datagram captured from a receiver decodes to the four properties it is known to carry. |
| AcnOctets.OtherDatagramsAreIgnored | crates/mic-adapter-shure-acn/src/acn.rs:225-228 | A datagram without the packet identifier, spelled out, is not read at all. |
| AcnDatagram.PropertiesInDatagram | crates/mic-adapter-shure-acn/src/acn.rs:225-274 | The nested walk computes `PropertiesIn`. |
| AcnDatagram.ReadSdt | crates/mic-adapter-shure-acn/src/acn.rs:234-250 | A wrapper contributes its client blocks' reports if it is a wrapper and has a whole header. |
| AcnDatagram.ReadBlock | crates/mic-adapter-shure-acn/src/acn.rs:250-270 | A client block contributes its reports if it carries DMP. |
| Midi.RunningStatusIsTransparent | crates/preamp-adapter-ah/src/dlive.rs:256-328 | For any messages, any statuses left out where MIDI allows it and any chunking, dLive's parser gives the messages meant and nothing is left over. |
| Midi.DliveGivesMessages | crates/preamp-adapter-ah/src/dlive.rs:282-327 | The same from any status already running. |
| Midi.ChannelLenIs | crates/preamp-adapter-ah/src/dlive.rs:267-273 | Two data bytes exactly after 0x80 to 0xBF and 0xE0 to 0xEF, one exactly after 0xC0 to 0xDF; nothing else is a channel status. |
| Midi.MessagesAre | crates/preamp-adapter-ah/src/dlive.rs:256-273 | The messages of the theorems here are MIDI 1.0's: three-byte voice messages, two-byte Program Change and Channel Pressure, and System Exclusive. |
| Midi.MessagesComeThrough | crates/preamp-adapter-ah/src/dlive.rs:282-327 | Such messages in any mix, statuses left out where MIDI allows it and bytes in any chunks, come out of dLive's parser as meant. |
| Midi.StatedComeThrough | crates/preamp-adapter-ah/src/ahm.rs:234-263 | With every status on the wire they come out of the AHM's parser too. |
| Midi.ProgramThenBend | crates/preamp-adapter-ah/src/dlive.rs:267-273 | A Program Change followed by a pitch bend, octet for octet, in both parsers. |
| Midi.ChunkingIsInvisible | crates/preamp-adapter-ah/src/dlive.rs:275-327 | On every byte stream, well-formed or not, either parser's output depends on the bytes and not on their chunking. |
| Midi.AhmGivesStated | crates/preamp-adapter-ah/src/ahm.rs:234-263 | From the same stream the AHM's parser gives just the messages whose status is on the wire. |
| Midi.ParsersAgreeIff | crates/preamp-adapter-ah/src/ahm.rs:234-263 | The two parsers agree on a stream exactly if every status is on the wire. |
| Midi.StrayStatusIsDropped | crates/preamp-adapter-ah/src/dlive.rs:296-300 | A status byte that starts no message is dropped by itself, by both parsers, and leaves the running status standing. |
| MidiStandard.DliveKeepsAll | crates/preamp-adapter-ah/src/dlive.rs:296-300 | With a bare status byte of that kind between any messages, statuses left out or not, dLive's parser still gives them all. |
| MidiStandard.StandardLosesSome | crates/preamp-adapter-ah/src/dlive.rs:296-300 | A parser that keeps MIDI 1.0's rule loses, at a System Common message with any data, the messages up to the next whose status is stated, and at a System Real Time one none. |
| MidiStandard.StrayMessageReadIff | crates/preamp-adapter-ah/src/dlive.rs:296-325 | The two readings of a stream with such a message in it, data and all, agree exactly if it is a real-time one; or no channel status is running; or its data is too short for a message of that status and nothing follows, or it has none and what follows states its status. |
| Midi.StrayDataIsDropped | crates/preamp-adapter-ah/src/dlive.rs:311-314 | Data bytes are dropped while no status is running. |
| MidiParsers.DliveParser.NextMessage | crates/preamp-adapter-ah/src/dlive.rs:282-327 | The next message, its status put back; or what is dropped on the way to wanting more bytes. |
| MidiParsers.DliveParser.Receive | crates/preamp-adapter-ah/src/dlive.rs:379-389 | One read pushed and every message taken out is one feeding of the parser. |
| MidiParsers.AhmParser.NextMessage | crates/preamp-adapter-ah/src/ahm.rs:234-263 | The next message; a data byte with no status in front of it is dropped. |
| MidiParsers.AhmParser.Receive | crates/preamp-adapter-ah/src/ahm.rs:230-263 | One read pushed and every message taken out is one feeding of the parser. |
| MidiParsers.NrpnTracker.Feed | crates/preamp-adapter-ah/src/ahm.rs:275-296 | A setting comes exactly when a data entry (0x06) follows a channel (0x63) and a parameter (0x62) selected on its own MIDI channel, and it is of the last of each. |
| MidiParsers.SelectedIs | crates/preamp-adapter-ah/src/ahm.rs:282-289 | What is selected on a MIDI channel is what was last sent to its own two controllers, whatever came on others. |
| MidiParsers.TrackedIs | crates/preamp-adapter-ah/src/ahm.rs:290-294 | Each message gives exactly the setting it makes with what was selected before it. |
| MidiParsers.SetParamIsUnderstood | crates/preamp-adapter-ah/src/ahm.rs:105-110 | What the adapter sends to set a parameter reads, whatever was selected before, as just that setting. |
| Dlive.SocketsAreChannels | crates/preamp-adapter-ah/src/dlive.rs:102-118 | Socket numbers and channels are inverse to each other, and the three ranges are together simply channel minus one. |
| Dlive.SetGainIsUnderstood | crates/preamp-adapter-ah/src/dlive.rs:215-219 | A gain set is one whole message, and if said back reads as that channel at the nearest gain the wire can say. |
| Dlive.SwitchIsUnderstood | crates/preamp-adapter-ah/src/dlive.rs:402-415 | A switch's status reads as that switch; the message that sets one does not read as anything. |
| Dlive.MessagesAreRead | crates/preamp-adapter-ah/src/dlive.rs:400-415 | Exactly which messages say something, and what: pitch bends are gains, status opcodes 0x0B and 0x08 are phantom power and pad, on from 0x40 up; each for the channel one more than its socket. |
| Dlive.MessagesAreSent | crates/preamp-adapter-ah/src/dlive.rs:215-225 | The octets sent to set a gain and phantom power. |
| Dlive.GainRoundTrip | crates/preamp-adapter-ah/src/dlive.rs:146-154 | Every gain byte comes back, and a gain comes back within half a step. |
| Dlive.GainScale | crates/preamp-adapter-ah/src/dlive.rs:146-154 | 0 is 5 dB and 127 is 60 dB, in equal parts; the reference table's four gains have its bytes. |
| Dlive.Cache.HandleMessage | crates/preamp-adapter-ah/src/dlive.rs:394-444 | One message changes one field of one channel, and the cache stays what all the messages heard make of an empty one. |
| Dlive.Cache.GetState | crates/preamp-adapter-ah/src/dlive.rs:226-229 | The cache answers exactly if some message heard since it was made gave a gain for the channel, and then with the gain of the last such message. |
| Dlive.GainIsLastHeard | crates/preamp-adapter-ah/src/dlive.rs:420-437 | A cached gain is the last one reported for that very channel, never a placeholder. |
| Aphex.DecodeUndoesEncode | crates/preamp-adapter-aphex/src/codec.rs:222-276 | Every message that can be built comes back from its frame. |
| Aphex.EncodeUndoesDecode | crates/preamp-adapter-aphex/src/codec.rs:222-276 | Every frame accepted is, octet for octet, the frame of the message it decodes to, and that message can be built. |
| Aphex.NothingLooksLikeStatus | crates/preamp-adapter-aphex/src/codec.rs:217-234 | Between the delimiters every octet is a data byte. |
| Aphex.OpcodesInvert | crates/preamp-adapter-aphex/src/codec.rs:58-95 | Opcodes and controls determine each other. |
| Aphex.CommandsAreTheTable | crates/preamp-adapter-aphex/src/codec.rs:58-112 | Every control has the opcode and the range of values of the published table, and is refused outside it. |
| Aphex.OtherOpcodesAreUnknown | crates/preamp-adapter-aphex/src/codec.rs:77-95 | No other opcode is known. |
| Aphex.FrameLayout | crates/preamp-adapter-aphex/src/codec.rs:222-234 | The frame's octets: delimiters, manufacturer, address and each command at its place. |
| Aphex.DocumentedFrame | crates/preamp-adapter-aphex/src/codec.rs:288-301 | The documented frame, octet for octet. |
| Aphex.RefusalsAreTrue | crates/preamp-adapter-aphex/src/codec.rs:243-275 | A refused frame has the defect it is refused for. |
| Aphex.Encode | crates/preamp-adapter-aphex/src/codec.rs:222-234 | The encoding loop writes `Frame`. |

## Left out

- 32-bit and 64-bit floating point: dB values are reals, and the lattice theorems say what is exact there. The rounding of a dB value to the grid is modelled; the representation error of the operands is not, nor are values that are not numbers, except where the code tests for them.
- Durations: a read, a move or a probe may fail, and an expectation may expire; how long any of them takes is a parameter of the step.
- Status texts (`problem`, `error`, snapshots) and the order of their updates.
- GainLock.nudge_preamp: a set of the last gain known plus the change; `SetPreamp` is what it does.
- GainEngine.GainLock: the rows and followers the original updates in place are values in the engine's sequence field; a row's identity is its place in the table, so aliasing between rows is not modelled (the original's rows own their followers).
- GainEngine.GainLock.RetryFailed: the moment between the probes and the settling, when the engine is not held, is not interleaved with other operations; `Recovered` is the half that follows it, from any state.
- GainPaths.PathIndependence: is stated for runs with no hand on a desk and none unplugged; `SettledAfterAnyRun` is the statement for all of them.
- GainRun.Step: desks appear and disappear between operations, not during one; and one time stands for all the readings of a lock or a poll and all the reports of a batch, where the original stamps each.
- GainOneByOne.OneByOneIsEach: the reports delivered one by one are all delivered at one time, so an expectation that expires between two of them is not covered.
- GainOneByOne.BatchIsOneByOne: nor here.
- GainOwnEchoes.Unsettles: any change of leader counts, though a signal whose numbers agree on both desks keeps its expectations; `GainForgetting.ElectingAwayMoves` is why.
- The lagged-stream re-read and the batching loop of the engine's task: they choose which of the modelled operations comes next.
- RouterNet.OneValue: convergence, one set per address and the bound over any graph are for one value in flight; `RouterCycles.TableEndsIff` says which tables come to rest with several, not at which value.
- RouterNet.NextInLine: a device registered again while its listener is handling a report, which would cut that handling short, is not modelled.
- RouterNet.Converges: what registering, deregistering or remapping during a run does to convergence is not stated; the map keeps what it knew.
- Router.Router: subscription, tap and listener tasks; a listener is a source of events.
- Ocp1Value.Reader: the 8-bit to 64-bit signed, 64-bit and floating-point reads and writes, each the pattern of the ones modelled.
- Ocp1Value.PutBytes: text is its octets; the lossy reading of text that is not UTF-8 is not modelled, here or in the ACN properties.
- Ocp1Correlation.Recent: the limit on a handle's lifetime is a condition on runs; `LappedRequestLosesItsAnswer` shows what it rules out. A second client from `set_timeout` shares the table but copies the counter, and is not modelled.
- Ocp1Client.Client.Request: the wait for an answer; `Ocp1Correlation` interleaves it with everything else.
- Ocp1Pdu.DecodePdu: sizes are unbounded naturals once read, as on a 64-bit machine; on a 32-bit one the size field's largest value would overflow.
- Ocp1Enumerate.Device: a request is a function of how many were made before it, so a device may answer anything at any time, but requests by others in between are not modelled.
- AcnDatagram.FromBlock: the meaning of PDUs outside DMP event, reply and set messages; they contribute nothing.
- MidiParsers.AhmParser: which of the AHM's settings change its cache, a single branch on the parameter.
- Dlive.Interpret: the probe that recognises a dLive at identification.
- Aphex.Decode: which field an out-of-range octet was in is not part of the error.
- X32.Adapter.SetTrim: OSC goes over UDP, and a datagram handed to the socket is taken for one the console received; one lost on the way is not modelled.
- X32.Adapter.NudgeTrim: rests on the same, for the write it ends with.
- MidiStandard.StandardStep: the MIDI 1.0 reading is of stray status bytes between messages; a real-time byte inside a message, which dLive's parser takes for data, is not compared.
- X32: the head amplifier's gain and phantom, heartbeats and identification; OSC packets and paths.
- Other device adapters (Shure ASCII, Sennheiser, Lectrosonics, Wing, Yamaha, Dante), role and channel schemes, discovery, the plugin interface, configuration files and the command line: field copies, single branches or input and output.
