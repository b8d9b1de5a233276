# The call control plane, modelled and proved

This project models the live-call control plane of the VisionCall server, and a few smaller algorithms
beside it, and proves what they promise. Every claim is checked by the Dafny verifier alone
(`dafny verify dfyconfig.toml`); nothing of the server is executed.

## How it is built

Code that only computes is modelled by functions. Code that changes things in place is modelled twice: by a
value with a function per operation, about which the properties are proved for all inputs and all runs, and by
a class with the fields of the original, each of whose methods is proved to do to its object exactly what the
function does to the value. Map iteration order, clocks, randomness, and the answers of browsers and of tables
that are not modelled are parameters.

| files | what they hold |
|---|---|
| `Media`, `Subscriber` | names; the offer/answer exchange of one subscriber |
| `RoomModel`, `EngineModel` | one conference room and the engine as values, with all their operations |
| `RoomEffects`, `RoomOutcomes`, `EngineOutcomes` | what every operation leads to, completely |
| `RoomInvariants`, `RoomOperations`, `RoomMembership`, `EngineInvariants`, `EngineProperties`, `EngineCauses`, `EngineRuns` | what every operation keeps, the main results over all runs, and runs that reach what fails |
| `SfuRoom`, `SfuEngine` | participants, rooms and the engine as objects, tied to the values |
| `CallLog`, `RoomLog` | the history tables; what the hub makes of the engine's events |
| `CallModel`, `CallOutcomes`, `CallInvariants`, `CallProperties`, `CallRaces`, `P2PManager` | direct calls: value, what every operation achieves, invariants, main results, the two halves of an accept, objects |
| `SharedHistory` | the history with both its writers |
| `LeaveTimers`, `HubModel`, `HubOutcomes`, `HubInvariants`, `HubProperties`, `HubRuns`, `SignalingHub` | connections and delayed departures over the engine and the calls |
| `Interleaving`, `HandlersAlone` | calls and rooms at the granularity of single critical sections, and what undisturbed handlers add up to |
| `PrivateRooms`, `GateProperties`, `Limiters`, `LimiterState`, `Paging`, `Accounts`, `AccountOutcomes`, `AccountTables`, `Rebind` | the private-room gate, rate limits, history paging, groups and administrators, placeholder rewriting |

An operation is one handler, one engine operation, one connect or disconnect, or one timer callback. Timer
callbacks may get the lock long after their timer was stopped or replaced. `Interleaving`, `CallRaces.AcceptRace`,
`PrivateRooms.LateApproval` and `Accounts.LateRemoval` go below that granularity.

## Where the code does less than it seems to promise

For each of these there is the exact condition under which the promise holds, and a run from the initial state
that breaks it.

- `restoreMic` overwrites a published mic without taking it from those it is sent to. Whole runs are exact if and
  only if no restore does that with a different mic published (`RoomOperations.RestoreMicExact`,
  `EngineInvariants.MicsExactIffNoLeak`; run: `EngineRuns.StaleMicRun`).
- A host promoted because the last one left keeps the presenting flag of an ordinary member, although the rule says
  that a host may always present (`RoomMembership.PromotedMayPresent`; run: `EngineRuns.PromotedHostRun`).
- A plain mute after a locked one clears the flag everybody sees but not the lock, although the flag is documented as
  showing the lock (`EngineProperties.LockFlagAfterMute`; run: `EngineRuns.HiddenLockRun`).
- Ending a call leaves grace timers armed, and such a timer ends whatever call its user is in by then
  (`CallProperties.GraceEndsWhateverCall`; run: `CallRaces.GraceRun`).
- Departure tokens are deleted on expiry and start again from one. A superseded callback can count if and only if a
  token is issued while a waiting callback of the same user carries it, which takes callbacks that get the lock out
  of turn (`LeaveTimers.SafeIffNeverReissued`, `HubProperties.SafeIffNeverReissued`, `HubProperties.SafeInTurn`; runs:
  `LeaveTimers.OutOfTurn`, `HubRuns.OldCallbackRemoves`).
- Evicting somebody from a group's room cancels their departure even if they are in another room, and then strands
  them there if they are offline (`HubInvariants.EvictKeeps`, `HubProperties.StrandedOnlyByEviction`; run:
  `HubRuns.EvictionStrands`).
- A removal tells the membership index late; a user who has joined the same room again by then loses the entry and can
  get into a second room (`Interleaving.IndexedIffNeverLost`; run: `Interleaving.TwoRoomsRun`).
- An accept writes the history after leaving the manager's lock; if the call has ended by then, its closed row shows
  the callee as present (`CallRaces.AcceptRace`; run: `CallRaces.AcceptRaceRun`).
- An admission clears the request and approves in two critical sections; a disconnect in between leaves an approval
  that outlives the connection, which the comment at private_rooms.go:87-94 says cannot happen
  (`PrivateRooms.LateApproval`; run: `PrivateRooms.LateApprovalRun`).
- A removal from a group reads its guard first; if a purge has made the target the creator meanwhile, it removes the
  creator (`Accounts.LateRemoval`; run: `Accounts.LateRemovalRun`).

The comment at hub.go:168-170 says that replacing a session ends direct calls; the code gives a reconnect from the same
device a grace period, and the model follows the code (`SignalingHub.Hub.Register`).

## Model

| member | source | states |
|---|---|---|
| `Subscriber.StepKeeps` | server/internal/sfu/participant.go:93-240 | every change, answer and resend keeps: the last offer is the current set of senders, or an offer is open and a redo is noted; no offer is open without `subPending`; offers and answers alternate |
| `Subscriber.RunKeeps` | server/internal/sfu/participant.go:160-240 | the same over every sequence of changes, answers and resends |
| `Subscriber.AddAllKeeps` | server/internal/sfu/participant.go:141-158 | adding any list of tracks keeps the invariant and ends with exactly their union as senders |
| `Subscriber.RemoveAllKeeps` | server/internal/sfu/participant.go:188-202 | taking any list of tracks back keeps the invariant and ends with exactly the difference as senders |
| `Subscriber.OffersNeverOverlap` | server/internal/sfu/participant.go:204-240 | between any two new offers there is an answer, so a second offer is never made while one is open (section 4 of RFC 3264); a resend repeats the open one |
| `Subscriber.ClosedByAnswer` | server/internal/sfu/participant.go:226-240 | an offer that is no longer open has been answered since |
| `Subscriber.SettlesExactly` | server/internal/sfu/participant.go:204-240 | once changes stop, the subscriber has answered an offer of exactly its senders if and only if as many answers came as were needed, and at most two are |
| `Subscriber.TwoAnswersSettle` | server/internal/sfu/participant.go:204-240 | after any history, two answers without further changes settle the subscriber on exactly its senders |
| `Subscriber.ChangeOutcome` | server/internal/sfu/participant.go:160-224 | a change is offered at once, or noted while an offer is open; one that changes nothing is neither |
| `Subscriber.AnswerOutcome` | server/internal/sfu/participant.go:226-240 | an answer makes the open offer the answered one and is followed by exactly one new offer of the current senders if a redo was noted; without an open offer nothing happens |
| `Subscriber.ReconnectOutcome` | server/internal/sfu/participant.go:93-105 | a reconnect while an offer is open sends exactly that offer once more and changes nothing else; otherwise it does nothing |
| `Subscriber.EveryReconnectIsServed` | server/internal/sfu/participant.go:93-105 | over every history offers are repeated exactly as often as the client reconnects while one is open |
| `Subscriber.ClosedForGood` | server/internal/sfu/participant.go:160-240 | once closed, nothing passes any more, whatever comes |
| `RoomOperations.PublishKeeps` | server/internal/sfu/room.go:204-250 | publishing keeps the whole room invariant, for forwarded and for withheld tracks, and keeps mics exact |
| `RoomOperations.UnpublishKeeps` | server/internal/sfu/room.go:263-284 | taking a track down keeps the room invariant; the slot is empty afterwards if it held the expected track, and otherwise nothing happens |
| `RoomOperations.ForceMuteMicKeeps` | server/internal/sfu/room.go:286-316 | a forced mute withholds exactly the published mic, takes it from every other member and keeps the room invariant; without one nothing happens |
| `RoomOperations.RestoreMicKeeps` | server/internal/sfu/room.go:318-345 | restoring a parked mic keeps everything but the exactness of mics |
| `RoomOperations.RestoreMicExact` | server/internal/sfu/room.go:318-345 | after a restore mics are exact if and only if it did not overwrite a different published mic that somebody else is being sent |
| `RoomOperations.MuteKeeps` | server/internal/sfu/engine.go:396-411 | a host mute, locking or not, keeps the room invariant and never drops an existing lock |
| `RoomOperations.UnlockKeeps` | server/internal/sfu/engine.go:413-424 | an unlock keeps the room invariant |
| `RoomOperations.OnTrackKeeps` | server/internal/sfu/participant.go:318-361 | an arriving track, relabelled as a screen when announced and refused when its owner may not present, keeps the room invariant |
| `RoomOperations.TrackEndedKeeps` | server/internal/sfu/participant.go:363-398 | a stream that ends keeps the room invariant |
| `RoomOperations.OnTrackStateKeeps` | server/internal/sfu/participant.go:400-443 | a report of toggles keeps the room invariant; mics stay exact if and only if it does not take the restore that leaks |
| `RoomOperations.PresenterOnlyKeeps` | server/internal/sfu/room.go:77-93 | toggling presenter-only mode recomputes every flag and keeps the room invariant |
| `RoomOperations.PresenterKeeps` | server/internal/sfu/engine.go:481-497 | a grant or its withdrawal keeps the room invariant |
| `RoomOperations.ClaimHostKeeps` | server/internal/sfu/engine.go:441-468 | claiming the host role keeps the room invariant, so the room has exactly one host afterwards |
| `RoomOperations.MuteShape` | server/internal/sfu/room.go:286-316 | what a mute does to info, locks, parked mics and published mics, in closed form |
| `RoomOperations.SubscriberStepKeeps` | server/internal/sfu/participant.go:93-105 | answers and resends of one member touch nothing else in the room |
| `RoomModel.SetPresenterOnlyAt` | server/internal/sfu/room.go:77-93 | after the toggle each member's flag is: host, or mode off, or granted; nothing else changed |
| `RoomMembership.LeaveKeeps` | server/internal/sfu/room.go:131-187 | leaving keeps the room invariant, removes exactly that member, and moves the host role to the first in join order if and only if the host left |
| `RoomMembership.EnterKeeps` | server/internal/sfu/engine.go:180-210 | entering keeps the room invariant: the newcomer is sent everything published by the others, is last in join order, and is host exactly in an empty room; the host of any other room stays |
| `RoomMembership.WithoutIsSubsequence` | server/internal/sfu/room.go:143-150 | rebuilding the join order without one user keeps the relative order of everybody else |
| `RoomMembership.PromotedMayPresent` | server/internal/sfu/room.go:160-168 | a promoted host may present if and only if the room was open or the successor had been granted presenting, because the flag is not recomputed |
| `RoomOutcomes.ArrivalOutcome` | server/internal/sfu/participant.go:318-361 | an arriving track is a screen exactly if announced in time; it is refused, withheld, or published in place of the last of its kind to everybody else, and its owner's info, the announcement and everybody else's info are as they should be |
| `RoomOutcomes.PublishOutcome` | server/internal/sfu/room.go:204-250 | publishing puts the track in the place of the last one of its kind, for everybody else too, or withholds a locked user's mic; somebody outside publishes nothing |
| `RoomOutcomes.TrackEndedOutcome` | server/internal/sfu/participant.go:363-398 | if the track is still published, then afterwards it is not, nobody is sent it, its owner shows as muted, camera off or not sharing, and nothing else changed; otherwise nothing happens |
| `RoomOutcomes.ReportOutcome` | server/internal/sfu/participant.go:400-443 | what a report makes of mute, camera and screen; which announcement it records, which screen it stops, which withheld mic it brings back; nobody else changes |
| `RoomOutcomes.MuteOutcome` | server/internal/sfu/engine.go:399-411 | a mute withholds the published mic, takes it from everybody, shows the member as muted, and locks exactly if asked to |
| `RoomOutcomes.ClaimOutcome` | server/internal/sfu/engine.go:443-468 | afterwards the claimant is the only host; whoever's role changed may present by the rule, and everybody else is as before |
| `RoomOutcomes.LeaveOutcome` | server/internal/sfu/room.go:134-187 | whoever leaves takes everything of theirs along and comes out of the order at their place; the others are sent none of it, the next in order is host exactly if the host left, and nobody else's info changed |
| `RoomOutcomes.EnterOutcome` | server/internal/sfu/engine.go:180-210 | a newcomer is last in order, is sent exactly what is published, is host exactly of an empty room and may present by the rule; nobody else notices |
| `EngineInvariants.JoinKeeps` | server/internal/sfu/engine.go:128-227 | a join keeps engine and room invariants; it is refused as elsewhere exactly for members of another room, as full exactly for newcomers to a full room, changes nothing when refused, and otherwise puts the user in that room and no other |
| `EngineInvariants.RejoinKeeps` | server/internal/sfu/engine.go:167-170 | after a stale participant is dropped the second pass of the join always finds a free place |
| `EngineInvariants.RemoveFromKeeps` | server/internal/sfu/room.go:131-187 | a removal keeps both invariants, releases exactly that user, closes the room exactly behind the last member and leaves every other room alone |
| `EngineInvariants.AdmitKeeps` | server/internal/sfu/engine.go:172-210 | an admission keeps both invariants and the room limit |
| `EngineInvariants.ControlKeeps` | server/internal/sfu/engine.go:381-497 | host controls keep both invariants and move nobody |
| `EngineInvariants.StreamKeeps` | server/internal/sfu/participant.go:318-443 | streams, reports and answers keep both invariants; mics stay exact if and only if the step is not a leaking restore |
| `EngineInvariants.StepKeeps` | server/internal/sfu/engine.go:128-497 | every operation keeps: index and rooms agree, order is a permutation of the members, every room is non-empty and within its limit, forwarding, locks, roles and subscribers are right |
| `EngineInvariants.EveryRun` | server/internal/sfu/engine.go:128-497 | all of that after every operation of every run of a new engine |
| `EngineInvariants.MicsExactIffNoLeak` | server/internal/sfu/room.go:318-345 | over a whole run mics are exact throughout if and only if no operation is a leaking restore |
| `EngineInvariants.LeavesAlone` | server/internal/sfu/engine.go:317-340 | a member of one room leaving touches no other room and no other member |
| `EngineOutcomes.InsideOutcome` | server/internal/sfu/engine.go:363-497 | every host control, report, arriving or ending stream and answer does all of that in the one room it concerns, exactly if whoever asks is there with the right to; no other room, membership or event changes, and where it concerns no room nothing happens |
| `EngineOutcomes.GoingOutcome` | server/internal/sfu/engine.go:230-248 | leaving, being taken out and being kicked: the user is in no room and not in the index, nothing of it is published or sent, the events say so, the room is closed exactly behind the last member, and every other member and room stays |
| `EngineOutcomes.RemovalOutcome` | server/internal/sfu/engine.go:427-439 | a kick takes effect in full, down to the room it empties |
| `EngineOutcomes.JoinOutcome` | server/internal/sfu/engine.go:134-227 | a newcomer comes in; a member whose connections live comes back, and an offer that was open is appended to what it is sent; any other member first goes out with everything it had; all others are refused without effect |
| `EngineOutcomes.StaysOut` | server/internal/sfu/engine.go:427-439 | over every run whoever is out stays out, with everything it had, until it joins again |
| `EngineOutcomes.EndedForGood` | server/internal/sfu/participant.go:363-398 | over every run, once the stream behind a published track has ended no room ever publishes or withholds it again |
| `EngineProperties.ForwardingIsExact` | server/internal/sfu/room.go:131-345 | after every run a member is sent a camera or screen track exactly when another member of its room publishes it now, is sent every published mic of the others, and never its own tracks |
| `EngineProperties.MicsExactWithoutSecondMic` | server/internal/sfu/room.go:204-345 | on runs that publish no mic for an unlocked user with a parked one, mics are exact throughout |
| `EngineRuns.StaleMicRun` | server/internal/sfu/room.go:330-344 | a run of a new engine after which a member is sent a mic that is no longer published |
| `EngineProperties.SubscriberCatchesUp` | server/internal/sfu/participant.go:204-240 | from any state of any run two answers bring a member to an answered offer of what the others publish |
| `EngineProperties.LockPersists` | server/internal/sfu/room.go:294-345 | a host lock survives every operation except a granted unlock of that user and that user leaving the room |
| `EngineProperties.LockSurvivesRun` | server/internal/sfu/engine.go:399-424 | so through any run without a granted unlock of that user the lock holds until the user leaves the room |
| `EngineProperties.LockedIsSilent` | server/internal/sfu/room.go:206-230 | in every run a locked user shows as muted and publishes no mic, and with mics exact nobody is sent one of its mics |
| `EngineProperties.LockFlagAfterMute` | server/internal/sfu/engine.go:405-409 | after a mute the shown lock flag agrees with the lock if and only if the mute locks or nothing was locked |
| `EngineRuns.HiddenLockRun` | server/internal/sfu/engine.go:405-409 | a run of a new engine after which somebody is locked and nobody is shown that |
| `EngineProperties.ShownLockHolds` | server/internal/sfu/engine.go:399-424 | in every run a shown lock flag implies the lock |
| `EngineProperties.RolesAreRight` | server/internal/sfu/room.go:52-93 | in every run every registered room has exactly one host, every other member's flag equals the presenting rule, and every flag implies it |
| `EngineRuns.PromotedHostRun` | server/internal/sfu/room.go:162-167 | a run of a new engine after which the host may not present |
| `EngineCauses.StepCause` | server/internal/sfu/engine.go:128-497 | whatever is true of a room after an operation was true before or is caused by it |
| `EngineCauses.EverythingHasACause` | server/internal/sfu/engine.go:128-497 | in every run each track a room publishes or withholds came in as a stream of its owner in that room, and whoever is locked or granted presenting was so by a host of that room or an administrator in it |
| `EngineCauses.MuteTakenBack` | server/internal/sfu/engine.go:396-424 | from every state of every run: a host mutes somebody, with a lock or without, takes the lock back, and the other unmutes; then exactly the same tracks are published as before |
| `SfuRoom.Participant.Renegotiate` | server/internal/sfu/participant.go:204-224 | in place: offer the senders, or note a redo while an offer is open |
| `SfuRoom.Participant.AddSender` | server/internal/sfu/participant.go:160-186 | in place: add a track unless closed or present, and renegotiate |
| `SfuRoom.Participant.RemoveSender` | server/internal/sfu/participant.go:188-202 | in place: remove a track if present, and renegotiate |
| `SfuRoom.Participant.OnSubAnswer` | server/internal/sfu/participant.go:226-240 | in place: take an answer to the open offer and carry out a noted redo |
| `SfuRoom.Participant.ResendSubscriberOffer` | server/internal/sfu/participant.go:93-105 | in place: repeat the open offer |
| `SfuRoom.Participant.AddSenders` | server/internal/sfu/participant.go:141-158 | in place: a newcomer is sent a set of tracks in whatever order the iteration takes |
| `SfuRoom.Room.Publish` | server/internal/sfu/room.go:204-250 | in place: park a locked user's mic, otherwise replace the slot and fan out; ignored for a replaced or closed participant |
| `SfuRoom.Room.Unpublish` | server/internal/sfu/room.go:263-284 | in place: take down a track, if it is the expected one |
| `SfuRoom.Room.ForceMuteMic` | server/internal/sfu/room.go:286-316 | in place: park the published mic |
| `SfuRoom.Room.RestoreMic` | server/internal/sfu/room.go:318-345 | in place: put the parked mic back, overwriting the slot |
| `SfuRoom.Room.OnTrack` | server/internal/sfu/participant.go:318-361 | in place: label, refuse or publish an arriving track and show it in the info |
| `SfuRoom.Room.TrackEnded` | server/internal/sfu/participant.go:363-398 | in place: the stream behind a track ended |
| `SfuRoom.Room.OnTrackState` | server/internal/sfu/participant.go:400-443 | in place: a report of toggles, with the presenting and lock checks |
| `SfuRoom.Room.Mute` | server/internal/sfu/engine.go:405-409 | in place: set the flags, park the mic, lock if asked |
| `SfuRoom.Room.Unlock` | server/internal/sfu/engine.go:419-420 | in place: drop the lock and the flag |
| `SfuRoom.Room.SetPresenterOnly` | server/internal/sfu/room.go:77-93 | in place: the loop over members recomputes every flag |
| `SfuRoom.Room.SetPresenter` | server/internal/sfu/engine.go:486-495 | in place: grant or revoke, and recompute one flag |
| `SfuRoom.Room.ClaimHost` | server/internal/sfu/engine.go:443-468 | in place: the loop over members moves the role and recomputes the changed flags |
| `SfuRoom.Room.OrderWithout` | server/internal/sfu/room.go:143-150 | the loop that rebuilds the join order |
| `SfuRoom.Room.Enter` | server/internal/sfu/engine.go:180-210 | in place: the participant is made, listed and subscribed to what is published |
| `SfuRoom.Room.Leave` | server/internal/sfu/room.go:131-176 | in place: forget, promote, close, and take the tracks back from the others |
| `SfuEngine.Engine.RoomForUser` | server/internal/sfu/engine.go:250-267 | the room of a user by the index, or failing that by asking every room |
| `SfuEngine.Engine.IndexDecides` | server/internal/sfu/engine.go:250-267 | in a consistent engine the fallback search never finds anybody |
| `SfuEngine.Engine.RequireHost` | server/internal/sfu/engine.go:381-394 | answers with the room exactly when the asker is its host or an administrator in it and the target is in it |
| `SfuEngine.Engine.MuteRequest` | server/internal/sfu/engine.go:396-411 | in place: the mute operation, refused exactly without host control |
| `SfuEngine.Engine.UnlockRequest` | server/internal/sfu/engine.go:413-424 | in place: the unlock operation, refused exactly without host control |
| `SfuEngine.Engine.KickRequest` | server/internal/sfu/engine.go:426-439 | in place: the kick operation, refused exactly without host control |
| `SfuEngine.Engine.ClaimHost` | server/internal/sfu/engine.go:441-468 | in place: the claim operation |
| `SfuEngine.Engine.SetPresenterOnly` | server/internal/sfu/engine.go:470-479 | in place: the presenter-only operation |
| `SfuEngine.Engine.SetPresenter` | server/internal/sfu/engine.go:481-497 | in place: the presenter operation |
| `SfuEngine.Engine.HandleTrackState` | server/internal/sfu/engine.go:375-379 | in place: the report operation |
| `SfuEngine.Engine.HandleSubAnswer` | server/internal/sfu/engine.go:363-367 | in place: the answer operation |
| `SfuEngine.Engine.OnTrack` | server/internal/sfu/participant.go:318-361 | in place: the track operation; every track gets an identity of its own |
| `SfuEngine.Engine.Remove` | server/internal/sfu/room.go:131-187 | in place: participant, index entry, events and an empty room, against the removal of the model; the engine stays consistent |
| `SfuEngine.Engine.IsEmptyThenDelete` | server/internal/sfu/room.go:113-129 | the room is dropped exactly when it is the registered one and empty |
| `SfuEngine.Engine.Leave` | server/internal/sfu/engine.go:229-248 | in place: the leave operation |
| `SfuEngine.Engine.LeaveRoom` | server/internal/sfu/engine.go:317-331 | in place: targeted removal, reporting whether the user was in exactly that room |
| `SfuEngine.Engine.Attempt` | server/internal/sfu/engine.go:134-225 | in place: one pass of the join loop, including a room made and taken back |
| `SfuEngine.Engine.Join` | server/internal/sfu/engine.go:128-227 | in place: the whole retry loop ends, and equals the join of the model |
| `SfuEngine.Engine.RoomUserIDs` | server/internal/sfu/engine.go:292-308 | the members of a room, each once, in join order |
| `SfuEngine.Engine.CloseRoom` | server/internal/sfu/engine.go:333-340 | in place: the members leave in join order, the room is gone and every other room is untouched |
| `CallLog.Tables.Create` | server/internal/db/files_calls.go:225-236 | a new open row with the next id |
| `CallLog.Tables.Add` | server/internal/db/files_calls.go:271-292 | insert a participant, or let a join override what was there |
| `CallLog.Tables.Leave` | server/internal/db/files_calls.go:294-298 | set the leaving time once |
| `CallLog.Tables.Miss` | server/internal/db/files_calls.go:300-305 | mark as missed only somebody who never joined |
| `CallLog.Tables.End` | server/internal/db/files_calls.go:260-263 | close an open row |
| `RoomLog.CreationsAlternate` | server/internal/signaling/rooms.go:311-386 | between two creations of a room there is a close of it |
| `RoomLog.StepAgrees` | server/internal/signaling/rooms.go:311-386 | every engine operation keeps events lawful, the mirror's keys the live rooms, one open row per live room, and its joined-and-not-left users the current members |
| `RoomLog.LogAgrees` | server/internal/signaling/rooms.go:311-386 | all of that after every run of the engine alone, from any tables without open conference rows; and rooms list their members in the order of their last joins |
| `RoomLog.EarliestSucceeds` | server/internal/sfu/room.go:160-168 | in every run a leaving host is succeeded by the remaining member who has been in the room longest |
| `RoomLog.FiledUnderCreator` | server/internal/signaling/rooms.go:311-386 | replaying any events files the row of every live room under that room and under whoever created it last |
| `RoomLog.Hub.OnRoomEvent` | server/internal/signaling/rooms.go:310-386 | in place: one engine event into `roomCalls` and the tables, with zero as "no row" |
| `CallInvariants.EndPairing` | server/internal/signaling/calls.go:321-346 | an end removes exactly the two index entries of its call |
| `CallInvariants.EndKeeps` | server/internal/signaling/calls.go:321-346 | an end, expected or not, keeps the pairing, the timers, the count of ends and the history |
| `CallInvariants.AcceptKeeps` | server/internal/signaling/calls.go:304-319 | an accept keeps them |
| `CallInvariants.MissKeeps` | server/internal/signaling/calls.go:215-236 | a decline or ring timeout keeps them, and its missed mark never changes what the invitation already logged |
| `CallInvariants.InviteKeeps` | server/internal/signaling/calls.go:111-173 | an invitation, rung or logged as missed, keeps them |
| `CallInvariants.DropKeeps` | server/internal/signaling/calls.go:362-388 | arming a grace timer keeps them |
| `CallInvariants.OtherWriterKeeps` | server/internal/signaling/rooms.go:311-386 | other writers of the history that spare the rows of direct calls keep them |
| `CallInvariants.StepKeeps` | server/internal/signaling/calls.go:80-430 | every handler and timer callback keeps them |
| `CallInvariants.EveryRun` | server/internal/signaling/calls.go:80-430 | all of it after every run, with new call ids |
| `CallProperties.TwoPerCall` | server/internal/signaling/calls.go:161-163 | the index has exactly two entries per live call |
| `CallProperties.PairingHolds` | server/internal/signaling/calls.go:111-173 | in every run each live call is the call of exactly its two parties, and rings exactly while its ring timer is set |
| `CallProperties.ExactlyOneEnd` | server/internal/signaling/calls.go:292-346 | of any racing accept, decline, timeout, hangup and disconnect: a call once registered has ended exactly once if it is no longer live, and not at all while it is |
| `CallOutcomes.OpOutcome` | server/internal/signaling/calls.go:80-430 | what every handler and timer of direct calls achieves and exactly when: a decline by the callee of a ringing call, a hangup by a party, a ring timeout, a disconnect and a grace timer end the call; an accept by the callee of a ringing call makes it active; an invitation rings, or is a missed call, or leaves no trace; otherwise nothing changes, and never another call |
| `CallOutcomes.EndOutcome` | server/internal/signaling/calls.go:323-360 | an end takes the call from memory, frees exactly its two parties, closes its row with both parties left and the callee missed exactly if it still rang, is one new event, and touches no other call |
| `CallProperties.HistoryAgrees` | server/internal/signaling/calls.go:348-360 | in every run open rows of direct calls are exactly the rows of live calls, other rows have both parties marked left, row ids are positive, and the callee is marked missed exactly when the call was never accepted |
| `CallProperties.ConferencesSpareCalls` | server/internal/signaling/rooms.go:311-386 | what the hub writes for one conference event leaves the rows of direct calls alone |
| `CallProperties.CallsSpareConferences` | server/internal/signaling/calls.go:129-160 | what direct calls write leaves the rows of conferences alone |
| `CallProperties.MirrorUndisturbed` | server/internal/signaling/rooms.go:311-386 | so the conference half of the history stays right whatever direct calls do meanwhile |
| `SharedHistory.StepKeeps` | server/internal/signaling/rooms.go:311-386 | whichever of the two writes next, both halves of the shared history stay right |
| `SharedHistory.HistoryIsRight` | server/internal/signaling/rooms.go:311-386 | conferences and direct calls share the tables: in every run in which they take turns the open rows are exactly those of the live rooms and the live calls, a room's row shows exactly its members, and an ended direct call's row both parties gone and the callee missed exactly if it was never accepted |
| `CallProperties.StaleGraceIdles` | server/internal/signaling/calls.go:372-388 | a grace timer that was cancelled or replaced does nothing, however late its callback gets the lock |
| `CallProperties.GraceEndsWhateverCall` | server/internal/signaling/calls.go:372-388 | a grace timer ends the call it was armed for if and only if the user is still in it, and some other call if and only if that call is over and the user is in a new one |
| `CallRaces.GraceRun` | server/internal/signaling/calls.go:323-346 | a run of a new manager after which an old grace timer ends a new call of a user who is back |
| `CallProperties.GraceExample` | server/internal/signaling/calls.go:323-346 | such a run: an old grace timer ends a new call of a user who is back |
| `CallProperties.FirstCallLeavesTimer` | server/internal/signaling/calls.go:323-346 | ending a call leaves the grace timer armed |
| `CallRaces.TwoHalves` | server/internal/signaling/calls.go:196-204 | with nothing between them the two halves are an accept |
| `CallRaces.LagStep` | server/internal/signaling/calls.go:187-213 | between the halves every operation leaves memory as if the accept were complete, and the history behind by that one participant |
| `CallRaces.AcceptRace` | server/internal/signaling/calls.go:187-213 | with any run of call operations and other writers between the two halves of an accept, everything is right afterwards if and only if the call is still live then; otherwise its closed row shows the callee as present |
| `CallRaces.AcceptRaceRun` | server/internal/signaling/calls.go:187-213 | a run of a new manager that reaches it: a hangup between the halves |
| `P2PManager.Manager.End` | server/internal/signaling/calls.go:321-346 | in place: end a live call, or only one in the expected state, and say whether it did |
| `P2PManager.Manager.FinalizeDB` | server/internal/signaling/calls.go:348-360 | in place: both parties leave and the row is closed |
| `P2PManager.Manager.Accept` | server/internal/signaling/calls.go:304-319 | in place: the callee of a ringing call makes it active and stops its timer |
| `P2PManager.Manager.Timeout` | server/internal/signaling/calls.go:292-302 | in place: end a call only while it rings, and mark the callee |
| `P2PManager.Manager.Decline` | server/internal/signaling/calls.go:215-236 | in place: the same, for the callee only |
| `P2PManager.Manager.Hangup` | server/internal/signaling/calls.go:238-263 | in place: end a call for one of its parties |
| `P2PManager.Manager.OnDisconnect` | server/internal/signaling/calls.go:417-430 | in place: end whatever call the user is in |
| `P2PManager.Manager.ScheduleDisconnect` | server/internal/signaling/calls.go:362-388 | in place: arm a new grace timer for somebody in a call |
| `P2PManager.Manager.Resume` | server/internal/signaling/calls.go:390-403 | in place: disarm it for a party of that call, and say whether the call lives |
| `P2PManager.Manager.GraceFired` | server/internal/signaling/calls.go:372-387 | in place: a callback acts only if its timer is the one on record |
| `P2PManager.Manager.Invite` | server/internal/signaling/calls.go:111-173 | in place: refuse, log as missed, or register and ring |
| `LeaveTimers.StepArmed` | server/internal/signaling/hub.go:238-286 | timers on record keep the current token and their callback to come, whatever the order of callbacks |
| `LeaveTimers.StepSafe` | server/internal/signaling/hub.go:241-286 | the same for one step |
| `LeaveTimers.SafeIffNeverReissued` | server/internal/signaling/hub.go:241-286 | over whole runs, in whatever order callbacks get the lock: no superseded or cancelled callback would ever count if and only if no token is issued that a waiting callback of the same user carries |
| `LeaveTimers.StepKeeps` | server/internal/signaling/hub.go:238-286 | with callbacks in turn waiting callbacks have growing tokens, none beyond the current one, so no step issues a token that a waiting callback carries |
| `LeaveTimers.StaleNeverCounts` | server/internal/signaling/hub.go:271-286 | so with callbacks in turn no superseded or cancelled callback ever counts, although tokens are forgotten on expiry and start again from one |
| `LeaveTimers.OutOfTurn` | server/internal/signaling/hub.go:279-280 | a run out of turn in which a token is issued a second time and a superseded callback counts |
| `HubInvariants.ConnectKeeps` | server/internal/signaling/hub.go:163-210 | a connection that arrives or replaces another strands nobody |
| `HubInvariants.CloseKeeps` | server/internal/signaling/hub.go:212-234 | a connection that is torn down strands nobody |
| `HubInvariants.JoinKeeps` | server/internal/signaling/rooms.go:54-72 | a room join strands nobody |
| `HubInvariants.LeaveKeeps` | server/internal/signaling/rooms.go:91-97 | a room leave strands nobody |
| `HubInvariants.KickUserKeeps` | server/internal/signaling/hub.go:412-425 | a forced sign-out strands nobody and leaves its user in no room and no call |
| `HubInvariants.EvictKeeps` | server/internal/signaling/hub.go:427-443 | an eviction strands nobody if and only if its target is connected, in no room, or in that room |
| `HubInvariants.ExpireKeeps` | server/internal/signaling/hub.go:271-286 | a departure callback strands nobody, and when it counts its user is out of every room |
| `HubInvariants.CallOpKeeps` | server/internal/signaling/calls.go:362-430 | call messages, ring timers and grace timers strand nobody |
| `HubInvariants.StepKeeps` | server/internal/signaling/hub.go:163-458 | every operation of the hub but the excluded eviction |
| `HubProperties.StartIsSound` | server/internal/signaling/hub.go:70-107 | a new hub strands nobody |
| `HubOutcomes.OpOutcome` | server/internal/signaling/hub.go:163-458 | what every operation of the hub leads to and exactly when: who speaks for whom, who comes and goes in rooms and calls, which departures stand; messages of a connection that was replaced, closed or signed out have no effect |
| `HubOutcomes.ConnectOutcome` | server/internal/signaling/hub.go:163-210 | a new connection speaks for its user and the last one no longer does; then the departure stands, and the call is over, or after a return of the same device waits to be resumed |
| `HubOutcomes.JoinOutcome` | server/internal/signaling/rooms.go:34-72 | a join is turned down, without effect, exactly in a call, in another room or new to a full one; otherwise the user is seated as asked, an owner as the only host, and its departure no longer stands |
| `HubOutcomes.ClosingOutcome` | server/internal/signaling/hub.go:448-458 | closing a room takes out exactly its members and removes exactly it |
| `HubOutcomes.NeverInBoth` | server/internal/signaling/rooms.go:54-72 | in every run of a new hub, evictions included, nobody is in a room and in a call at once |
| `HubOutcomes.AbsentCanDepart` | server/internal/signaling/hub.go:241-286 | whoever is in a room without a connection has a timer that may run out, and whenever the callback then gets the lock they are out with everything they had |
| `HubProperties.DepartureTakesEffect` | server/internal/signaling/hub.go:212-286 | once a user's client is gone and does not come back, the callback of the departure armed then puts the user out of every room for good, whatever else happens before and after |
| `HubProperties.JoinOutcome` | server/internal/signaling/rooms.go:54-72 | a join is refused, without any effect, exactly for somebody in a call, in another room, or new to a full room; otherwise the user is in the room and the departure is cancelled |
| `HubProperties.StrandedOnlyByEviction` | server/internal/signaling/hub.go:163-458 | for all interleavings: every member of a room is connected or has an armed departure timer with the current token, and every party of a call is connected or has an armed grace timer, throughout the run, if and only if nobody offline is evicted from a room while being in another |
| `HubRuns.EvictionStrands` | server/internal/signaling/hub.go:427-443 | a run of a new hub in which an eviction strands somebody |
| `HubProperties.LateJoinStrands` | server/internal/signaling/client.go:199-201 | what the finishing gate is for: a join carried out for a client that was replaced strands its user if and only if it succeeds and nobody is connected for them |
| `HubProperties.LateMessageStrands` | server/internal/signaling/client.go:199-201 | the same for call messages: carried out late, an invitation that rings and a resume strand an offline user, and nothing else does |
| `HubProperties.MovesTimers` | server/internal/signaling/hub.go:163-458 | every operation of the hub is at most one operation on the departure timers |
| `HubProperties.SafeIffNeverReissued` | server/internal/signaling/hub.go:241-286 | in every hub run, in whatever order callbacks get the lock, no superseded or cancelled callback would ever count if and only if no token is issued that a waiting callback of the same user carries |
| `HubProperties.SafeInTurn` | server/internal/signaling/hub.go:241-286 | in hub runs with callbacks in turn no superseded callback ever counts |
| `HubRuns.OldCallbackRemoves` | server/internal/signaling/hub.go:271-286 | a run of a new hub, out of turn, in which a cancelled callback removes a connected member whose departure is not scheduled |
| `HubProperties.StaleRemovesNobody` | server/internal/signaling/hub.go:271-286 | where superseded callbacks do not count, one that gets the lock removes nobody and forgets no timer |
| `SignalingHub.Client.Finish` | server/internal/signaling/client.go:124-145 | in place: a connection is finished once |
| `SignalingHub.Departures.ScheduleRoomLeave` | server/internal/signaling/hub.go:238-256 | in place: stop the old timer, issue the next token, arm a new timer |
| `SignalingHub.Departures.CancelRoomLeave` | server/internal/signaling/hub.go:258-269 | in place: stop and drop the timer, and outdate waiting callbacks |
| `SignalingHub.Departures.Due` | server/internal/signaling/hub.go:271-281 | in place: does the callback's token still stand; if so timer and token are forgotten |
| `SignalingHub.Hub.Register` | server/internal/signaling/hub.go:163-210 | in place: the connect operation, for new, same-device and other-device connections |
| `SignalingHub.Hub.Unregister` | server/internal/signaling/hub.go:212-234 | in place: the disconnect operation |
| `SignalingHub.Hub.KickUser` | server/internal/signaling/hub.go:412-425 | in place: the forced sign-out |
| `SignalingHub.Hub.EvictFromGroupRoom` | server/internal/signaling/hub.go:427-443 | in place: the eviction, reporting whether the target was in that room |
| `SignalingHub.Hub.ExpireRoomLeave` | server/internal/signaling/hub.go:271-286 | in place: a departure callback, with iteration orders that fit |
| `SignalingHub.Hub.CloseRoom` | server/internal/signaling/hub.go:445-458 | in place: the members of exactly that room leave, and it is gone |
| `SignalingHub.Hub.HandleRoomJoin` | server/internal/signaling/rooms.go:54-72 | in place: the join asked for, of a user who is in no call, the cancelled departure, and the owner's claim |
| `SignalingHub.Hub.HandleRoomLeave` | server/internal/signaling/rooms.go:91-97 | in place: the leave operation |
| `SignalingHub.Hub.HandleCallInvite` | server/internal/signaling/calls.go:97-108 | in place: an invitation, refused while one of the two is in a room |
| `Interleaving.StepKeeps` | server/internal/signaling/calls.go:97-108 | every critical section of an invitation, a join and a removal, in any order, keeps: nobody is in a call and in a room, and what the lock holder has found out still holds |
| `Interleaving.NeverInBoth` | server/internal/signaling/rooms.go:54-72 | so in every interleaving no user is in a call and in a room |
| `HandlersAlone.InviteAlone` | server/internal/signaling/calls.go:80-173 | the steps of an invitation, undisturbed and in whatever order rooms are asked, leave the two in the new call exactly if they are two, neither was known to index, rooms or calls, and the callee was online, and otherwise change nothing |
| `HandlersAlone.Progress` | server/internal/signaling/calls.go:80-173 | each of those steps brings the handler nearer to its end and there always is a next one |
| `HandlersAlone.JoinAlone` | server/internal/sfu/engine.go:134-227 | the steps of an undisturbed join put the user into the room, after dropping a stale participant of theirs, unless it is in a call, in another room, resuming, or new to a full room; then nothing changes |
| `HandlersAlone.RemovalAlone` | server/internal/sfu/room.go:134-187 | the steps of an undisturbed removal take the user out, make the index forget it and close the room exactly behind the last member; of somebody who is not there they change nothing |
| `HandlersAlone.EndCallOutcome` | server/internal/signaling/calls.go:323-346 | when a call ends nobody is in it, and everybody else's call is as before |
| `Interleaving.IndexStep` | server/internal/sfu/engine.go:269-275 | a critical section keeps the membership index right if and only if it is not a release that comes after its user joined the same room again |
| `Interleaving.IndexedIffNeverLost` | server/internal/sfu/room.go:169-170 | over a whole run the index is right throughout if and only if no release comes that late |
| `Interleaving.RejoinIsOverdue` | server/internal/sfu/room.go:131-170 | being taken out and joining again before the release leads there |
| `Interleaving.TwoRooms` | server/internal/sfu/engine.go:269-275 | from there one user ends up in two rooms |
| `Interleaving.TwoRoomsRun` | server/internal/sfu/engine.go:269-275 | a run from the start that leads to it |
| `PrivateRooms.StepKeeps` | server/internal/signaling/private_rooms.go:47-190 | every operation keeps the balance of parked attempts, admissions and bypasses, and entries with connected users |
| `PrivateRooms.GateHolds` | server/internal/signaling/private_rooms.go:47-190 | in every run, per room and user: joins that skip the checks are at most the owner's admissions, those at most the attempts parked after passing the invitation and passcode checks, all counted over the operations of the run; and every entry belongs to a connected user |
| `PrivateRooms.RunCounts` | server/internal/signaling/private_rooms.go:76-158 | bypasses, admissions and parked attempts happen in exactly those operations |
| `GateProperties.AttemptOutcome` | server/internal/signaling/private_rooms.go:110-158 | an attempt may proceed if and only if the room is there and the user is its owner, or holds an approval, or is invited with the right passcode to a room without approvals; it spends the approval, is put on the list, or changes nothing |
| `GateProperties.AnswerOutcome` | server/internal/signaling/private_rooms.go:168-190 | only the owner's answer to somebody who waits counts: it ends the wait and approves exactly if it admits |
| `GateProperties.ApprovalsAreAdmissions` | server/internal/signaling/private_rooms.go:47-104 | in every run an approval stands if and only if the owner admitted that user and nothing has taken that back since: no departure, no join that spent it |
| `GateProperties.WaitsAreRequests` | server/internal/signaling/private_rooms.go:47-104 | in every run somebody waits if and only if they asked, passed the checks, and were neither answered nor away since |
| `GateProperties.OnlyTheEntitledGetIn` | server/internal/signaling/private_rooms.go:110-158 | in every run exactly these attempts get in: the owner's, those with everything a room without approvals asks for, and those of somebody whose earlier request passed the checks and was admitted, and who was there ever since without joining on it |
| `GateProperties.RefusedLeavesNoTrace` | server/internal/signaling/private_rooms.go:127-144 | in every run an attempt that neither gets in nor is put on the list changes nothing |
| `PrivateRooms.LateApproval` | server/internal/signaling/private_rooms.go:168-190 | with any run between the two halves of an admission, entries stay with connected users if and only if the requester is connected when the second half comes |
| `PrivateRooms.LateApprovalRun` | server/internal/signaling/private_rooms.go:168-190 | a run from the start in which a user who disconnects while being admitted later passes without any check |
| `PrivateRooms.PrivateRoomGate.MarkPending` | server/internal/signaling/private_rooms.go:47-54 | in place |
| `PrivateRooms.PrivateRoomGate.ClearPending` | server/internal/signaling/private_rooms.go:56-65 | in place, reporting whether there was a request |
| `PrivateRooms.PrivateRoomGate.MarkApproved` | server/internal/signaling/private_rooms.go:67-74 | in place |
| `PrivateRooms.PrivateRoomGate.ConsumeApproved` | server/internal/signaling/private_rooms.go:76-85 | in place, reporting and clearing a one-time approval |
| `PrivateRooms.PrivateRoomGate.DropUserEverywhere` | server/internal/signaling/private_rooms.go:95-104 | in place: the two loops clear the user from every room |
| `PrivateRooms.PrivateRoomGate.AuthorizePrivateRoomJoin` | server/internal/signaling/private_rooms.go:110-158 | in place: every check in order |
| `PrivateRooms.PrivateRoomGate.RespondToJoinRequest` | server/internal/signaling/private_rooms.go:168-190 | in place: the owner's answer |
| `Limiters.LessThanTwiceMax` | server/internal/signaling/client.go:43-56 | any closed interval of one window length has at most 2*max - 1 grants, or max if the length is zero |
| `Limiters.CeilingIsReached` | server/internal/signaling/client.go:43-56 | and that many can happen, for every maximum and window length |
| `Limiters.SameStep` | server/internal/auth/limiter.go:60-138 | tables that agree on what has not run out give the same answers and still agree, and a cleanup keeps them agreeing |
| `Limiters.CleanupIsInvisible` | server/internal/auth/limiter.go:59-78 | running the cleanup pass at any moments never changes any answer |
| `Limiters.ReservedIsGranted` | server/internal/auth/limiter.go:80-102 | for one key without refunds and successes, the login limiter grants exactly what the fixed window grants |
| `Limiters.ReservedLessThanTwiceMax` | server/internal/auth/limiter.go:80-102 | so a key gets no more than that in any window length |
| `Limiters.GrantsWithinWindow` | server/internal/auth/limiter.go:80-132 | within one window of a key grants are at most max plus the refunds |
| `Limiters.RefusedMeansUsedUp` | server/internal/auth/limiter.go:80-102 | a key is refused only within a window in which at least max requests were granted |
| `Limiters.OpOutcome` | server/internal/auth/limiter.go:89-138 | a reservation is granted exactly while fewer than max attempts count, and counts; asking hears the same and counts nothing; a refund gives one back, a success all; none of them opens, closes or moves a window of another key |
| `Limiters.RefundUndoes` | server/internal/auth/limiter.go:121-132 | after a granted reservation and its refund as many attempts count, now and at any later time, as if neither had happened |
| `Limiters.SuccessStartsOver` | server/internal/auth/limiter.go:134-138 | after a success max further attempts for the key are granted before one is refused, whatever other requests come between |
| `Limiters.AskingIsInvisible` | server/internal/auth/limiter.go:104-119 | asking whether a key is allowed, at any moments, never changes what is granted |
| `LimiterState.MsgRateLimiter.Allow` | server/internal/signaling/client.go:43-56 | in place |
| `LimiterState.LoginLimiter.Reserve` | server/internal/auth/limiter.go:89-102 | in place: check and count in one go |
| `LimiterState.LoginLimiter.Allowed` | server/internal/auth/limiter.go:107-119 | in place: the read that also drops an expired entry |
| `LimiterState.LoginLimiter.Refund` | server/internal/auth/limiter.go:126-132 | in place |
| `LimiterState.LoginLimiter.Success` | server/internal/auth/limiter.go:134-138 | in place |
| `LimiterState.LoginLimiter.CleanupPass` | server/internal/auth/limiter.go:68-73 | in place: the deleting loop over the table |
| `Paging.FetchReversed` | server/internal/db/chat.go:454-485 | the newest-first answer of the query turned round is the page: the newest `limit` messages before the cursor, oldest first |
| `Paging.Reverse` | server/internal/db/chat.go:481-483 | in place: swapping from both ends reverses the array |
| `Paging.ListMessages` | server/internal/db/chat.go:454-490 | the returned array is the page |
| `Paging.OlderUndisturbed` | server/internal/db/chat.go:458-461 | newer inserts do not change what precedes a cursor |
| `Paging.PageSplits` | server/internal/db/chat.go:462-463 | a page and what is older than its first message make up everything before the cursor, for any limit from one |
| `Paging.Paged` | server/internal/api/chat_handlers.go:111-120 | a limit from 1 to 200 and a positive cursor are taken as asked, and no other cursor is; so the limit is at least one |
| `Paging.PagingYieldsHistory` | server/internal/api/chat_handlers.go:111-120 | paging back with any limit ends and yields the whole conversation once each in id order, whatever is inserted meanwhile |
| `Paging.NewestAreLast` | server/internal/db/chat.go:552-558 | each row of the recents query is the last message of its conversation, and no peer comes twice |
| `Paging.NewestAreAll` | server/internal/db/chat.go:552-558 | below the limit no conversation is missing |
| `Paging.RecentDirectPeers` | server/internal/db/chat.go:549-577 | each peer's entry is the last element of the history with that peer |
| `Accounts.GroupStep` | server/internal/api/chat_handlers.go:122-616 | every group request, account request and purge keeps: each group's creator is a member with role owner or admin, and an owner row is only the creator's |
| `Accounts.CreatorInCharge` | server/internal/db/chat.go:594-629 | so in every run of requests |
| `Accounts.PurgeIsExact` | server/internal/db/users.go:323-377 | a purge deletes exactly the account's groups that nobody else is in, keeps the creator of all others' groups, and hands each remaining one to another member, an admin if there is one |
| `Accounts.HeirExists` | server/internal/db/users.go:350-352 | a group with other members has exactly one heir |
| `Accounts.PromptRemoval` | server/internal/api/chat_handlers.go:589-600 | directly after its guard the statement behind a removal is the removal |
| `Accounts.LateRemoval` | server/internal/api/chat_handlers.go:589-600 | with any run of other requests between the guard of a removal and the removal, every creator stays in charge if and only if the one removed is not by then the creator |
| `Accounts.LateRemovalRun` | server/internal/api/chat_handlers.go:589-600 | a run from empty tables in which a late removal leaves a group without its creator |
| `Accounts.AdminStep` | server/internal/api/users_handlers.go:176-230 | no update or deletion takes the last enabled administrator away |
| `Accounts.NeverWithoutAdmin` | server/internal/api/users_handlers.go:347-381 | once there is an enabled administrator no sequence of requests leaves none |
| `AccountOutcomes.OpOutcome` | server/internal/api/chat_handlers.go:148-616 | what every request leads to and exactly when it is granted: who may found, extend, rank, leave and delete groups; an account update or deletion is refused exactly if it is of oneself in rank, disabling or existence, of a missing or deleted account, or would leave nobody else to administer; nothing else changes |
| `AccountOutcomes.PurgeOutcome` | server/internal/db/users.go:323-377 | a purge removes the account from the accounts and from every group, deletes exactly its groups with nobody else, hands on its others and keeps everybody else's role |
| `AccountOutcomes.DeletedForGood` | server/internal/db/users.go:308-321 | in every run a deleted account is disabled and no administrator, and stays exactly so until it is purged |
| `AccountOutcomes.NoTrace` | server/internal/db/users.go:323-377 | in every run no group has an account that is not there as a member or creator |
| `AccountTables.Db.CountEnabledAdmins` | server/internal/db/users.go:97-101 | the size of the set of enabled administrators |
| `AccountTables.Db.CreateGroup` | server/internal/db/chat.go:594-629 | in place: the loop with its seen set makes the roster |
| `AccountTables.Db.AddGroupMembers` | server/internal/db/chat.go:883-899 | in place: the loop adds exactly those not yet in the group |
| `AccountTables.Db.RemoveGroupMember` | server/internal/db/chat.go:901-906 | in place |
| `AccountTables.Db.SetGroupMemberRole` | server/internal/db/chat.go:712-717 | in place: an owner row is left alone |
| `AccountTables.Db.UpdateFields` | server/internal/db/users.go:239-276 | in place: field by field |
| `AccountTables.Db.AnonymizeUser` | server/internal/db/users.go:308-315 | in place |
| `AccountTables.Db.FindHeir` | server/internal/db/users.go:350-352 | administrators first, then the smallest id, or nobody |
| `AccountTables.Db.PurgeUser` | server/internal/db/users.go:323-377 | in place: the loop over the account's groups and the cascade |
| `AccountTables.Db.HandleUpdateUser` | server/internal/api/users_handlers.go:176-268 | in place, with every guard |
| `AccountTables.Db.HandleDeleteUser` | server/internal/api/users_handlers.go:347-410 | in place, with every guard |
| `AccountTables.Db.CanManageGroup` | server/internal/api/chat_handlers.go:125-131 | owner, site admin or group admin |
| `AccountTables.Db.HandleRemoveGroupMember` | server/internal/api/chat_handlers.go:567-600 | in place, with every guard |
| `AccountTables.Db.HandleSetGroupMemberRole` | server/internal/api/chat_handlers.go:287-324 | in place, with every guard |
| `AccountTables.Db.HandleCreateGroup` | server/internal/api/chat_handlers.go:148-176 | in place, with the check of every listed id |
| `AccountTables.Db.HandleAddGroupMembers` | server/internal/api/chat_handlers.go:526-560 | in place, with the check of every listed id |
| `Rebind.Rebind` | server/internal/db/db.go:194-226 | the loop with its lookahead for doubled quotes gives the rewriting that only counts quotes |
| `Rebind.PlacesAreTheQuestionMarks` | server/internal/db/db.go:216-219 | the places rewritten are exactly the question marks before which an even number of quotes has gone, in order |
| `Rebind.RewrittenIsSpliced` | server/internal/db/db.go:200-226 | the result is the query cut at those places with $1, $2, ... put in from left to right, everything else unchanged |
| `Rebind.NothingToReplace` | server/internal/db/db.go:198-200 | a query without question marks stays as it is |
| `Rebind.ItoaRoundTrip` | server/internal/db/db.go:219 | the number written after the dollar sign reads back as that number |

## Left out

- WebRTC itself: peer connections are reduced to the set of tracks in the last offer and the last answered one; adding and removing tracks and creating offers succeed; session descriptions, candidates and the queue of early candidates are not modelled.
- The time limit of a screen announcement and the health of a stale participant's peer connections are the parameters `recent` and `alive`.
- Broadcasts of changed infos and messages to clients: only the events created, joined, left and closed are modelled, since they alone are mirrored into the history.
- Display names, avatars, statuses, devices of other users and everything else that is only passed through.
- The second search at the end of leaving (engine.go:235-247): `SfuEngine.Engine.IndexDecides` shows that in a consistent engine it finds nobody.
- `SfuEngine.Engine.Remove`: the room, the index and the other participants change in one step; what can come between the first two is modelled in `Interleaving`, what can come between the closing of tracks for one member and the next is not.
- `SfuRoom.Room.Publish`: the fan-out to the other members is part of the step, although it happens after the room's lock is released.
- `SfuEngine.Engine.Join`: creating a peer connection never fails.
- `CallInvariants.EveryRun`: call ids are assumed to be new, and so in `HubOutcomes.NeverInBoth`; a client may send one that was used before.
- `LeaveTimers.StaleNeverCounts`: callbacks of one user are assumed to get the lock in the order in which their timers ran out; `LeaveTimers.SafeIffNeverReissued` says what holds otherwise.
- `HubProperties.StrandedOnlyByEviction`: a message is handled in one step with the check that its connection is not finishing; `HubProperties.LateJoinStrands` and `HubProperties.LateMessageStrands` are about the step between.
- `PrivateRooms.PrivateRoomGate.AuthorizePrivateRoomJoin`: whether the room exists, whose it is, the invitation and the passcode (with its limiter) are answers given as parameters.
- `Limiters.LessThanTwiceMax`: one reading of the clock per call, and time never goes back.
- `Paging.PagingYieldsHistory`: messages are inserted but not deleted while somebody pages; the query is modelled by its meaning.
- `Accounts.CreatorInCharge`: one request is one step; names, topics, icons, passwords and e-mail addresses are not modelled, and of the tables only accounts, groups and memberships.
- `AccountTables.Db.HandleCreateGroup`: the caller's own account exists.
- `Rebind.Rebind`: SQLite and Postgres; the MySQL rewriting is a regular expression and not part of this model. Characters are code points.
- Handlers that only forward (accepting, declining and hanging up through a connection, ringing notices, relayed signaling, host controls of a connection) have no method of their own on the hub object; their operations are steps of `HubModel`.
- Tokens and counters are unbounded numbers; the original's wrap around after 2^63 or 2^64 steps.
- Database errors, server shutdown, sessions and authentication, chat delivery, files, settings, backups, and the web client.
