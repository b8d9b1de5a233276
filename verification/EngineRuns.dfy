/** Runs of a new engine that reach the states in which it keeps its promises no longer. */
module EngineRuns {
  import opened Media
  import opened RoomModel
  import opened RoomInvariants
  import opened EngineModel
  import opened EngineInvariants
  import RoomOperations
  import RoomMembership
  import RoomEffects
  import Subscriber

  const ROOM := "group:1"

  const SOLO := Enter(EMPTY, 1, true, [])
  const PAIR := Enter(SOLO, 2, true, [])

  /** Users 1 and 2 are in the only room, which is `r`, and 1 is its host. */
  ghost predicate Looks(e: Engine, r: Room) {
    e.rooms == map[ROOM := r] && e.users == map[1 := ROOM, 2 := ROOM] && 2 in r.members && IsHost(r, 1)
  }

  lemma PairFacts()
    ensures PAIR.tracks == map[] && PAIR.parked == map[] && PAIR.locked == {} && PAIR.presenters == {} && !PAIR.presenterOnly
    ensures PAIR.members.Keys == {1, 2} && PAIR.order == [1, 2] && IsHost(PAIR, 1)
    ensures !PAIR.members[2].info.host && !PAIR.members[2].info.screen && !PAIR.members[2].info.locked
    ensures SOLO.tracks == map[] && SOLO.members.Keys == {1}
  {
    hide Subscriber.AddAll;
    RoomEffects.EnterEffect(EMPTY, 1, true, []);
    RoomEffects.EnterEffect(SOLO, 2, true, []);
  }

  /** 1 opens the room and 2 joins. */
  lemma TwoJoin(max: int) returns (ops: seq<Op>)
    requires max >= 2
    ensures Possible(New(max), ops) && Looks(Run(New(max), ops), PAIR) && Run(New(max), ops).serial == 0
  {
    var a := JoinOp(ROOM, 1, true, false, false, map[], []);
    var b := JoinOp(ROOM, 2, true, false, false, map[], []);
    var e0 := New(max);
    PairFacts();
    FirstJoins(max);
    SecondJoins(Step(e0, a));
    assert Possible(e0, []) && Run(e0, []) == e0 && [] + [a] == [a];
    hide Run, Possible, Step, Enabled, Looks;
    OneMore(e0, [], a);
    OneMore(e0, [a], b);
    ops := [a] + [b];
  }

  lemma FirstJoins(max: int)
    requires max >= 2
    ensures var a := JoinOp(ROOM, 1, true, false, false, map[], []); var e := Step(New(max), a);
            && Enabled(New(max), a) && e.rooms == map[ROOM := SOLO] && e.users == map[1 := ROOM] && e.serial == 0 && e.max == max
  {
    assert PublishedByOthers(EMPTY, 1) == {};
    hide Enter;
  }

  lemma SecondJoins(e: Engine)
    requires e.rooms == map[ROOM := SOLO] && e.users == map[1 := ROOM] && e.serial == 0 && e.max >= 2
    ensures var b := JoinOp(ROOM, 2, true, false, false, map[], []); var f := Step(e, b);
            && Enabled(e, b) && Looks(f, PAIR) && f.serial == 0
  {
    PairFacts();
    assert PublishedByOthers(SOLO, 2) == {};
    assert |SOLO.members.Keys| == |SOLO.members|;
    hide Enter;
  }

  /** What an operation of one of the two makes of the room. */
  function After(r: Room, op: Op, n: nat): Room {
    match op
    case OnTrackOp(u, remote, recent) => OnTrack(r, u, remote, recent, n)
    case MuteOp(_, u, _, lock) => Mute(r, u, lock)
    case UnlockOp(_, u, _) => Unlock(r, u)
    case TrackStateOp(u, st) => OnTrackState(r, u, st)
    case PresenterOnlyOp(_, enabled, _) => SetPresenterOnly(r, enabled)
    case _ => r
  }

  /** 1 uses the host controls, 2 sends streams and reports. */
  predicate ByThePair(op: Op) {
    match op
    case OnTrackOp(u, _, _) => u == 2
    case TrackStateOp(u, _) => u == 2
    case MuteOp(asker, u, _, _) => asker == 1 && u == 2
    case UnlockOp(asker, u, _) => asker == 1 && u == 2
    case PresenterOnlyOp(asker, _, _) => asker == 1
    case _ => false
  }

  lemma Acts(max: int, ops: seq<Op>, op: Op, r: Room) returns (more: seq<Op>)
    requires Possible(New(max), ops) && Looks(Run(New(max), ops), r) && ByThePair(op)
    ensures var e, f := Run(New(max), ops), Run(New(max), more);
            && Possible(New(max), more) && Looks(f, After(r, op, e.serial))
            && f.serial == (if op.OnTrackOp? then e.serial + 1 else e.serial)
            && Ok(r, e.serial) && Ok(After(r, op, e.serial), f.serial)
  {
    hide Run, Possible, Ok, Inv, After, Step, Enabled;
    var e := Run(New(max), ops);
    EveryRun(max, ops);
    RoomOk(e, ROOM);
    StepIs(e, r, op);
    OneMore(New(max), ops, op);
    more := ops + [op];
    EveryRun(max, more);
    RoomOk(Run(New(max), more), ROOM);
  }

  lemma StepIs(e: Engine, r: Room, op: Op)
    requires Looks(e, r) && ByThePair(op) && Ok(r, e.serial)
    ensures Enabled(e, op)
    ensures var f := Step(e, op); Looks(f, After(r, op, e.serial)) && f.serial == (if op.OnTrackOp? then e.serial + 1 else e.serial)
  {
    SamePeople(r, op, e.serial);
    PairControls(e, r);
    StillLooks(e, r, After(r, op, e.serial));
    hide OnTrack, Mute, Unlock, OnTrackState, SetPresenterOnly, Ok, InRoom, Controls, RoomOf, InfoOf, Looks, IsHost, WithRoom;
  }

  lemma PairControls(e: Engine, r: Room)
    requires Looks(e, r)
    ensures InRoom(e, 1) && InRoom(e, 2) && RoomOf(e, 1) == r && RoomOf(e, 2) == r && InfoOf(e, 1).host
    ensures e.users[1] == ROOM && e.users[2] == ROOM && forall b :: Controls(e, 1, 2, b)
  {
  }

  lemma StillLooks(e: Engine, r: Room, s: Room)
    requires Looks(e, r) && IsHost(s, 1) && 2 in s.members
    ensures Looks(WithRoom(e, ROOM, s), s) && forall n: nat :: Looks(WithRoom(e, ROOM, s).(serial := n), s)
    ensures WithRoom(e, ROOM, s).serial == e.serial
  {
  }

  lemma SamePeople(r: Room, op: Op, n: nat)
    requires Ok(r, n) && ByThePair(op) && IsHost(r, 1) && 2 in r.members
    ensures var s := After(r, op, n); IsHost(s, 1) && 2 in s.members
  {
    hide Ok, OnTrack, Mute, OnTrackState, SetPresenterOnly, MicsExact;
    match op
    case OnTrackOp(u, remote, recent) => RoomOperations.OnTrackKeeps(r, u, remote, recent, n);
    case MuteOp(_, u, _, lock) => RoomOperations.MuteShape(r, u, lock);
    case UnlockOp(_, u, _) =>
    case TrackStateOp(u, st) => RoomOperations.OnTrackStateKeeps(r, u, st, n);
    case PresenterOnlyOp(_, enabled, _) => SetPresenterOnlyAt(r, enabled);
  }

  // ---- a mic that is no longer published ----

  const REPORT := TrackState(false, true, false)

  lemma ReportOnlyAdds(r: Room, u: UserId, st: TrackState, v: UserId)
    requires u in r.members && v in r.members && !(r.members[u].info.screen && !st.screen)
    ensures v in OnTrackState(r, u, st).members
    ensures r.members[v].sub.senders <= OnTrackState(r, u, st).members[v].sub.senders
  {
  }

  /**
   2 publishes a mic, is muted by the host, publishes another mic, and unmutes. The other mic is replaced
   by the withheld one, yet 1 is still sent both.
   */
  lemma StaleMicRun(max: int) returns (ops: seq<Op>)
    requires max >= 2
    ensures Possible(New(max), ops) && ROOM in Run(New(max), ops).rooms && 1 in Run(New(max), ops).rooms[ROOM].members
    ensures var r := Run(New(max), ops).rooms[ROOM]; var first, second := Track(2, Mic, 0), Track(2, Mic, 1);
            IsLive(r, first) && !IsLive(r, second) && {first, second} <= r.members[1].sub.senders
  {
    hide Run, Possible, Ok, Mute, OnTrack, OnTrackState, Enter, Inv;
    PairFacts();
    var mic, mute, report := OnTrackOp(2, Mic, false), MuteOp(1, 2, false, false), TrackStateOp(2, REPORT);
    var r1 := OnTrack(PAIR, 2, Mic, false, 0);
    var r2 := Mute(r1, 2, false);
    var r3 := OnTrack(r2, 2, Mic, false, 1);
    var r4 := OnTrackState(r3, 2, REPORT);
    ops := TwoJoin(max);
    ops := Acts(max, ops, mic, PAIR);
    ops := Acts(max, ops, mute, r1);
    ops := Acts(max, ops, mic, r2);
    ops := Acts(max, ops, report, r3);
    hide Enter;
    Fates(r1, r2, r3, r4);
    Heard(r3, 2, Track(2, Mic, 1));
    Heard(r4, 2, Track(2, Mic, 0));
    ReportOnlyAdds(r3, 2, REPORT, 1);
  }

  /** Where the two mics are at each step. */
  lemma Fates(r1: Room, r2: Room, r3: Room, r4: Room)
    requires Ok(r3, 2) && 2 in PAIR.members && 2 in r1.members && 2 in r2.members && 2 in r3.members
    requires r1 == OnTrack(PAIR, 2, Mic, false, 0) && r2 == Mute(r1, 2, false) && r3 == OnTrack(r2, 2, Mic, false, 1)
    requires r4 == OnTrackState(r3, 2, REPORT) && PAIR.locked == {} && !PAIR.members[2].info.screen
    ensures IsLive(r3, Track(2, Mic, 1)) && IsLive(r4, Track(2, Mic, 0)) && !IsLive(r4, Track(2, Mic, 1))
    ensures !r3.members[2].info.screen
  {
    RoomEffects.ArrivalEffect(PAIR, 2, Mic, false, 0);
    RoomEffects.MuteEffect(r1, 2, false);
    RoomEffects.ArrivalEffect(r2, 2, Mic, false, 1);
    RoomEffects.ReportTracks(r3, 2, REPORT, 2);
    hide OnTrack, Mute, OnTrackState, Enter;
  }

  lemma Heard(r: Room, n: nat, t: Track)
    requires Ok(r, n) && IsHost(r, 1) && IsLive(r, t) && t.owner == 2
    ensures t in r.members[1].sub.senders
  {
  }

  // ---- a host that may not present ----

  /** 1 restricts presenting and leaves; 2 is host and may not present. */
  lemma PromotedHostRun(max: int) returns (ops: seq<Op>)
    requires max >= 2
    ensures Possible(New(max), ops) && ROOM in Run(New(max), ops).rooms
    ensures var r := Run(New(max), ops).rooms[ROOM]; IsHost(r, 2) && !r.members[2].info.canPresent
  {
    hide Run, Possible, Ok, SetPresenterOnly, Leave;
    PairFacts();
    ops := TwoJoin(max);
    ops := Acts(max, ops, PresenterOnlyOp(1, true, false), PAIR);
    var e := Run(New(max), ops);
    EveryRun(max, ops);
    SetPresenterOnlyAt(PAIR, true);
    var leave := LeaveOp(1, map[]);
    HostLeaves(e, SetPresenterOnly(PAIR, true));
    OneMore(New(max), ops, leave);
    ops := ops + [leave];
    hide Enter, Inv;
  }

  lemma HostLeaves(e: Engine, r: Room)
    requires Inv(e) && Looks(e, r) && r.order == [1, 2] && r.presenterOnly && 2 !in r.presenters && r.tracks == map[]
    ensures Enabled(e, LeaveOp(1, map[]))
    ensures var f := Step(e, LeaveOp(1, map[]));
            ROOM in f.rooms && IsHost(f.rooms[ROOM], 2) && !f.rooms[ROOM].members[2].info.canPresent
  {
    RoomOk(e, ROOM);
    hide Ok, Leave, Inv, DropOrders;
    NothingToDrop(r);
    WithoutFirst(1, 2);
    RoomMembership.PromotedMayPresent(r, 1, map[], e.serial);
    LeaveInPair(e, r);
  }

  lemma NothingToDrop(r: Room)
    requires r.tracks == map[]
    ensures DropOrders(r, 1, map[])
  {
    assert PublishedBy(r, 1) == {};
  }

  lemma LeaveInPair(e: Engine, r: Room)
    requires Looks(e, r) && DropOrders(r, 1, map[]) && IsHost(Leave(r, 1, map[]), 2)
    ensures Enabled(e, LeaveOp(1, map[]))
    ensures var f := Step(e, LeaveOp(1, map[])); ROOM in f.rooms && f.rooms[ROOM] == Leave(r, 1, map[])
  {
    hide Leave, DropOrders;
    assert Leave(r, 1, map[]).members != map[];
  }

  lemma WithoutFirst(u: UserId, v: UserId)
    requires u != v
    ensures Without([u, v], u) == [v]
  {
    assert [u, v][..1] == [u] && [u][..0] == [];
    assert Without([u], u) == Without([], u) == [];
  }

  // ---- a lock that is not shown ----

  /** 2 is muted with a lock and then without one: it is still locked, and nobody is shown that. */
  lemma HiddenLockRun(max: int) returns (ops: seq<Op>)
    requires max >= 2
    ensures Possible(New(max), ops) && ROOM in Run(New(max), ops).rooms
    ensures var r := Run(New(max), ops).rooms[ROOM]; 2 in r.members && 2 in r.locked && !r.members[2].info.locked
  {
    hide Run, Possible, Ok, Mute;
    var r1 := Mute(PAIR, 2, true);
    PairFacts();
    ops := TwoJoin(max);
    ops := Acts(max, ops, MuteOp(1, 2, false, true), PAIR);
    RoomEffects.MuteEffect(PAIR, 2, true);
    ops := Acts(max, ops, MuteOp(1, 2, false, false), r1);
    RoomEffects.MuteEffect(r1, 2, false);
    hide Enter;
  }
}
