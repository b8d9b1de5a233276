/**
 What the hub makes of the engine's events. In every run created and closed events alternate per
 room, joins and leaves alternate per member, and replaying the events into the call tables keeps
 exactly one open row per live room, with exactly its members present.
 */
module RoomLog {
  import opened Media
  import opened EngineModel
  import opened RoomModel
  import EngineInvariants
  import RoomInvariants
  import RoomMembership
  import CallLog
  import Subscriber

  // ---- the hub's mirror ----

  /** `calls` maps each live room to its open row. */
  datatype Mirror = Mirror(calls: map<RoomId, nat>, log: CallLog.Log)

  function OnEvent(m: Mirror, ev: Event): Mirror {
    match ev
    case Created(r, u) =>
      var id := m.log.next;
      Mirror(m.calls[r := id],
             CallLog.AddParticipant(CallLog.CreateCall(m.log, r, u, true), id, u, true))
    case Joined(r, u) =>
      if r in m.calls then m.(log := CallLog.AddParticipant(m.log, m.calls[r], u, true)) else m
    case Left(r, u) =>
      if r in m.calls then m.(log := CallLog.ParticipantLeft(m.log, m.calls[r], u)) else m
    case Closed(r) =>
      if r in m.calls then Mirror(m.calls - {r}, CallLog.EndCall(m.log, m.calls[r])) else m
  }

  function Replay(m: Mirror, es: seq<Event>): Mirror {
    if es == [] then m else OnEvent(Replay(m, es[..|es| - 1]), es[|es| - 1])
  }

  // ---- what the events alone say ----

  /** Is room `r` open after `es`? */
  predicate Live(es: seq<Event>, r: RoomId) {
    es != [] && match es[|es| - 1]
                case Created(q, _) => q == r || Live(es[..|es| - 1], r)
                case Closed(q) => q != r && Live(es[..|es| - 1], r)
                case _ => Live(es[..|es| - 1], r)
  }

  /** Is `u` in room `r` after `es`? */
  predicate Inside(es: seq<Event>, r: RoomId, u: UserId) {
    es != [] && match es[|es| - 1]
                case Joined(q, v) => (q == r && v == u) || Inside(es[..|es| - 1], r, u)
                case Left(q, v) => !(q == r && v == u) && Inside(es[..|es| - 1], r, u)
                case _ => Inside(es[..|es| - 1], r, u)
  }

  /** How many events had happened when `u` last joined `r`; zero if never. */
  function JoinTime(es: seq<Event>, r: RoomId, u: UserId): nat {
    if es == [] then 0
    else if es[|es| - 1] == Joined(r, u) then |es|
    else JoinTime(es[..|es| - 1], r, u)
  }

  lemma {:induction false} JoinTimeBound(es: seq<Event>, r: RoomId, u: UserId)
    ensures JoinTime(es, r, u) <= |es|
  {
    if es != [] { JoinTimeBound(es[..|es| - 1], r, u); }
  }

  /** May `ev` come next: rooms open and close in turn, members join and leave open rooms in turn. */
  predicate MayFollow(es: seq<Event>, ev: Event) {
    match ev
    case Created(r, _) => !Live(es, r)
    case Joined(r, u) => Live(es, r) && !Inside(es, r, u)
    case Left(r, u) => Live(es, r) && Inside(es, r, u)
    case Closed(r) => Live(es, r)
  }

  predicate Lawful(es: seq<Event>) {
    es == [] || (Lawful(es[..|es| - 1]) && MayFollow(es[..|es| - 1], es[|es| - 1]))
  }

  /** Between two creations of a room there is a close of it. */
  lemma {:induction false} CreationsAlternate(es: seq<Event>, i: nat, j: nat)
    requires Lawful(es) && i < j < |es| && es[i].Created? && es[j].Created? && es[i].room == es[j].room
    ensures exists k :: i < k < j && es[k] == Closed(es[i].room)
  {
    if j < |es| - 1 {
      CreationsAlternate(es[..|es| - 1], i, j);
      var k :| i < k < j && es[..|es| - 1][k] == Closed(es[i].room);
      assert es[k] == Closed(es[i].room);
    } else {
      ClosedSince(es[..j], i);
      var k :| i < k < j && es[..j][k] == Closed(es[i].room);
      assert es[k] == Closed(es[i].room);
    }
  }

  lemma {:induction false} ClosedSince(es: seq<Event>, i: nat)
    requires i < |es| && es[i].Created? && !Live(es, es[i].room)
    ensures exists k :: i < k < |es| && es[k] == Closed(es[i].room)
  {
    var last := |es| - 1;
    if es[last] != Closed(es[i].room) {
      assert i != last;
      ClosedSince(es[..last], i);
      var k :| i < k < last && es[..last][k] == Closed(es[i].room);
      assert es[k] == Closed(es[i].room);
    }
  }

  // ---- agreement with the engine, stated over who is in which room ----

  type Rooms = map<RoomId, set<UserId>>

  function Membership(e: Engine): Rooms {
    map r | r in e.rooms :: e.rooms[r].members.Keys
  }

  ghost predicate EventsAgree(es: seq<Event>, rooms: Rooms) {
    && Lawful(es)
    && (forall r :: Live(es, r) <==> r in rooms)
    && (forall r, u :: Inside(es, r, u) <==> r in rooms && u in rooms[r])
  }

  ghost predicate MirrorAgrees(m: Mirror, rooms: Rooms) {
    && CallLog.Valid(m.log)
    && m.calls.Keys == rooms.Keys
    && (forall r :: r in m.calls ==>
          CallLog.OpenRow(m.log, m.calls[r]) && m.log.rows[m.calls[r]].room == r
          && m.log.rows[m.calls[r]].conference)
    && (forall id :: CallLog.OpenRow(m.log, id) && m.log.rows[id].conference ==>
          m.log.rows[id].room in m.calls && m.calls[m.log.rows[id].room] == id)
    && (forall r, u :: r in rooms ==> (CallLog.Present(m.log, m.calls[r], u) <==> u in rooms[r]))
  }

  /** A mirror that has taken in the first `seen` events. */
  datatype Point = Point(mirror: Mirror, seen: nat)

  function Since(start: Point, es: seq<Event>): Mirror {
    if start.seen <= |es| then Replay(start.mirror, es[start.seen..]) else start.mirror
  }

  /** The events and the mirror both agree with who is in which room. */
  ghost predicate Agrees(start: Point, es: seq<Event>, rooms: Rooms) {
    EventsAgree(es, rooms) && start.seen <= |es| && MirrorAgrees(Since(start, es), rooms)
  }

  lemma Append(es: seq<Event>, ev: Event)
    ensures (es + [ev])[..|es + [ev]| - 1] == es && (es + [ev])[|es + [ev]| - 1] == ev
  {
  }

  /** One event: `rooms'` is `rooms` after it. */
  function Apply(rooms: Rooms, ev: Event): Rooms {
    match ev
    case Created(r, u) => rooms[r := {}]
    case Joined(r, u) => if r in rooms then rooms[r := rooms[r] + {u}] else rooms
    case Left(r, u) => if r in rooms then rooms[r := rooms[r] - {u}] else rooms
    case Closed(r) => rooms - {r}
  }

  lemma EventsFollow(es: seq<Event>, ev: Event, rooms: Rooms)
    requires EventsAgree(es, rooms) && MayFollow(es, ev)
    requires ev.Closed? ==> rooms[ev.room] == {}
    ensures EventsAgree(es + [ev], Apply(rooms, ev))
  {
    Append(es, ev);
  }

  /**
   The creator of a room is entered in its row by the created event already, one event before its
   join; so right after a created event the row has one user too many and only then.
   */
  lemma MirrorFollows(m: Mirror, ev: Event, rooms: Rooms)
    requires MirrorAgrees(m, rooms) && !ev.Created?
    requires (ev.Joined? || ev.Left? || ev.Closed?) ==> ev.room in rooms
    requires ev.Closed? ==> rooms[ev.room] == {}
    ensures MirrorAgrees(OnEvent(m, ev), Apply(rooms, ev))
  {
    CallsDistinct(m, rooms);
    hide MirrorAgrees, OnEvent, Apply;
    match ev
    case Joined(r, u) => MirrorJoins(m, r, u, rooms);
    case Left(r, u) => MirrorLeaves(m, r, u, rooms);
    case Closed(r) => MirrorCloses(m, r, rooms);
  }

  lemma MirrorLeaves(m: Mirror, r: RoomId, u: UserId, rooms: Rooms)
    requires MirrorAgrees(m, rooms) && r in rooms
    requires forall p, q :: p in m.calls && q in m.calls && m.calls[p] == m.calls[q] ==> p == q
    ensures MirrorAgrees(OnEvent(m, Left(r, u)), Apply(rooms, Left(r, u)))
  {
  }

  lemma MirrorCloses(m: Mirror, r: RoomId, rooms: Rooms)
    requires MirrorAgrees(m, rooms) && r in rooms && rooms[r] == {}
    requires forall p, q :: p in m.calls && q in m.calls && m.calls[p] == m.calls[q] ==> p == q
    ensures MirrorAgrees(OnEvent(m, Closed(r)), Apply(rooms, Closed(r)))
  {
  }

  lemma MirrorJoins(m: Mirror, r: RoomId, u: UserId, rooms: Rooms)
    requires MirrorAgrees(m, rooms) && r in rooms
    requires forall p, q :: p in m.calls && q in m.calls && m.calls[p] == m.calls[q] ==> p == q
    ensures MirrorAgrees(OnEvent(m, Joined(r, u)), Apply(rooms, Joined(r, u)))
  {
  }

  lemma CallsDistinct(m: Mirror, rooms: Rooms)
    requires MirrorAgrees(m, rooms)
    ensures forall q, r :: q in m.calls && r in m.calls && m.calls[q] == m.calls[r] ==> q == r
  {
  }

  lemma MirrorCreates(m: Mirror, r: RoomId, u: UserId, rooms: Rooms)
    requires MirrorAgrees(m, rooms) && r !in rooms
    ensures MirrorAgrees(OnEvent(OnEvent(m, Created(r, u)), Joined(r, u)), rooms[r := {u}])
  {
    var id := m.log.next;
    var m' := OnEvent(OnEvent(m, Created(r, u)), Joined(r, u));
    assert forall c :: c in m.log.parts ==> c.call != id;
    assert forall c :: c in m'.log.parts ==> c in m.log.parts || c == CallLog.Cell(id, u);
  }

  // ---- who opened a room ----

  /** Who brought the newest creation of room `r` about. */
  function Creator(es: seq<Event>, r: RoomId): Option<UserId> {
    if es == [] then None
    else
      match es[|es| - 1]
      case Created(q, u) => if q == r then Some(u) else Creator(es[..|es| - 1], r)
      case _ => Creator(es[..|es| - 1], r)
  }

  /** The mirror's rows are rows of their rooms, opened by whoever created them. */
  ghost predicate OpenedBy(m: Mirror, es: seq<Event>) {
    && CallLog.Valid(m.log)
    && forall r :: r in m.calls ==>
         && m.calls[r] in m.log.rows && Creator(es, r).Some?
         && m.log.rows[m.calls[r]] == CallLog.Row(r, Creator(es, r).value, true, m.log.rows[m.calls[r]].ended)
  }

  lemma OpenedByNext(m: Mirror, es: seq<Event>, ev: Event)
    requires OpenedBy(m, es)
    ensures OpenedBy(OnEvent(m, ev), es + [ev])
  {
    Append(es, ev);
  }

  /** Replaying any events from an empty mirror files every room under whoever created it last. */
  lemma {:induction false} FiledUnderCreator(log: CallLog.Log, es: seq<Event>)
    requires CallLog.Valid(log)
    ensures OpenedBy(Replay(Mirror(map[], log), es), es)
    decreases |es|
  {
    if es != [] {
      hide OpenedBy, OnEvent;
      FiledUnderCreator(log, es[..|es| - 1]);
      OpenedByNext(Replay(Mirror(map[], log), es[..|es| - 1]), es[..|es| - 1], es[|es| - 1]);
      assert es == es[..|es| - 1] + [es[|es| - 1]];
    } else {
      assert OpenedBy(Mirror(map[], log), []);
    }
  }

  // ---- one operation ----

  lemma AppendSince(start: Point, es: seq<Event>, ev: Event)
    requires start.seen <= |es|
    ensures Since(start, es + [ev]) == OnEvent(Since(start, es), ev)
  {
    assert (es + [ev])[start.seen..] == es[start.seen..] + [ev];
    Append(es[start.seen..], ev);
  }

  lemma Follow(start: Point, es: seq<Event>, ev: Event, rooms: Rooms)
    requires Agrees(start, es, rooms) && MayFollow(es, ev) && !ev.Created?
    requires ev.Closed? ==> rooms[ev.room] == {}
    ensures Agrees(start, es + [ev], Apply(rooms, ev))
  {
    hide MirrorAgrees, Lawful, Inside, Live;
    EventsFollow(es, ev, rooms);
    AppendSince(start, es, ev);
    MirrorFollows(Since(start, es), ev, rooms);
  }

  lemma FollowCreation(start: Point, es: seq<Event>, r: RoomId, u: UserId, rooms: Rooms)
    requires Agrees(start, es, rooms) && r !in rooms
    ensures Agrees(start, es + [Created(r, u), Joined(r, u)], rooms[r := {u}])
  {
    hide MirrorAgrees;
    var es1 := es + [Created(r, u)];
    EventsFollow(es, Created(r, u), rooms);
    EventsFollow(es1, Joined(r, u), rooms[r := {}]);
    assert {} + {u} == {u};
    assert rooms[r := {}][r := {u}] == rooms[r := {u}];
    AppendSince(start, es, Created(r, u));
    AppendSince(start, es1, Joined(r, u));
    MirrorCreates(Since(start, es), r, u, rooms);
    assert es + [Created(r, u), Joined(r, u)] == es1 + [Joined(r, u)];
  }

  lemma RemoveAgrees(start: Point, e: Engine, id: RoomId, u: UserId, orders: Orders)
    requires EngineInvariants.Inv(e) && OrdersFit(e, id, u, orders) && Agrees(start, e.events, Membership(e))
    ensures var e' := RemoveFrom(e, id, u, orders); Agrees(start, e'.events, Membership(e'))
  {
    hide EngineInvariants.Inv, Agrees, Leave, DropOrders, RoomInvariants.Ok, MayFollow, RoomInvariants.MicsExact, RoomInvariants.IsHost;
    if IsMember(e, id, u) {
      var e' := RemoveFrom(e, id, u, orders);
      var rooms, r := Membership(e), Leave(e.rooms[id], u, orders);
      EngineInvariants.RoomOk(e, id);
      RoomMembership.LeaveKeeps(e.rooms[id], u, orders, e.serial);
      assert r.members.Keys == rooms[id] - {u};
      MembersFollow(start, e.events, rooms, id, u);
      var es1, rooms1 := e.events + [Left(id, u)], Apply(rooms, Left(id, u));
      Follow(start, e.events, Left(id, u), rooms);
      if r.members == map[] {
        assert r.members.Keys == {};
        RoomFollows(start, es1, rooms1, id);
        Follow(start, es1, Closed(id), rooms1);
        assert e'.events == es1 + [Closed(id)];
        assert Membership(e') == Apply(rooms1, Closed(id));
      } else {
        assert Membership(e') == rooms1;
      }
    }
  }

  lemma MembersFollow(start: Point, es: seq<Event>, rooms: Rooms, id: RoomId, u: UserId)
    requires Agrees(start, es, rooms) && id in rooms
    ensures u in rooms[id] ==> MayFollow(es, Left(id, u))
    ensures u !in rooms[id] ==> MayFollow(es, Joined(id, u))
  {
    hide MirrorAgrees, Lawful;
  }

  lemma RoomFollows(start: Point, es: seq<Event>, rooms: Rooms, id: RoomId)
    requires Agrees(start, es, rooms) && id in rooms
    ensures MayFollow(es, Closed(id))
  {
    hide MirrorAgrees, Lawful;
  }

  lemma AdmitAgrees(start: Point, e: Engine, id: RoomId, u: UserId, video: bool, ts: seq<Track>)
    requires !IsMember(e, id, u) && Agrees(start, e.events, Membership(e))
    ensures var e' := Admit(e, id, u, video, ts).0; Agrees(start, e'.events, Membership(e'))
  {
    hide Agrees, Enter, Apply, Membership;
    var e', rooms := Admit(e, id, u, video, ts).0, Membership(e);
    MembershipReads(e);
    if |RoomOrNew(e, id).members| < e.max {
      AdmitMembership(e, id, u, video, ts);
      if id in e.rooms {
        MembersFollow(start, e.events, rooms, id, u);
        Follow(start, e.events, Joined(id, u), rooms);
        ApplyJoined(rooms, id, u);
        assert e'.events == e.events + [Joined(id, u)];
      } else {
        FollowCreation(start, e.events, id, u, rooms);
        assert e'.events == e.events + [Created(id, u), Joined(id, u)];
      }
    }
  }

  lemma AdmitMembership(e: Engine, id: RoomId, u: UserId, video: bool, ts: seq<Track>)
    requires |RoomOrNew(e, id).members| < e.max
    ensures var rooms := Membership(e);
            Membership(Admit(e, id, u, video, ts).0) == rooms[id := if id in rooms then rooms[id] + {u} else {u}]
  {
    hide Enter;
    var r := RoomOrNew(e, id);
    EnterMembers(r, u, video, ts);
    assert {} + {u} == {u};
  }

  lemma EnterMembers(r: Room, u: UserId, video: bool, ts: seq<Track>)
    ensures Enter(r, u, video, ts).members.Keys == r.members.Keys + {u}
  {
    hide Subscriber.AddAll;
  }

  lemma ApplyJoined(rooms: Rooms, id: RoomId, u: UserId)
    requires id in rooms
    ensures Apply(rooms, Joined(id, u)) == rooms[id := rooms[id] + {u}]
  {
  }

  lemma JoinAgrees(start: Point, e: Engine, op: Op)
    requires op.JoinOp? && EngineInvariants.Inv(e) && Enabled(e, op) && Agrees(start, e.events, Membership(e))
    ensures Agrees(start, Step(e, op).events, Membership(Step(e, op)))
  {
    hide EngineInvariants.Inv, Agrees, RemoveFrom, Admit, Subscriber.Resend, DropOrders, Enumerates, PublishedByOthers;
    var JoinOp(id, u, video, resume, alive, orders, ts) := op;
    if IsElsewhere(e, id, u) {
    } else if IsMember(e, id, u) {
      if resume && alive {
        SameMembership(e, id, Resume(e.rooms[id], u));
      } else {
        EngineInvariants.RemoveFromKeeps(e, id, u, orders);
        RemoveAgrees(start, e, id, u, orders);
        AdmitAgrees(start, RemoveFrom(e, id, u, orders), id, u, video, ts);
      }
    } else {
      AdmitAgrees(start, e, id, u, video, ts);
    }
  }

  lemma SameMembership(e: Engine, id: RoomId, r: Room)
    requires id in e.rooms && r.members.Keys == e.rooms[id].members.Keys
    ensures Membership(WithRoom(e, id, r)) == Membership(e)
  {
  }

  /** The same members in the same order. */
  ghost predicate SamePeople(r: Room, s: Room) {
    s.members.Keys == r.members.Keys && s.order == r.order
  }

  lemma PublishSame(r: Room, u: UserId, key: Key, t: Track)
    ensures SamePeople(r, Publish(r, u, key, t))
  {
    hide Subscriber.Add, Subscriber.Remove;
  }

  lemma OnTrackSame(r: Room, u: UserId, remote: Key, recent: bool, n: nat)
    ensures SamePeople(r, OnTrack(r, u, remote, recent, n))
  {
    hide Publish;
    if u in r.members {
      var key := Label(r.members[u], remote, recent);
      var r1 := if key != remote then r.(members := r.members[u := r.members[u].(screenPending := false)]) else r;
      PublishSame(r1, u, key, Track(u, key, n));
    }
  }

  lemma OnTrackStateSame(r: Room, u: UserId, st: TrackState)
    ensures SamePeople(r, OnTrackState(r, u, st))
  {
    hide Subscriber.Add, Subscriber.Remove, Unmutes, Refused, ScreenAfter;
  }

  lemma TrackEndedSame(r: Room, t: Track)
    ensures SamePeople(r, TrackEnded(r, t))
  {
    hide Subscriber.Remove, Ended;
  }

  lemma MuteSame(r: Room, u: UserId, lock: bool)
    ensures SamePeople(r, Mute(r, u, lock))
  {
    hide Subscriber.Remove;
  }

  lemma FlagsSame(r: Room, u: UserId, b: bool)
    ensures SamePeople(r, Unlock(r, u)) && SamePeople(r, Answer(r, u)) && SamePeople(r, SetPresenter(r, u, b))
  {
    hide Subscriber.OnAnswer, MayPresent;
  }

  lemma RolesSame(r: Room, u: UserId, b: bool)
    ensures SamePeople(r, ClaimHost(r, u)) && SamePeople(r, SetPresenterOnly(r, b))
  {
    hide MayPresent;
  }

  /** `e'` differs from `e` at most in one room, which has the same people. */
  ghost predicate OneRoomSame(e: Engine, e': Engine) {
    e' == e || exists id, r :: id in e.rooms && SamePeople(e.rooms[id], r)
                               && e' == WithRoom(e, id, r).(serial := e'.serial)
  }

  lemma OneRoomAgrees(e: Engine, e': Engine)
    requires OneRoomSame(e, e')
    ensures e'.events == e.events && Membership(e') == Membership(e)
    ensures e'.rooms.Keys == e.rooms.Keys && forall id :: id in e.rooms ==> e'.rooms[id].order == e.rooms[id].order
  {
    if e' != e {
      var id, r :| id in e.rooms && SamePeople(e.rooms[id], r) && e' == WithRoom(e, id, r).(serial := e'.serial);
    }
  }

  lemma RoomChanged(e: Engine, id: RoomId, r: Room, n: nat)
    requires id in e.rooms && SamePeople(e.rooms[id], r)
    ensures OneRoomSame(e, WithRoom(e, id, r)) && OneRoomSame(e, WithRoom(e, id, r).(serial := n))
  {
    assert WithRoom(e, id, r) == WithRoom(e, id, r).(serial := WithRoom(e, id, r).serial);
  }

  /** An operation on a room that leaves its members alone emits nothing that concerns the call log. */
  lemma InRoomAgrees(e: Engine, op: Op)
    requires !op.JoinOp? && !op.LeaveOp? && !op.LeaveRoomOp? && !op.KickOp?
    ensures OneRoomSame(e, Step(e, op))
  {
    hide Mute, OnTrackState, OnTrack, TrackEnded, Unlock, ClaimHost, SetPresenterOnly, SetPresenter, Answer, SamePeople,
      OneRoomSame, WithRoom;
    Unchanged(e);
    match op
    case MuteOp(asker, u, admin, lock) =>
      if Controls(e, asker, u, admin) {
        MuteSame(RoomOf(e, u), u, lock);
        RoomChanged(e, e.users[u], Mute(RoomOf(e, u), u, lock), e.serial);
      }
    case UnlockOp(asker, u, admin) =>
      if Controls(e, asker, u, admin) {
        FlagsSame(RoomOf(e, u), u, true);
        RoomChanged(e, e.users[u], Unlock(RoomOf(e, u), u), e.serial);
      }
    case ClaimHostOp(id, u) =>
      if id in e.rooms {
        RolesSame(e.rooms[id], u, true);
        RoomChanged(e, id, ClaimHost(e.rooms[id], u), e.serial);
      }
    case PresenterOnlyOp(asker, b, admin) =>
      if InRoom(e, asker) {
        RolesSame(RoomOf(e, asker), asker, b);
        RoomChanged(e, e.users[asker], SetPresenterOnly(RoomOf(e, asker), b), e.serial);
      }
    case PresenterOp(asker, u, b, admin) =>
      if Controls(e, asker, u, admin) {
        FlagsSame(RoomOf(e, u), u, b);
        RoomChanged(e, e.users[u], SetPresenter(RoomOf(e, u), u, b), e.serial);
      }
    case TrackStateOp(u, st) =>
      if InRoom(e, u) {
        OnTrackStateSame(RoomOf(e, u), u, st);
        RoomChanged(e, e.users[u], OnTrackState(RoomOf(e, u), u, st), e.serial);
      }
    case OnTrackOp(u, remote, recent) =>
      if InRoom(e, u) {
        OnTrackSame(RoomOf(e, u), u, remote, recent, e.serial);
        RoomChanged(e, e.users[u], OnTrack(RoomOf(e, u), u, remote, recent, e.serial), e.serial + 1);
      }
    case TrackEndedOp(t) =>
      if InRoom(e, t.owner) {
        TrackEndedSame(RoomOf(e, t.owner), t);
        RoomChanged(e, e.users[t.owner], TrackEnded(RoomOf(e, t.owner), t), e.serial);
      }
    case AnswerOp(u) =>
      if InRoom(e, u) {
        FlagsSame(RoomOf(e, u), u, true);
        RoomChanged(e, e.users[u], Answer(RoomOf(e, u), u), e.serial);
      }
  }

  lemma Unchanged(e: Engine)
    ensures OneRoomSame(e, e)
  {
  }

  lemma StepAgrees(start: Point, e: Engine, op: Op)
    requires EngineInvariants.Inv(e) && Enabled(e, op) && Agrees(start, e.events, Membership(e))
    ensures Agrees(start, Step(e, op).events, Membership(Step(e, op)))
  {
    hide EngineInvariants.Inv, Agrees, RemoveFrom, Join, Membership, OneRoomSame;
    match op
    case JoinOp(_, _, _, _, _, _, _) => JoinAgrees(start, e, op);
    case LeaveOp(u, orders) => if InRoom(e, u) { RemoveAgrees(start, e, e.users[u], u, orders); }
    case LeaveRoomOp(id, u, orders) => RemoveAgrees(start, e, id, u, orders);
    case KickOp(asker, u, admin, orders) => if InRoom(e, u) { RemoveAgrees(start, e, e.users[u], u, orders); }
    case _ =>
      InRoomAgrees(e, op);
      OneRoomAgrees(e, Step(e, op));
  }

  // ---- join order ----

  /** The participants are listed in the order in which they last joined. */
  ghost predicate InJoinOrder(es: seq<Event>, id: RoomId, order: seq<UserId>) {
    forall i, j :: 0 <= i < j < |order| ==> JoinTime(es, id, order[i]) < JoinTime(es, id, order[j])
  }

  ghost predicate AllInJoinOrder(e: Engine) {
    forall id :: id in e.rooms ==> InJoinOrder(e.events, id, e.rooms[id].order)
  }

  lemma OtherEvents(es: seq<Event>, ev: Event, id: RoomId, u: UserId)
    requires ev != Joined(id, u)
    ensures JoinTime(es + [ev], id, u) == JoinTime(es, id, u)
  {
    Append(es, ev);
  }

  lemma {:induction false} WithoutOrdered(es: seq<Event>, id: RoomId, order: seq<UserId>, u: UserId)
    requires InJoinOrder(es, id, order)
    ensures InJoinOrder(es, id, RoomModel.Without(order, u))
  {
    if order != [] {
      var front, last := order[..|order| - 1], order[|order| - 1];
      WithoutOrdered(es, id, front, u);
      RoomMembership.WithoutFacts(front, u);
      forall v | v in front ensures JoinTime(es, id, v) < JoinTime(es, id, last) {
        var i :| 0 <= i < |front| && front[i] == v;
        assert order[i] == v;
      }
      forall i | 0 <= i < |Without(front, u)| ensures Without(front, u)[i] in front {
        assert Without(front, u)[i] in Without(front, u);
      }
    }
  }

  lemma SameTimes(es: seq<Event>, es': seq<Event>, id: RoomId, order: seq<UserId>)
    requires InJoinOrder(es, id, order)
    requires forall u :: u in order ==> JoinTime(es', id, u) == JoinTime(es, id, u)
    ensures InJoinOrder(es', id, order)
  {
  }

  lemma RemoveOrdered(e: Engine, id: RoomId, u: UserId, orders: Orders)
    requires AllInJoinOrder(e)
    ensures AllInJoinOrder(RemoveFrom(e, id, u, orders))
  {
    hide Promote, Subscriber.RemoveAll, JoinTime, InJoinOrder, Without;
    if IsMember(e, id, u) {
      var e' := RemoveFrom(e, id, u, orders);
      var es := e.events + [Left(id, u)];
      forall i | i in e'.rooms ensures InJoinOrder(e'.events, i, e'.rooms[i].order) {
        if i == id { WithoutOrdered(e.events, id, e.rooms[id].order, u); }
        forall v ensures JoinTime(e'.events, i, v) == JoinTime(e.events, i, v) {
          OtherEvents(e.events, Left(id, u), i, v);
          OtherEvents(es, Closed(id), i, v);
          assert e'.events == es || e'.events == es + [Closed(id)];
        }
        SameTimes(e.events, e'.events, i, e'.rooms[i].order);
      }
    }
  }

  lemma AdmitOrdered(e: Engine, id: RoomId, u: UserId, video: bool, ts: seq<Track>)
    requires AllInJoinOrder(e) && u !in RoomOrNew(e, id).order
    ensures AllInJoinOrder(Admit(e, id, u, video, ts).0)
  {
    hide JoinTime, Subscriber.AddAll;
    var e', result := Admit(e, id, u, video, ts).0, Admit(e, id, u, video, ts).1;
    if result == Admitted {
      var es := if id in e.rooms then e.events else e.events + [Created(id, u)];
      assert e'.events == es + [Joined(id, u)];
      forall i, v | !(i == id && v == u) ensures JoinTime(e'.events, i, v) == JoinTime(e.events, i, v) {
        OtherEvents(e.events, Created(id, u), i, v);
        OtherEvents(es, Joined(id, u), i, v);
      }
      NewestJoin(es, id, u);
      forall v ensures JoinTime(e.events, id, v) < |es| + 1 { JoinTimeBound(e.events, id, v); }
      var order := RoomOrNew(e, id).order;
      assert e'.rooms[id].order == order + [u];
      assert InJoinOrder(e.events, id, order);
      forall i | i in e'.rooms ensures InJoinOrder(e'.events, i, e'.rooms[i].order) {}
    }
  }

  lemma NewestJoin(es: seq<Event>, id: RoomId, u: UserId)
    ensures JoinTime(es + [Joined(id, u)], id, u) == |es| + 1
  {
    Append(es, Joined(id, u));
  }

  lemma OrderListsMembers(e: Engine, id: RoomId, u: UserId)
    requires EngineInvariants.Inv(e) && !IsMember(e, id, u)
    ensures u !in RoomOrNew(e, id).order
  {
    if id in e.rooms { EngineInvariants.RoomOk(e, id); }
  }

  lemma StepOrdered(e: Engine, op: Op)
    requires EngineInvariants.Inv(e) && Enabled(e, op) && AllInJoinOrder(e)
    ensures AllInJoinOrder(Step(e, op))
  {
    hide EngineInvariants.Inv, RemoveFrom, Admit, InJoinOrder, DropOrders, Enumerates, PublishedByOthers, Subscriber.Resend;
    match op
    case JoinOp(id, u, video, resume, alive, orders, ts) =>
      EngineInvariants.RemoveFromKeeps(e, id, u, orders);
      RemoveOrdered(e, id, u, orders);
      var e1 := RemoveFrom(e, id, u, orders);
      OrderListsMembers(e1, id, u);
      AdmitOrdered(e1, id, u, video, ts);
      if !IsMember(e, id, u) {
        OrderListsMembers(e, id, u);
        AdmitOrdered(e, id, u, video, ts);
      }
    case LeaveOp(u, orders) => if InRoom(e, u) { RemoveOrdered(e, e.users[u], u, orders); }
    case LeaveRoomOp(id, u, orders) => RemoveOrdered(e, id, u, orders);
    case KickOp(asker, u, admin, orders) => if InRoom(e, u) { RemoveOrdered(e, e.users[u], u, orders); }
    case _ => SameOrdered(e, op);
  }

  lemma SameOrdered(e: Engine, op: Op)
    requires AllInJoinOrder(e) && !op.JoinOp? && !op.LeaveOp? && !op.LeaveRoomOp? && !op.KickOp?
    ensures AllInJoinOrder(Step(e, op))
  {
    hide Step, InJoinOrder, OneRoomSame;
    InRoomAgrees(e, op);
    OneRoomAgrees(e, Step(e, op));
  }

  // ---- whole runs ----

  lemma {:induction false} RunAgrees(start: Point, e: Engine, ops: seq<Op>)
    requires EngineInvariants.Inv(e) && Possible(e, ops)
    requires Agrees(start, e.events, Membership(e)) && AllInJoinOrder(e)
    ensures Agrees(start, Run(e, ops).events, Membership(Run(e, ops))) && AllInJoinOrder(Run(e, ops))
    decreases ops
  {
    hide EngineInvariants.Inv, Agrees, AllInJoinOrder, Step, Enabled;
    if ops != [] {
      EngineInvariants.StepKeeps(e, ops[0]);
      StepAgrees(start, e, ops[0]);
      StepOrdered(e, ops[0]);
      RunAgrees(start, Step(e, ops[0]), ops[1..]);
    }
  }

  /**
   In every run: events are lawful and say who is in which room; started on any tables without open
   conference rows, the mirror has one open row per live room with exactly its members present; and
   rooms list their members in the order of their last joins.
   */
  lemma LogAgrees(start: CallLog.Log, max: int, ops: seq<Op>)
    requires Possible(New(max), ops) && CallLog.Valid(start)
    requires forall id :: CallLog.OpenRow(start, id) ==> !start.rows[id].conference
    ensures var e := Run(New(max), ops); var m := Replay(Mirror(map[], start), e.events);
            && Lawful(e.events)
            && m.calls.Keys == e.rooms.Keys
            && (forall r :: r in e.rooms ==>
                  CallLog.OpenRow(m.log, m.calls[r]) && m.log.rows[m.calls[r]].room == r)
            && (forall id :: CallLog.OpenRow(m.log, id) && m.log.rows[id].conference ==>
                  m.log.rows[id].room in e.rooms && m.calls[m.log.rows[id].room] == id)
            && (forall r, u :: r in e.rooms ==>
                  (CallLog.Present(m.log, m.calls[r], u) <==> u in e.rooms[r].members))
            && AllInJoinOrder(e)
  {
    var e0 := New(max);
    assert Membership(e0) == map[];
    RunAgrees(Point(Mirror(map[], start), 0), e0, ops);
    var es := Run(e0, ops).events;
    assert es[0..] == es;
    MembershipReads(Run(e0, ops));
    hide Run, Possible, AllInJoinOrder, Membership;
  }

  lemma MembershipReads(e: Engine)
    ensures Membership(e).Keys == e.rooms.Keys
    ensures forall r :: r in e.rooms ==> Membership(e)[r] == e.rooms[r].members.Keys
  {
  }

  /** A host that leaves is succeeded by whoever has been in the room longest. */
  lemma {:induction false} EarliestSucceeds(max: int, ops: seq<Op>, id: RoomId, u: UserId, orders: Orders)
    requires Possible(New(max), ops) && id in Run(New(max), ops).rooms
    requires RoomInvariants.IsHost(Run(New(max), ops).rooms[id], u) && DropOrders(Run(New(max), ops).rooms[id], u, orders)
    ensures var e := Run(New(max), ops); var s := Leave(e.rooms[id], u, orders);
            && (s.members != map[] ==> exists h :: RoomInvariants.IsHost(s, h))
            && (forall h, v :: RoomInvariants.IsHost(s, h) && v in s.members && v != h ==>
                  JoinTime(e.events, id, h) < JoinTime(e.events, id, v))
  {
    hide Run, Possible, Leave, DropOrders, RoomInvariants.Ok, JoinTime, OneRoomSame;
    EngineInvariants.EveryRun(max, ops);
    LogAgrees(CallLog.EMPTY, max, ops);
    var e := Run(New(max), ops);
    EngineInvariants.RoomOk(e, id);
    SuccessorIsFirst(e.events, e.rooms[id], e.serial, id, u, orders);
  }

  lemma SuccessorIsFirst(es: seq<Event>, r: Room, n: nat, id: RoomId, u: UserId, orders: Orders)
    requires RoomInvariants.Ok(r, n) && RoomInvariants.IsHost(r, u) && DropOrders(r, u, orders) && InJoinOrder(es, id, r.order)
    ensures var s := Leave(r, u, orders);
            && (s.members != map[] ==> exists h :: RoomInvariants.IsHost(s, h))
            && (forall h, v :: RoomInvariants.IsHost(s, h) && v in s.members && v != h ==> JoinTime(es, id, h) < JoinTime(es, id, v))
  {
    hide Leave, DropOrders, JoinTime, Without, RoomInvariants.Forwards, RoomInvariants.SubsOk, RoomInvariants.Tidy,
      RoomInvariants.Locks, RoomInvariants.Presenting;
    RoomMembership.LeaveKeeps(r, u, orders, n);
    WithoutOrdered(es, id, r.order, u);
    var s := Leave(r, u, orders);
    forall h, v | RoomInvariants.IsHost(s, h) && v in s.members && v != h
      ensures JoinTime(es, id, h) < JoinTime(es, id, v)
    {
      assert h in s.order && v in s.order;
      assert h == s.order[0];
      var j :| 0 <= j < |s.order| && s.order[j] == v;
    }
  }

  // ---- the mirror as the hub keeps it ----

  class Hub {
    var roomCalls: map<RoomId, nat>
    const db: CallLog.Tables

    constructor (db: CallLog.Tables)
      ensures this.db == db && roomCalls == map[]
    {
      this.db, roomCalls := db, map[];
    }

    ghost function View(): Mirror
      reads this, db
    {
      Mirror(roomCalls, db.Contents())
    }

    /** The row of a live room; zero if there is none. */
    method RoomCallID(r: RoomId) returns (id: nat)
      ensures id == if r in roomCalls then roomCalls[r] else 0
    {
      id := if r in roomCalls then roomCalls[r] else 0;
    }

    /** Persist one engine event. Row ids start at one, so zero can stand for "no row". */
    method OnRoomEvent(ev: Event)
      requires CallLog.Valid(db.Contents()) && forall r :: r in roomCalls ==> roomCalls[r] > 0
      modifies this, db
      ensures View() == OnEvent(old(View()), ev) && forall r :: r in roomCalls ==> roomCalls[r] > 0
    {
      hide CallLog.CreateCall, CallLog.AddParticipant, CallLog.ParticipantLeft, CallLog.EndCall;
      match ev
      case Created(r, u) =>
        var id := db.Create(r, u, true);
        roomCalls := roomCalls[r := id];
        db.Add(id, u, true);
      case Joined(r, u) =>
        var id := RoomCallID(r);
        if id > 0 { db.Add(id, u, true); }
      case Left(r, u) =>
        var id := RoomCallID(r);
        if id > 0 { db.Leave(id, u); }
      case Closed(r) =>
        var id := RoomCallID(r);
        if id > 0 {
          db.End(id);
          roomCalls := roomCalls - {r};
        }
    }
  }
}
