/**
 The conference engine as a value: the registered rooms, the engine-wide membership index, and the
 events it has emitted. An operation is one client request, one arriving or ending stream, or one
 removal; `Enabled` says only that the iteration orders it carries enumerate the right tracks.
 */
module EngineModel {
  import opened Media
  import opened RoomModel

  datatype Event = Created(room: RoomId, user: UserId) | Joined(room: RoomId, user: UserId)
                 | Left(room: RoomId, user: UserId) | Closed(room: RoomId)

  datatype Engine = Engine(
    max: int,
    rooms: map<RoomId, Room>,
    users: map<UserId, RoomId>,
    serial: nat,
    events: seq<Event>)

  type Orders = map<UserId, seq<Track>>

  function New(max: int): Engine {
    Engine(max, map[], map[], 0, [])
  }

  predicate InRoom(e: Engine, u: UserId) {
    u in e.users && e.users[u] in e.rooms && u in e.rooms[e.users[u]].members
  }

  function RoomOf(e: Engine, u: UserId): Room
    requires InRoom(e, u)
  {
    e.rooms[e.users[u]]
  }

  function InfoOf(e: Engine, u: UserId): Info
    requires InRoom(e, u)
  {
    RoomOf(e, u).members[u].info
  }

  function WithRoom(e: Engine, id: RoomId, r: Room): Engine {
    e.(rooms := e.rooms[id := r])
  }

  /** Take `u` out of room `id`: release the index entry and close the room behind the last member. */
  function RemoveFrom(e: Engine, id: RoomId, u: UserId, orders: Orders): Engine {
    if id !in e.rooms || u !in e.rooms[id].members then e
    else
      var r := Leave(e.rooms[id], u, orders);
      var users := if u in e.users && e.users[u] == id then e.users - {u} else e.users;
      if r.members == map[]
      then e.(rooms := e.rooms - {id}, users := users, events := e.events + [Left(id, u), Closed(id)])
      else e.(rooms := e.rooms[id := r], users := users, events := e.events + [Left(id, u)])
  }

  datatype Joining = Admitted | Resumed | Elsewhere | Full

  predicate IsElsewhere(e: Engine, id: RoomId, u: UserId) {
    u in e.users && e.users[u] != id
  }

  predicate IsMember(e: Engine, id: RoomId, u: UserId) {
    id in e.rooms && u in e.rooms[id].members
  }

  function RoomOrNew(e: Engine, id: RoomId): Room {
    if id in e.rooms then e.rooms[id] else EMPTY
  }

  /** The part of a join that follows once no stale participant of `u` is left in the room. */
  function Admit(e: Engine, id: RoomId, u: UserId, video: bool, ts: seq<Track>): (Engine, Joining) {
    var r := RoomOrNew(e, id);
    if |r.members| >= e.max then (e, Full)
    else
      (e.(rooms := e.rooms[id := Enter(r, u, video, ts)],
          users := e.users[u := id],
          events := e.events + (if id in e.rooms then [] else [Created(id, u)]) + [Joined(id, u)]),
       Admitted)
  }

  /** `alive` tells whether the peer connections of an existing participant can still be resumed. */
  function Join(e: Engine, id: RoomId, u: UserId, video: bool, resume: bool, alive: bool,
                orders: Orders, ts: seq<Track>): (Engine, Joining)
  {
    if IsElsewhere(e, id, u) then (e, Elsewhere)
    else if IsMember(e, id, u) then
      if resume && alive then (WithRoom(e, id, Resume(e.rooms[id], u)), Resumed)
      else Admit(RemoveFrom(e, id, u, orders), id, u, video, ts)
    else Admit(e, id, u, video, ts)
  }

  /** May `asker` use the host controls on `target`? Only as host or administrator, in the same room. */
  predicate Controls(e: Engine, asker: UserId, target: UserId, admin: bool) {
    && InRoom(e, asker)
    && (InfoOf(e, asker).host || admin)
    && InRoom(e, target)
    && e.users[target] == e.users[asker]
  }

  datatype Op =
    | JoinOp(id: RoomId, user: UserId, video: bool, resume: bool, alive: bool, orders: Orders, ts: seq<Track>)
    | LeaveOp(user: UserId, orders: Orders)
    | LeaveRoomOp(id: RoomId, user: UserId, orders: Orders)
    | KickOp(asker: UserId, user: UserId, admin: bool, orders: Orders)
    | MuteOp(asker: UserId, user: UserId, admin: bool, lock: bool)
    | UnlockOp(asker: UserId, user: UserId, admin: bool)
    | ClaimHostOp(id: RoomId, user: UserId)
    | PresenterOnlyOp(asker: UserId, enabled: bool, admin: bool)
    | PresenterOp(asker: UserId, user: UserId, allowed: bool, admin: bool)
    | TrackStateOp(user: UserId, st: TrackState)
    | OnTrackOp(user: UserId, remote: Key, recent: bool)
    | TrackEndedOp(track: Track)
    | AnswerOp(user: UserId)

  /** Removing `u` from its room takes its tracks back from every other member in some order. */
  predicate OrdersFit(e: Engine, id: RoomId, u: UserId, orders: Orders) {
    IsMember(e, id, u) ==> DropOrders(e.rooms[id], u, orders)
  }

  predicate Enabled(e: Engine, op: Op) {
    match op
    case JoinOp(id, u, _, resume, alive, orders, ts) =>
      && OrdersFit(e, id, u, orders)
      && Enumerates(ts, PublishedByOthers(RoomOrNew(e, id), u))
    case LeaveOp(u, orders) => u in e.users ==> OrdersFit(e, e.users[u], u, orders)
    case LeaveRoomOp(id, u, orders) => OrdersFit(e, id, u, orders)
    case KickOp(_, u, _, orders) => u in e.users ==> OrdersFit(e, e.users[u], u, orders)
    case _ => true
  }

  /** Apply a room operation to the room `u` is in. */
  function InRoomOf(e: Engine, u: UserId, r: Room): Engine
    requires InRoom(e, u)
  {
    WithRoom(e, e.users[u], r)
  }

  function Step(e: Engine, op: Op): Engine {
    match op
    case JoinOp(id, u, video, resume, alive, orders, ts) => Join(e, id, u, video, resume, alive, orders, ts).0
    case LeaveOp(u, orders) => if InRoom(e, u) then RemoveFrom(e, e.users[u], u, orders) else e
    case LeaveRoomOp(id, u, orders) => RemoveFrom(e, id, u, orders)
    case KickOp(asker, u, admin, orders) =>
      if Controls(e, asker, u, admin) then RemoveFrom(e, e.users[u], u, orders) else e
    case MuteOp(asker, u, admin, lock) =>
      if Controls(e, asker, u, admin) then InRoomOf(e, u, Mute(RoomOf(e, u), u, lock)) else e
    case UnlockOp(asker, u, admin) =>
      if Controls(e, asker, u, admin) then InRoomOf(e, u, Unlock(RoomOf(e, u), u)) else e
    case ClaimHostOp(id, u) => if id in e.rooms then WithRoom(e, id, ClaimHost(e.rooms[id], u)) else e
    case PresenterOnlyOp(asker, enabled, admin) =>
      if InRoom(e, asker) && (InfoOf(e, asker).host || admin)
      then InRoomOf(e, asker, SetPresenterOnly(RoomOf(e, asker), enabled)) else e
    case PresenterOp(asker, u, allowed, admin) =>
      if Controls(e, asker, u, admin) then InRoomOf(e, u, SetPresenter(RoomOf(e, u), u, allowed)) else e
    case TrackStateOp(u, st) =>
      if InRoom(e, u) then InRoomOf(e, u, OnTrackState(RoomOf(e, u), u, st)) else e
    case OnTrackOp(u, remote, recent) =>
      if InRoom(e, u)
      then InRoomOf(e, u, OnTrack(RoomOf(e, u), u, remote, recent, e.serial)).(serial := e.serial + 1) else e
    case TrackEndedOp(t) =>
      if InRoom(e, t.owner) then InRoomOf(e, t.owner, TrackEnded(RoomOf(e, t.owner), t)) else e
    case AnswerOp(u) => if InRoom(e, u) then InRoomOf(e, u, Answer(RoomOf(e, u), u)) else e
  }

  /** Everybody on the list leaves, in that order. */
  predicate LeavesOf(list: seq<UserId>, ops: seq<Op>) {
    |ops| == |list| && forall i :: 0 <= i < |ops| ==> ops[i].LeaveOp? && ops[i].user == list[i]
  }

  /** Every operation of the run carries fitting iteration orders at the moment it is taken. */
  predicate Possible(e: Engine, ops: seq<Op>)
    decreases ops
  {
    ops == [] || (Enabled(e, ops[0]) && Possible(Step(e, ops[0]), ops[1..]))
  }

  function Run(e: Engine, ops: seq<Op>): Engine
    decreases ops
  {
    if ops == [] then e else Run(Step(e, ops[0]), ops[1..])
  }
}
