/**
 The signaling hub as a value: connections, delayed departures, the conference engine and direct calls.
 An operation is one handler, one connect or disconnect, or one timer callback.
 */
module HubModel {
  import opened Media
  import LeaveTimers
  import EngineModel
  import CallModel

  /** A connection; once `finishing`, nothing its client sends has an effect any more. */
  datatype Conn = Conn(user: UserId, device: string, finishing: bool)

  /** `clients` has the connection that speaks for a user, `conns` every connection not yet torn down. */
  datatype Hub = Hub(
    clients: map<UserId, nat>,
    conns: map<nat, Conn>,
    next: nat,
    clock: LeaveTimers.Clock,
    engine: EngineModel.Engine,
    p2p: CallModel.State)

  function New(max: int, p2p: CallModel.State): Hub {
    Hub(map[], map[], 0, LeaveTimers.IDLE, EngineModel.New(max), p2p)
  }

  predicate Speaks(h: Hub, n: nat) {
    n in h.conns && !h.conns[n].finishing
  }

  function Finish(conns: map<nat, Conn>, n: nat): map<nat, Conn> {
    if n in conns then conns[n := conns[n].(finishing := true)] else conns
  }

  predicate SameDevice(h: Hub, n: nat, device: string) {
    n in h.conns && h.conns[n].device != "" && h.conns[n].device == device
  }

  /**
   A connection of `u` arrives and speaks for `u` from now on. One that did before is finished; then a
   conference is left unless it is resumed in time, and so is a direct call on the same device.
   */
  function Register(h: Hub, u: UserId, device: string): Hub {
    var n := h.next;
    var conn := Conn(u, device, false);
    if u !in h.clients then h.(clients := h.clients[u := n], conns := h.conns[n := conn], next := n + 1)
    else
      var last := h.clients[u];
      h.(clients := h.clients[u := n], conns := Finish(h.conns, last)[n := conn], next := n + 1,
         clock := LeaveTimers.Schedule(h.clock, u),
         p2p := if SameDevice(h, last, device) then CallModel.Drop(h.p2p, u) else CallModel.Disconnect(h.p2p, u))
  }

  /** A connection is torn down; if it still spoke for its user, the departures are scheduled. */
  function Unregister(h: Hub, n: nat): Hub {
    if n !in h.conns then h
    else
      var u := h.conns[n].user;
      var rest := h.(conns := h.conns - {n});
      if u in h.clients && h.clients[u] == n
      then rest.(clients := h.clients - {u}, clock := LeaveTimers.Schedule(h.clock, u), p2p := CallModel.Drop(h.p2p, u))
      else rest
  }

  predicate InCall(h: Hub, u: UserId) {
    u in h.p2p.byUser && h.p2p.byUser[u] in h.p2p.calls
  }

  /** The room owner takes the host role over when joining. */
  function Seat(e: EngineModel.Engine, id: RoomId, u: UserId, owner: bool): EngineModel.Engine {
    if owner then EngineModel.Step(e, EngineModel.ClaimHostOp(id, u)) else e
  }

  /** A join that passed the membership and private-room checks. */
  function Join(h: Hub, op: EngineModel.Op, owner: bool): Hub
    requires op.JoinOp?
  {
    if InCall(h, op.user) then h
    else
      var (e, result) := EngineModel.Join(h.engine, op.id, op.user, op.video, op.resume, op.alive, op.orders, op.ts);
      if result == EngineModel.Elsewhere || result == EngineModel.Full then h
      else h.(engine := Seat(e, op.id, op.user, owner), clock := LeaveTimers.Cancel(h.clock, op.user))
  }

  function Leave(h: Hub, u: UserId, orders: EngineModel.Orders): Hub {
    h.(engine := EngineModel.Step(h.engine, EngineModel.LeaveOp(u, orders)))
  }

  function Cancelled(h: Hub, u: UserId): Hub {
    h.(clock := LeaveTimers.Cancel(h.clock, u))
  }

  /** The server signs a user out: the connection is finished, room and call are left at once. */
  function KickUser(h: Hub, u: UserId, orders: EngineModel.Orders): Hub {
    var h1 := if u in h.clients then h.(conns := Finish(h.conns, h.clients[u])) else h;
    var h2 := Leave(Cancelled(h1, u), u, orders);
    h2.(p2p := CallModel.Disconnect(h2.p2p, u))
  }

  /** A member removed from a group is taken out of that group's room. */
  function Evict(h: Hub, id: RoomId, u: UserId, orders: EngineModel.Orders): Hub {
    var h1 := Cancelled(h, u);
    h1.(engine := EngineModel.Step(h1.engine, EngineModel.LeaveRoomOp(id, u, orders)))
  }

  /** A departure callback gets the lock; if it still counts its user leaves. */
  function Expire(h: Hub, k: nat, orders: EngineModel.Orders): Hub {
    if k >= |h.clock.queue| then h
    else
      var t := h.clock.queue[k];
      var h1 := h.(clock := LeaveTimers.Take(h.clock, k));
      if LeaveTimers.Counts(h.clock, t) then Leave(h1, t.user, orders) else h1
  }

  /** A message about a direct call from the client of `u`. */
  datatype Message =
    | InviteMsg(callee: UserId, id: CallModel.CallId, known: bool)
    | AcceptMsg(id: CallModel.CallId)
    | DeclineMsg(id: CallModel.CallId)
    | HangupMsg(id: CallModel.CallId)
    | ResumeMsg(id: CallModel.CallId)

  function Handling(h: Hub, u: UserId, m: Message): CallModel.Op {
    match m
    case InviteMsg(callee, id, known) =>
      CallModel.InviteOp(u, callee, id, known, u in h.engine.users || callee in h.engine.users, callee in h.clients)
    case AcceptMsg(id) => CallModel.AcceptOp(id, u)
    case DeclineMsg(id) => CallModel.DeclineOp(id, u)
    case HangupMsg(id) => CallModel.HangupOp(id, u)
    case ResumeMsg(id) => CallModel.ResumeOp(u, id)
  }

  datatype Op =
    | ConnectOp(user: UserId, device: string)
    | CloseOp(conn: nat)
    | JoinOp(conn: nat, join: EngineModel.Op, owner: bool)
    | LeaveOp(conn: nat, orders: EngineModel.Orders)
    | RoomOp(op: EngineModel.Op)
    | CallOp(conn: nat, message: Message)
    | KickUserOp(user: UserId, orders: EngineModel.Orders)
    | EvictOp(id: RoomId, user: UserId, orders: EngineModel.Orders)
    | CloseRoomOp(id: RoomId, ops: seq<EngineModel.Op>)
    | FireOp(timer: LeaveTimers.Timer)
    | ExpireOp(index: nat, orders: EngineModel.Orders)
    | RingFiresOp(call: CallModel.CallId)
    | GraceFiresOp(user: UserId, grace: nat)

  /** What a client message may do to a room besides joining and leaving: everything else. */
  predicate Inside(op: EngineModel.Op) {
    !op.JoinOp? && !op.LeaveOp? && !op.LeaveRoomOp?
  }

  predicate Fits(e: EngineModel.Engine, u: UserId, orders: EngineModel.Orders) {
    EngineModel.Enabled(e, EngineModel.LeaveOp(u, orders))
  }

  /** Iteration orders fit the engine, and a room join is for the user of its connection. */
  predicate Enabled(h: Hub, op: Op) {
    match op
    case JoinOp(n, join, _) => n in h.conns && join.JoinOp? && join.user == h.conns[n].user && EngineModel.Enabled(h.engine, join)
    case LeaveOp(n, orders) => n in h.conns && Fits(h.engine, h.conns[n].user, orders)
    case RoomOp(op) => Inside(op) && EngineModel.Enabled(h.engine, op)
    case KickUserOp(u, orders) => Fits(h.engine, u, orders)
    case EvictOp(id, u, orders) => EngineModel.Enabled(h.engine, EngineModel.LeaveRoomOp(id, u, orders))
    case CloseRoomOp(id, ops) => EngineModel.LeavesOf(EngineModel.RoomOrNew(h.engine, id).order, ops) && EngineModel.Possible(h.engine, ops)
    case ExpireOp(k, orders) => k < |h.clock.queue| && Fits(h.engine, h.clock.queue[k].user, orders)
    case _ => true
  }

  function Step(h: Hub, op: Op): Hub {
    match op
    case ConnectOp(u, device) => Register(h, u, device)
    case CloseOp(n) => Unregister(h, n)
    case JoinOp(n, join, owner) => if Speaks(h, n) && join.JoinOp? then Join(h, join, owner) else h
    case LeaveOp(n, orders) =>
      if Speaks(h, n) then Leave(Cancelled(h, h.conns[n].user), h.conns[n].user, orders) else h
    case RoomOp(op) => h.(engine := EngineModel.Step(h.engine, op))
    case CallOp(n, m) =>
      if Speaks(h, n) then h.(p2p := CallModel.Step(h.p2p, Handling(h, h.conns[n].user, m))) else h
    case KickUserOp(u, orders) => KickUser(h, u, orders)
    case EvictOp(id, u, orders) => Evict(h, id, u, orders)
    case CloseRoomOp(_, ops) => h.(engine := EngineModel.Run(h.engine, ops))
    case FireOp(t) => h.(clock := LeaveTimers.Fire(h.clock, t))
    case ExpireOp(k, orders) => Expire(h, k, orders)
    case RingFiresOp(id) => h.(p2p := CallModel.Step(h.p2p, CallModel.RingFires(id)))
    case GraceFiresOp(u, t) => h.(p2p := CallModel.Step(h.p2p, CallModel.GraceOp(u, t)))
  }

  predicate Possible(h: Hub, ops: seq<Op>)
    decreases ops
  {
    ops == [] || (Enabled(h, ops[0]) && Possible(Step(h, ops[0]), ops[1..]))
  }

  function Run(h: Hub, ops: seq<Op>): Hub
    decreases ops
  {
    if ops == [] then h else Run(Step(h, ops[0]), ops[1..])
  }
}
