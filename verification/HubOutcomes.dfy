/**
 What every operation of the hub leads to, for every reachable hub and whatever came before: who speaks for
 whom, who is in which room and which call, and which departures stand. And nobody is ever in a room and a call.
 */
module HubOutcomes {
  import opened Media
  import opened HubModel
  import opened HubInvariants
  import LeaveTimers
  import EngineModel
  import EngineInvariants
  import EngineOutcomes
  import RoomModel
  import RoomInvariants
  import RoomOutcomes
  import CallModel
  import CallInvariants
  import CallOutcomes
  import CallLog
  import HubProperties

  // ---- what holds in every run, evictions included ----

  /** Nobody is in a room and in a call. */
  ghost predicate Exclusive(h: Hub) {
    forall u :: u in h.p2p.byUser ==> u !in h.engine.users
  }

  ghost predicate Whole(h: Hub) {
    && Connections(h) && LeaveTimers.AllArmed(h.clock) && EngineInvariants.Inv(h.engine) && CallInvariants.Inv(h.p2p)
    && Exclusive(h)
  }

  /** The id that an invitation brings is a new one. */
  ghost predicate NewCall(h: Hub, op: Op) {
    op.CallOp? && op.message.InviteMsg? ==> !CallModel.Used(h.p2p, op.message.id)
  }

  ghost predicate Orderly(h: Hub, ops: seq<Op>)
    decreases ops
  {
    ops == [] || (Enabled(h, ops[0]) && NewCall(h, ops[0]) && Orderly(Step(h, ops[0]), ops[1..]))
  }

  /** The operation on direct calls that a hub operation amounts to, if any. */
  function CallPart(h: Hub, op: Op): Option<CallModel.Op> {
    match op
    case ConnectOp(u, device) =>
      if u !in h.clients then None
      else if SameDevice(h, h.clients[u], device) then Some(CallModel.DropOp(u))
      else Some(CallModel.DisconnectOp(u))
    case CloseOp(n) =>
      if n in h.conns && h.conns[n].user in h.clients && h.clients[h.conns[n].user] == n
      then Some(CallModel.DropOp(h.conns[n].user)) else None
    case CallOp(n, m) => if Speaks(h, n) then Some(Handling(h, h.conns[n].user, m)) else None
    case KickUserOp(u, _) => Some(CallModel.DisconnectOp(u))
    case RingFiresOp(id) => Some(CallModel.RingFires(id))
    case GraceFiresOp(u, t) => Some(CallModel.GraceOp(u, t))
    case _ => None
  }

  lemma CallsMove(h: Hub, op: Op)
    ensures var m := CallPart(h, op); Step(h, op).p2p == if m.Some? then CallModel.Step(h.p2p, m.value) else h.p2p
  {
    hide LeaveTimers.Schedule, LeaveTimers.Cancel, LeaveTimers.Take, EngineModel.Step, EngineModel.Join, EngineModel.Run,
      CallModel.Drop, CallModel.Disconnect, CallModel.Invite, CallModel.Accept, CallModel.Decline, CallModel.Hangup,
      CallModel.Resume, CallModel.Miss, CallModel.GraceFires;
  }

  lemma CallsKept(h: Hub, op: Op)
    requires CallInvariants.Inv(h.p2p) && NewCall(h, op)
    ensures CallInvariants.Inv(Step(h, op).p2p)
  {
    hide CallInvariants.Inv, CallModel.Step, Step, CallModel.Used;
    CallsMove(h, op);
    var m := CallPart(h, op);
    if m.Some? { CallInvariants.StepKeeps(h.p2p, m.value); }
  }

  /** Who is in a room after an operation was in one before, or has just joined. */
  lemma RoomsMove(h: Hub, op: Op)
    requires EngineInvariants.Inv(h.engine) && Enabled(h, op)
    ensures EngineInvariants.Inv(Step(h, op).engine)
    ensures forall u :: u in Step(h, op).engine.users ==> u in h.engine.users || (op.JoinOp? && u == op.join.user && !InCall(h, u))
  {
    hide EngineInvariants.Inv, EngineModel.Step, EngineModel.Enabled, EngineModel.Run, EngineModel.Possible, CallModel.Step,
      LeaveTimers.Schedule, LeaveTimers.Cancel, LeaveTimers.Fire, LeaveTimers.Take, LeaveTimers.Counts, Fits, CallModel.Drop,
      CallModel.Disconnect, EngineModel.Join;
    match op
    case JoinOp(n, join, owner) => if Speaks(h, n) { JoinEffects(h, join, owner); }
    case LeaveOp(n, orders) => if Speaks(h, n) { LeaveEffects(h.engine, h.conns[n].user, orders); }
    case RoomOp(op) => InsideEffects(h.engine, op);
    case KickUserOp(v, orders) => LeaveEffects(h.engine, v, orders);
    case EvictOp(id, v, orders) => RemovalEffects(h.engine, id, v, orders);
    case CloseRoomOp(_, ops) => ClosingEffects(h.engine, ops);
    case ExpireOp(k, orders) => LeaveEffects(h.engine, h.clock.queue[k].user, orders);
    case _ =>
  }

  /** Who is in a call after an operation was in one before, or is invited while in no room. */
  lemma PartiesMove(h: Hub, op: Op)
    requires CallInvariants.Pairing(h.p2p) && CallInvariants.RingTimers(h.p2p)
    ensures forall u :: u in Step(h, op).p2p.byUser ==> u in h.p2p.byUser || (op.CallOp? && u !in h.engine.users)
  {
    hide Step, CallInvariants.Pairing, CallInvariants.RingTimers, CallModel.End, CallModel.Miss, CallModel.LogInvite,
      CallModel.Finalize, CallModel.Disconnect, SameDevice;
    CallsMove(h, op);
    var m := CallPart(h, op);
    if m.Some? {
      CallEffects(h.p2p, m.value);
      if m.value.InviteOp? { InvitedFromNoRoom(h, op); }
      hide CallModel.Step;
    }
  }

  lemma InvitedFromNoRoom(h: Hub, op: Op)
    requires CallPart(h, op).Some? && CallPart(h, op).value.InviteOp?
    ensures op.CallOp?
    ensures var i := CallPart(h, op).value;
            i.caller in h.engine.users || i.callee in h.engine.users ==> CallModel.Step(h.p2p, i) == h.p2p
  {
    hide CallModel.LogInvite, CallModel.Finalize;
  }

  lemma ClockKept(h: Hub, op: Op)
    requires LeaveTimers.AllArmed(h.clock)
    ensures LeaveTimers.AllArmed(Step(h, op).clock)
  {
    hide LeaveTimers.AllArmed, Step, LeaveTimers.Step, HubProperties.Moves;
    HubProperties.MovesTimers(h, op);
    var m := HubProperties.Moves(h, op);
    if m.Some? { LeaveTimers.StepArmed(h.clock, m.value); }
  }

  lemma ConnectionsKept(h: Hub, op: Op)
    requires Connections(h)
    ensures Connections(Step(h, op))
  {
    hide LeaveTimers.Schedule, LeaveTimers.Cancel, LeaveTimers.Fire, LeaveTimers.Take, EngineModel.Step, EngineModel.Run, EngineModel.Join,
      CallModel.Step, CallModel.Drop, CallModel.Disconnect;
    match op
    case ConnectOp(u, device) => ConnectConnections(h, u, device);
    case _ =>
  }

  lemma WholeStep(h: Hub, op: Op)
    requires Whole(h) && Enabled(h, op) && NewCall(h, op)
    ensures Whole(Step(h, op))
  {
    hide Connections, LeaveTimers.AllArmed, EngineInvariants.Inv, Step, Enabled, NewCall;
    CallsKept(h, op);
    RoomsMove(h, op);
    ClockKept(h, op);
    ConnectionsKept(h, op);
    CallParts(h.p2p);
    hide CallInvariants.Inv;
    PartiesMove(h, op);
  }

  lemma CallParts(s: CallModel.State)
    requires CallInvariants.Inv(s)
    ensures CallInvariants.Pairing(s) && CallInvariants.RingTimers(s)
    ensures forall u :: u in s.byUser ==> s.byUser[u] in s.calls
  {
    hide CallInvariants.EndedOnce, CallInvariants.Rows, CallInvariants.Graces;
  }

  lemma {:induction false} WholeRun(h: Hub, ops: seq<Op>)
    requires Whole(h) && Orderly(h, ops)
    ensures Whole(Run(h, ops))
    decreases ops
  {
    hide Whole, Step, Enabled, NewCall;
    if ops != [] {
      WholeStep(h, ops[0]);
      WholeRun(Step(h, ops[0]), ops[1..]);
    }
  }

  /** In every run of a new hub nobody is ever in a room and in a call at once. */
  lemma {:induction false} NeverInBoth(max: int, log: CallLog.Log, ops: seq<Op>, u: UserId)
    requires CallInvariants.CleanStart(log) && Orderly(New(max, CallModel.New(log)), ops)
    ensures var h := Run(New(max, CallModel.New(log)), ops); !(u in h.engine.users && u in h.p2p.byUser)
  {
    StartsWhole(max, log);
    WholeRun(New(max, CallModel.New(log)), ops);
    hide Run, Orderly, Connections, LeaveTimers.AllArmed, EngineInvariants.Inv, CallInvariants.Inv;
  }

  lemma StartsWhole(max: int, log: CallLog.Log)
    requires CallInvariants.CleanStart(log)
    ensures Whole(New(max, CallModel.New(log)))
  {
    assert CallModel.Run(CallModel.New(log), []) == CallModel.New(log) && CallModel.Possible(CallModel.New(log), []);
    CallInvariants.EveryRun(log, []);
    assert EngineModel.Run(EngineModel.New(max), []) == EngineModel.New(max) && EngineModel.Possible(EngineModel.New(max), []);
    EngineInvariants.EveryRun(max, []);
    hide CallInvariants.Inv, EngineInvariants.Inv, CallInvariants.CleanStart;
  }

  // ---- what each operation leads to ----

  /** The departure of `u` stands, with a timer of its own; everybody else's is as it was. */
  ghost predicate Arms(c: LeaveTimers.Clock, d: LeaveTimers.Clock, u: UserId) {
    LeaveTimers.Armed(d, u) && d.timers[u] in d.running && d.timers[u].serial == c.serials && OthersStand(c, d, u)
  }

  /** The departure of `u` does not stand; everybody else's is as it was. */
  ghost predicate Cancels(c: LeaveTimers.Clock, d: LeaveTimers.Clock, u: UserId) {
    u !in d.timers && (u in c.timers ==> c.timers[u] !in d.running) && OthersStand(c, d, u)
  }

  ghost predicate OthersStand(c: LeaveTimers.Clock, d: LeaveTimers.Clock, u: UserId) {
    && d.queue == c.queue
    && forall v :: v != u ==> (v in d.timers <==> v in c.timers) && (v in c.timers ==> d.timers[v] == c.timers[v])
                              && LeaveTimers.Token(d, v) == LeaveTimers.Token(c, v)
  }

  lemma ScheduleArms(c: LeaveTimers.Clock, u: UserId)
    ensures Arms(c, LeaveTimers.Schedule(c, u), u)
  {
  }

  lemma CancelCancels(c: LeaveTimers.Clock, u: UserId)
    ensures Cancels(c, LeaveTimers.Cancel(c, u), u)
  {
  }

  /** Wherever `u` was, it is out, with everything it had. */
  ghost predicate Out(e: EngineModel.Engine, e': EngineModel.Engine, u: UserId) {
    if u in e.users then EngineOutcomes.GoesOut(e, e', e.users[u], u) && EngineOutcomes.Vanished(e', u) else e' == e
  }

  lemma LeaveOutcome(e: EngineModel.Engine, u: UserId, orders: EngineModel.Orders)
    requires EngineInvariants.Inv(e) && Fits(e, u, orders)
    ensures Out(e, EngineModel.Step(e, EngineModel.LeaveOp(u, orders)), u)
  {
    hide EngineInvariants.Inv, EngineModel.Step, EngineOutcomes.GoesOut, EngineOutcomes.Vanished, EngineModel.OrdersFit;
    var op := EngineModel.LeaveOp(u, orders);
    EngineOutcomes.IndexedMember(e, u);
    forall id ensures EngineModel.IsMember(e, id, u) ==> u in e.users && e.users[u] == id { EngineOutcomes.Located(e, u, id); }
    EngineOutcomes.GoingOutcome(e, op, if u in e.users then e.users[u] else "");
  }

  lemma EvictionOutcome(e: EngineModel.Engine, id: RoomId, u: UserId, orders: EngineModel.Orders)
    requires EngineInvariants.Inv(e) && EngineModel.Enabled(e, EngineModel.LeaveRoomOp(id, u, orders))
    ensures var e' := EngineModel.Step(e, EngineModel.LeaveRoomOp(id, u, orders));
            if u in e.users && e.users[u] == id then Out(e, e', u) else e' == e
  {
    hide EngineInvariants.Inv, EngineModel.Step, EngineOutcomes.GoesOut, EngineOutcomes.Vanished, EngineModel.OrdersFit;
    EngineOutcomes.IndexedMember(e, u);
    EngineOutcomes.Located(e, u, id);
    EngineOutcomes.GoingOutcome(e, EngineModel.LeaveRoomOp(id, u, orders), id);
  }

  /** Room `id` is gone, whoever was in it is in no room, and everybody else is where they were. */
  ghost predicate ClosesRoom(e: EngineModel.Engine, e': EngineModel.Engine, id: RoomId) {
    && e'.rooms == e.rooms - {id}
    && (forall u :: u in e'.users <==> u in e.users && e.users[u] != id) && (forall u :: u in e'.users ==> e'.users[u] == e.users[u])
  }

  /** Those on `list` are out of room `id`; the other rooms are as they were. */
  ghost predicate Emptied(e: EngineModel.Engine, e': EngineModel.Engine, id: RoomId, list: seq<UserId>) {
    && e'.rooms - {id} == e.rooms - {id}
    && (forall u :: u in e'.users <==> u in e.users && u !in list) && (forall u :: u in e'.users ==> e'.users[u] == e.users[u])
  }

  lemma OneOut(e: EngineModel.Engine, e': EngineModel.Engine, id: RoomId, u: UserId)
    requires EngineOutcomes.GoesOut(e, e', id, u)
    ensures e'.rooms - {id} == e.rooms - {id} && e'.users == e.users - {u}
  {
    hide RoomOutcomes.Leaves;
  }

  lemma {:induction false} LeavesEmpty(e: EngineModel.Engine, id: RoomId, list: seq<UserId>, ops: seq<EngineModel.Op>)
    requires EngineInvariants.Inv(e) && EngineModel.Possible(e, ops) && EngineModel.LeavesOf(list, ops)
    requires forall u :: u in list ==> u in e.users ==> e.users[u] == id
    ensures EngineInvariants.Inv(EngineModel.Run(e, ops)) && Emptied(e, EngineModel.Run(e, ops), id, list)
    decreases ops
  {
    hide EngineInvariants.Inv, EngineModel.Step, EngineOutcomes.GoesOut, EngineOutcomes.Vanished;
    if ops != [] {
      var u, e1 := ops[0].user, EngineModel.Step(e, ops[0]);
      assert ops[0] == EngineModel.LeaveOp(u, ops[0].orders);
      LeaveOutcome(e, u, ops[0].orders);
      EngineInvariants.StepKeeps(e, ops[0]);
      if u in e.users { OneOut(e, e1, id, u); }
      assert e1.users == e.users - {u} && e1.rooms - {id} == e.rooms - {id};
      hide EngineModel.Enabled, Out;
      assert forall v :: v in list[1..] ==> v in list;
      LeavesEmpty(e1, id, list[1..], ops[1..]);
      assert forall v :: v in list <==> v == u || v in list[1..];
    }
  }

  lemma ClosingOutcome(e: EngineModel.Engine, id: RoomId, ops: seq<EngineModel.Op>)
    requires EngineInvariants.Inv(e) && EngineModel.Possible(e, ops) && EngineModel.LeavesOf(EngineModel.RoomOrNew(e, id).order, ops)
    ensures ClosesRoom(e, EngineModel.Run(e, ops), id)
  {
    hide EngineInvariants.Inv, EngineModel.Run, EngineModel.Possible, EngineModel.LeavesOf;
    var list, e' := EngineModel.RoomOrNew(e, id).order, EngineModel.Run(e, ops);
    InOrder(e, id);
    LeavesEmpty(e, id, list, ops);
    forall u ensures !EngineModel.IsMember(e', id, u) { EngineOutcomes.Located(e', u, id); }
    EngineInvariants.NobodyLeft(e', id);
    assert e'.rooms == e'.rooms - {id};
  }

  lemma InOrder(e: EngineModel.Engine, id: RoomId)
    requires EngineInvariants.Inv(e)
    ensures forall u :: u in EngineModel.RoomOrNew(e, id).order <==> u in e.users && e.users[u] == id
  {
    forall u ensures u in EngineModel.RoomOrNew(e, id).order <==> u in e.users && e.users[u] == id {
      EngineOutcomes.Located(e, u, id);
      EngineOutcomes.IndexedMember(e, u);
      if id in e.rooms { EngineInvariants.RoomOk(e, id); OrderOf(e.rooms[id], e.serial); }
      hide EngineInvariants.Inv;
    }
  }

  lemma OrderOf(r: RoomModel.Room, n: nat)
    requires RoomInvariants.Ok(r, n)
    ensures forall u :: u in r.order <==> u in r.members
  {
    hide RoomInvariants.Tidy, RoomInvariants.Forwards, RoomInvariants.SubsOk, RoomInvariants.Locks, RoomInvariants.Presenting,
      RoomInvariants.OneHost;
  }

  /** Only connection `n`, if there is one, stopped speaking. */
  ghost predicate Silences(conns: map<nat, Conn>, after: map<nat, Conn>, n: Option<nat>) {
    after.Keys == conns.Keys
    && forall m :: m in conns ==> after[m] == conns[m].(finishing := conns[m].finishing || n == Some(m))
  }

  function ClientOf(h: Hub, u: UserId): Option<nat> {
    if u in h.clients then Some(h.clients[u]) else None
  }

  /**
   A connection of `u` arrives and speaks for `u`. One that spoke before does so no longer; then the room
   departure stands, and the call is over, or after a return of the same device waits for a resume.
   */
  ghost predicate Connects(h: Hub, s: Hub, u: UserId, device: string) {
    && s == h.(clients := h.clients[u := h.next], conns := s.conns, next := h.next + 1, clock := s.clock, p2p := s.p2p)
    && h.next in s.conns && s.conns[h.next] == Conn(u, device, false) && Silences(h.conns, s.conns - {h.next}, ClientOf(h, u))
    && if u !in h.clients then s.clock == h.clock && s.p2p == h.p2p
       else
         && Arms(h.clock, s.clock, u) && h.clients[u] in h.conns
         && var back := device != "" && h.conns[h.clients[u]].device == device;
            CallOutcomes.Achieves(h.p2p, s.p2p, if back then CallModel.DropOp(u) else CallModel.DisconnectOp(u))
  }

  lemma ConnectOutcome(h: Hub, u: UserId, device: string)
    requires Whole(h)
    ensures Connects(h, Register(h, u, device), u, device)
  {
    hide LeaveTimers.Schedule, Arms, EngineInvariants.Inv, CallInvariants.Inv, CallModel.Drop, CallModel.Disconnect, CallOutcomes.Achieves,
      LeaveTimers.AllArmed;
    ScheduleArms(h.clock, u);
    CallOutcomes.OpOutcome(h.p2p, CallModel.DropOp(u));
    CallOutcomes.OpOutcome(h.p2p, CallModel.DisconnectOp(u));
    assert h.next !in h.conns;
  }

  /** A connection is gone; if it spoke for its user, room and call departures stand, and otherwise nothing else happens. */
  ghost predicate Closes(h: Hub, s: Hub, n: nat) {
    n in h.conns && var u := h.conns[n].user;
    if ClientOf(h, u) == Some(n) then
      && s == h.(clients := h.clients - {u}, conns := h.conns - {n}, clock := s.clock, p2p := s.p2p)
      && Arms(h.clock, s.clock, u) && CallOutcomes.Achieves(h.p2p, s.p2p, CallModel.DropOp(u))
    else s == h.(conns := h.conns - {n})
  }

  lemma CloseOutcome(h: Hub, n: nat)
    requires Whole(h)
    ensures if n in h.conns then Closes(h, Unregister(h, n), n) else Unregister(h, n) == h
  {
    hide LeaveTimers.Schedule, Arms, EngineInvariants.Inv, CallInvariants.Inv, CallModel.Drop, CallOutcomes.Achieves,
      LeaveTimers.AllArmed, Connections;
    if n in h.conns {
      ScheduleArms(h.clock, h.conns[n].user);
      CallOutcomes.OpOutcome(h.p2p, CallModel.DropOp(h.conns[n].user));
    }
  }

  /** The user joins as asked, and then an owner takes the host role over. */
  ghost predicate Seats(e: EngineModel.Engine, e': EngineModel.Engine, join: EngineModel.Op, owner: bool) {
    join.JoinOp? &&
    if owner then
      exists mid :: EngineOutcomes.Joins(e, mid, join) && EngineOutcomes.OnlyRoom(mid, e', join.id)
                    && RoomOutcomes.Claims(mid.rooms[join.id], e'.rooms[join.id], join.user)
    else EngineOutcomes.Joins(e, e', join)
  }

  /** Is a join turned down: in a call, in another room, or new to a full one? */
  predicate TurnedDown(h: Hub, join: EngineModel.Op) {
    join.JoinOp? &&
    (join.user in h.p2p.byUser
     || (join.user in h.engine.users && h.engine.users[join.user] != join.id)
     || (join.user !in h.engine.users && |EngineModel.RoomOrNew(h.engine, join.id).members| >= h.engine.max))
  }

  lemma JoinOutcome(h: Hub, join: EngineModel.Op, owner: bool)
    requires Whole(h) && join.JoinOp? && EngineModel.Enabled(h.engine, join)
    ensures var s := Join(h, join, owner);
            if TurnedDown(h, join) then s == h
            else s == h.(engine := s.engine, clock := s.clock) && Cancels(h.clock, s.clock, join.user) && Seats(h.engine, s.engine, join, owner)
  {
    hide LeaveTimers.Cancel, Cancels, EngineInvariants.Inv, CallInvariants.Inv, EngineModel.Step, EngineModel.Enabled, EngineModel.Join,
      EngineOutcomes.Joins, EngineOutcomes.OnlyRoom, RoomOutcomes.Claims, LeaveTimers.AllArmed, Connections;
    CallParts(h.p2p);
    CancelCancels(h.clock, join.user);
    JoinedEngine(h.engine, join);
    if !TurnedDown(h, join) && owner { OwnerClaims(h.engine, join); }
  }

  lemma JoinedEngine(e: EngineModel.Engine, join: EngineModel.Op)
    requires EngineInvariants.Inv(e) && join.JoinOp? && EngineModel.Enabled(e, join)
    ensures var (e', result) := EngineModel.Join(e, join.id, join.user, join.video, join.resume, join.alive, join.orders, join.ts);
            && e' == EngineModel.Step(e, join) && EngineInvariants.Inv(e')
            && (result == EngineModel.Elsewhere || result == EngineModel.Full <==>
                  (join.user in e.users && e.users[join.user] != join.id)
                  || (join.user !in e.users && |EngineModel.RoomOrNew(e, join.id).members| >= e.max))
            && (if result == EngineModel.Elsewhere || result == EngineModel.Full then e' == e else EngineOutcomes.Joins(e, e', join))
            && (result != EngineModel.Elsewhere && result != EngineModel.Full ==> join.user in e'.users && e'.users[join.user] == join.id)
  {
    hide EngineInvariants.Inv, EngineModel.Enabled, EngineModel.Join, EngineOutcomes.Joins;
    EngineInvariants.JoinKeeps(e, join.id, join.user, join.video, join.resume, join.alive, join.orders, join.ts);
    EngineOutcomes.JoinOutcome(e, join);
  }

  lemma OwnerClaims(e: EngineModel.Engine, join: EngineModel.Op)
    requires join.JoinOp?
    requires var mid := EngineModel.Step(e, join);
             EngineInvariants.Inv(mid) && EngineOutcomes.Joins(e, mid, join) && join.user in mid.users && mid.users[join.user] == join.id
    ensures Seats(e, EngineModel.Step(EngineModel.Step(e, join), EngineModel.ClaimHostOp(join.id, join.user)), join, true)
  {
    hide EngineInvariants.Inv, EngineModel.Step, EngineOutcomes.Joins, EngineOutcomes.OnlyRoom, RoomOutcomes.Claims;
    var mid, op := EngineModel.Step(e, join), EngineModel.ClaimHostOp(join.id, join.user);
    EngineOutcomes.IndexedMember(mid, join.user);
    EngineOutcomes.InsideOutcome(mid, op, join.id);
  }

  /** What the message of `u` is about, read off the message. */
  predicate Means(h: Hub, u: UserId, m: Message, op: CallModel.Op) {
    match m
    case InviteMsg(callee, id, known) =>
      op.InviteOp? && op.caller == u && op.callee == callee && op.id == id && op.known == known
      && (op.inRoom <==> u in h.engine.users || callee in h.engine.users) && (op.online <==> callee in h.clients)
    case AcceptMsg(id) => op.AcceptOp? && op.id == id && op.user == u
    case DeclineMsg(id) => op.DeclineOp? && op.id == id && op.user == u
    case HangupMsg(id) => op.HangupOp? && op.id == id && op.user == u
    case ResumeMsg(id) => op.ResumeOp? && op.id == id && op.user == u
  }

  /** What an operation leads to. A connection that was replaced, closed or signed out speaks for nobody any more. */
  ghost predicate Meets(h: Hub, s: Hub, op: Op) {
    match op
    case ConnectOp(u, device) => Connects(h, s, u, device)
    case CloseOp(n) => if n in h.conns then Closes(h, s, n) else s == h
    case JoinOp(n, join, owner) =>
      if !Speaks(h, n) || !join.JoinOp? || TurnedDown(h, join) then s == h
      else s == h.(engine := s.engine, clock := s.clock) && Cancels(h.clock, s.clock, join.user) && Seats(h.engine, s.engine, join, owner)
    case LeaveOp(n, _) =>
      if !Speaks(h, n) then s == h
      else
        s == h.(engine := s.engine, clock := s.clock) && Cancels(h.clock, s.clock, h.conns[n].user) && Out(h.engine, s.engine, h.conns[n].user)
    case RoomOp(op) => s == h.(engine := EngineModel.Step(h.engine, op))
    case CallOp(n, m) =>
      if !Speaks(h, n) then s == h
      else s == h.(p2p := s.p2p) && exists op :: Means(h, h.conns[n].user, m, op) && CallOutcomes.Achieves(h.p2p, s.p2p, op)
    case KickUserOp(u, _) =>
      && s == h.(conns := s.conns, engine := s.engine, clock := s.clock, p2p := s.p2p)
      && Silences(h.conns, s.conns, ClientOf(h, u)) && Cancels(h.clock, s.clock, u) && Out(h.engine, s.engine, u)
      && CallOutcomes.Achieves(h.p2p, s.p2p, CallModel.DisconnectOp(u))
    case EvictOp(id, u, _) =>
      && s == h.(engine := s.engine, clock := s.clock) && Cancels(h.clock, s.clock, u)
      && if u in h.engine.users && h.engine.users[u] == id then Out(h.engine, s.engine, u) else s.engine == h.engine
    case CloseRoomOp(id, _) => s == h.(engine := s.engine) && ClosesRoom(h.engine, s.engine, id)
    case FireOp(t) =>
      if t in h.clock.running
      then s == h.(clock := h.clock.(running := h.clock.running - {t}, queue := h.clock.queue + [t])) else s == h
    case ExpireOp(k, _) =>
      && k < |h.clock.queue| && s == h.(engine := s.engine, clock := s.clock)
      && s.clock.queue == h.clock.queue[..k] + h.clock.queue[k + 1..] && s.clock.running == h.clock.running
      && var t := h.clock.queue[k];
         if LeaveTimers.Token(h.clock, t.user) == t.token then
           && Out(h.engine, s.engine, t.user)
           && s.clock.timers == h.clock.timers - {t.user} && s.clock.tokens == h.clock.tokens - {t.user}
         else s.engine == h.engine && s.clock.timers == h.clock.timers && s.clock.tokens == h.clock.tokens
    case RingFiresOp(id) => s == h.(p2p := s.p2p) && CallOutcomes.Achieves(h.p2p, s.p2p, CallModel.RingFires(id))
    case GraceFiresOp(u, t) => s == h.(p2p := s.p2p) && CallOutcomes.Achieves(h.p2p, s.p2p, CallModel.GraceOp(u, t))
  }

  lemma SilenceOne(conns: map<nat, Conn>, n: nat)
    ensures Silences(conns, Finish(conns, n), Some(n)) && Silences(conns, conns, None)
  {
  }

  /** Every operation leads to that, in every reachable hub. */
  lemma OpOutcome(h: Hub, op: Op)
    requires Whole(h) && Enabled(h, op) && NewCall(h, op)
    ensures Meets(h, Step(h, op), op)
  {
    hide Connects, Closes, TurnedDown, Seats, Cancels, Out, ClosesRoom, Silences, Connections, LeaveTimers.AllArmed, EngineInvariants.Inv,
      CallInvariants.Inv, CallModel.Step, CallModel.Used, CallModel.Disconnect, EngineModel.Step, EngineModel.Enabled, EngineModel.Run,
      EngineModel.Possible, EngineModel.LeavesOf, Fits, Join, Register, Unregister, CallOutcomes.Achieves, LeaveTimers.Cancel;
    match op
    case ConnectOp(u, device) => ConnectOutcome(h, u, device);
    case CloseOp(n) => CloseOutcome(h, n);
    case JoinOp(n, join, owner) => if Speaks(h, n) { JoinOutcome(h, join, owner); }
    case LeaveOp(n, orders) =>
      if Speaks(h, n) { LeaveOutcome(h.engine, h.conns[n].user, orders); CancelCancels(h.clock, h.conns[n].user); }
    case RoomOp(_) =>
    case CallOp(n, m) => if Speaks(h, n) { CallOutcomes.OpOutcome(h.p2p, Handling(h, h.conns[n].user, m)); }
    case KickUserOp(u, orders) =>
      LeaveOutcome(h.engine, u, orders);
      CancelCancels(h.clock, u);
      SilenceOne(h.conns, if u in h.clients then h.clients[u] else 0);
      CallOutcomes.OpOutcome(h.p2p, CallModel.DisconnectOp(u));
      assert CallModel.Step(h.p2p, CallModel.DisconnectOp(u)) == CallModel.Disconnect(h.p2p, u) by { CallsMove(h, op); }
    case EvictOp(id, u, orders) => EvictionOutcome(h.engine, id, u, orders); CancelCancels(h.clock, u);
    case CloseRoomOp(id, ops) => ClosingOutcome(h.engine, id, ops);
    case FireOp(_) =>
    case ExpireOp(k, orders) => LeaveOutcome(h.engine, h.clock.queue[k].user, orders);
    case RingFiresOp(id) => CallOutcomes.OpOutcome(h.p2p, CallModel.RingFires(id));
    case GraceFiresOp(u, t) => CallOutcomes.OpOutcome(h.p2p, CallModel.GraceOp(u, t));
  }

  // ---- a departure can always happen ----

  /**
   Whoever is in a room without a connection can be taken out: their timer may run out, its callback then waits,
   and whenever it is that callback's turn they are out, with everything they had.
   */
  lemma AbsentCanDepart(h: Hub, u: UserId) returns (k: nat)
    requires Inv(h) && u in h.engine.users && u !in h.clients
    ensures LeaveTimers.Armed(h.clock, u)
    ensures var f := Step(h, FireOp(h.clock.timers[u]));
            && f == h.(clock := f.clock) && k < |f.clock.queue| && f.clock.queue[k] == h.clock.timers[u]
            && forall orders :: Fits(h.engine, u, orders) ==> Out(h.engine, Step(f, ExpireOp(k, orders)).engine, u)
  {
    hide Fits, Out, EngineInvariants.Inv, EngineModel.Step, CallInvariants.Pairing, CallInvariants.RingTimers;
    HubProperties.Covered(h, u);
    var t := h.clock.timers[u];
    var f := Step(h, FireOp(t));
    assert f.clock == LeaveTimers.Fire(h.clock, t);
    assert t in f.clock.queue by { if t in h.clock.running { assert f.clock.queue[|h.clock.queue|] == t; } }
    k :| 0 <= k < |f.clock.queue| && f.clock.queue[k] == t;
    forall orders | Fits(h.engine, u, orders) ensures Out(h.engine, Step(f, ExpireOp(k, orders)).engine, u) {
      LeaveOutcome(h.engine, u, orders);
    }
  }
}
