/**
 Nobody is stranded: in every run each member of a room is connected or will be taken out by an armed
 departure timer, and each party of a call is connected or has an armed grace timer. The one operation
 that can break this is evicting somebody from a room they are not in.
 */
module HubInvariants {
  import opened Media
  import opened HubModel
  import LeaveTimers
  import EngineModel
  import EngineInvariants
  import CallModel
  import CallInvariants

  /** Each client is the connection of its user, and only the client of a user can speak for it. */
  ghost predicate Connections(h: Hub) {
    && (forall u :: u in h.clients ==> h.clients[u] in h.conns && h.conns[h.clients[u]].user == u)
    && (forall n :: Speaks(h, n) ==> h.conns[n].user in h.clients && h.clients[h.conns[n].user] == n)
    && (forall n :: n in h.conns ==> n < h.next)
  }

  ghost predicate RoomsCovered(h: Hub) {
    forall u :: u in h.engine.users ==> u in h.clients || LeaveTimers.Armed(h.clock, u)
  }

  ghost predicate CallsCovered(h: Hub) {
    forall u :: u in h.p2p.byUser ==> u in h.clients || u in h.p2p.grace
  }

  ghost predicate Sound(h: Hub) {
    && Connections(h) && LeaveTimers.AllArmed(h.clock)
    && EngineInvariants.Inv(h.engine) && CallInvariants.Pairing(h.p2p) && CallInvariants.RingTimers(h.p2p)
  }

  ghost predicate Inv(h: Hub) {
    Sound(h) && RoomsCovered(h) && CallsCovered(h)
  }

  /** Evicting somebody offline from a room they are not in is the excluded case. */
  predicate Harmless(h: Hub, op: Op) {
    op.EvictOp? ==> op.user in h.clients || (op.user in h.engine.users ==> h.engine.users[op.user] == op.id)
  }

  // ---- departure timers ----

  predicate Spares(c: LeaveTimers.Clock, k: nat, u: UserId)
    requires k < |c.queue|
  {
    c.queue[k].user == u ==> !LeaveTimers.Counts(c, c.queue[k])
  }

  lemma Kept(h: Hub, op: LeaveTimers.Op, u: UserId)
    requires LeaveTimers.AllArmed(h.clock) && LeaveTimers.Armed(h.clock, u)
    requires !(op.CancelOp? && op.user == u)
    requires op.TakeOp? ==> op.index < |h.clock.queue| && Spares(h.clock, op.index, u)
    ensures LeaveTimers.Armed(LeaveTimers.Step(h.clock, op), u)
  {
    hide LeaveTimers.Armed, LeaveTimers.Step, LeaveTimers.Counts;
    LeaveTimers.StepArmed(h.clock, op);
    OnRecord(h.clock, u);
    OnRecordArmed(LeaveTimers.Step(h.clock, op));
  }

  lemma OnRecord(c: LeaveTimers.Clock, u: UserId)
    requires LeaveTimers.Armed(c, u)
    ensures u in c.timers
  {
  }

  lemma OnRecordArmed(c: LeaveTimers.Clock)
    requires LeaveTimers.AllArmed(c)
    ensures forall u :: u in c.timers ==> LeaveTimers.Armed(c, u)
  {
  }

  // ---- direct calls ----

  /** Parties that are new to the index have just called or been called. */
  lemma CallEffects(s: CallModel.State, op: CallModel.Op)
    requires CallInvariants.Pairing(s) && CallInvariants.RingTimers(s) && !op.OtherWriter?
    ensures var t := CallModel.Step(s, op);
            && CallInvariants.Pairing(t) && CallInvariants.RingTimers(t)
            && (forall u :: u in t.byUser && u !in s.byUser ==> op.InviteOp? && op.online && (u == op.caller || u == op.callee))
            && (forall u :: u in s.grace && u !in t.grace ==>
                  (op.ResumeOp? && u == op.user) || (op.GraceOp? && u == op.user && u !in t.byUser))
  {
    hide CallModel.Finalize, CallModel.Release, CallModel.LogInvite;
    match op
    case InviteOp(a, b, id, known, inRoom, online) =>
      if CallModel.Placeable(s, a, b, id, known, inRoom) { CallInvariants.InvitePairing(s, a, b, id, known, inRoom, online); }
    case AcceptOp(id, u) => if CallModel.CanAccept(s, id, u) { CallInvariants.AcceptPairing(s, id, u); }
    case DeclineOp(id, u) => EndEffects(s, id, Some(CallModel.Ringing));
    case HangupOp(id, u) => EndEffects(s, id, None);
    case RingFires(id) => EndEffects(s, id, Some(CallModel.Ringing));
    case DropOp(u) =>
    case ResumeOp(u, id) =>
    case GraceOp(u, t) => DisconnectEffects(s.(grace := s.grace - {u}), u);
    case DisconnectOp(u) => DisconnectEffects(s, u);
  }

  lemma EndEffects(s: CallModel.State, id: CallModel.CallId, expected: Option<CallModel.Phase>)
    requires CallInvariants.Pairing(s) && CallInvariants.RingTimers(s)
    ensures var t := CallModel.End(s, id, expected);
            && CallInvariants.Pairing(t) && CallInvariants.RingTimers(t) && t.grace == s.grace
            && forall u :: u in t.byUser ==> u in s.byUser
  {
    CallInvariants.EndPairing(s, id, expected);
  }

  lemma DisconnectEffects(s: CallModel.State, u: UserId)
    requires CallInvariants.Pairing(s) && CallInvariants.RingTimers(s)
    ensures var t := CallModel.Disconnect(s, u);
            && CallInvariants.Pairing(t) && CallInvariants.RingTimers(t) && t.grace == s.grace
            && u !in t.byUser && forall v :: v in t.byUser ==> v in s.byUser
  {
    if u in s.byUser {
      CallInvariants.EndPairing(s, s.byUser[u], None);
      EndEffects(s, s.byUser[u], None);
    }
  }

  // ---- connecting and disconnecting ----

  lemma ConnectKeeps(h: Hub, u: UserId, device: string)
    requires Inv(h)
    ensures Inv(Register(h, u, device))
  {
    hide LeaveTimers.AllArmed, LeaveTimers.Armed, LeaveTimers.Schedule, LeaveTimers.Stop, EngineInvariants.Inv,
      CallInvariants.Pairing, CallInvariants.RingTimers, CallModel.Disconnect, CallModel.Drop, RoomsCovered, CallsCovered, Connections;
    ConnectConnections(h, u, device);
    if u in h.clients {
      ScheduleArmed(h, u);
      DropEffects(h.p2p, u);
      DisconnectEffects(h.p2p, u);
      ConnectCovers(h, u, device);
    } else {
      MoreClients(h, Register(h, u, device));
    }
  }

  lemma ConnectConnections(h: Hub, u: UserId, device: string)
    requires Connections(h)
    ensures Connections(Register(h, u, device))
    ensures Register(h, u, device).clients == h.clients[u := h.next]
  {
    hide LeaveTimers.Schedule, CallModel.Drop, CallModel.Disconnect, SameDevice;
  }

  lemma ScheduleArmed(h: Hub, u: UserId)
    requires LeaveTimers.AllArmed(h.clock)
    ensures LeaveTimers.AllArmed(LeaveTimers.Schedule(h.clock, u)) && LeaveTimers.Armed(LeaveTimers.Schedule(h.clock, u), u)
    ensures forall v :: LeaveTimers.Armed(h.clock, v) ==> LeaveTimers.Armed(LeaveTimers.Schedule(h.clock, u), v)
  {
    hide LeaveTimers.Armed, LeaveTimers.AllArmed, LeaveTimers.Schedule;
    LeaveTimers.StepArmed(h.clock, LeaveTimers.ScheduleOp(u));
    assert LeaveTimers.Step(h.clock, LeaveTimers.ScheduleOp(u)) == LeaveTimers.Schedule(h.clock, u);
    OnRecordArmed(LeaveTimers.Schedule(h.clock, u));
    forall v | LeaveTimers.Armed(h.clock, v) ensures LeaveTimers.Armed(LeaveTimers.Schedule(h.clock, u), v) {
      OnRecord(h.clock, v);
    }
  }

  lemma DropEffects(s: CallModel.State, u: UserId)
    requires CallInvariants.Pairing(s) && CallInvariants.RingTimers(s)
    ensures var t := CallModel.Drop(s, u);
            && CallInvariants.Pairing(t) && CallInvariants.RingTimers(t) && t.byUser == s.byUser && s.grace.Keys <= t.grace.Keys
            && (u in s.byUser ==> u in t.grace)
  {
  }

  lemma MoreClients(h: Hub, h': Hub)
    requires RoomsCovered(h) && CallsCovered(h)
    requires h'.clock == h.clock && h'.engine == h.engine && h'.p2p == h.p2p && h.clients.Keys <= h'.clients.Keys
    ensures RoomsCovered(h') && CallsCovered(h')
  {
    hide LeaveTimers.Armed;
  }

  lemma ConnectCovers(h: Hub, u: UserId, device: string)
    requires RoomsCovered(h) && CallsCovered(h) && u in h.clients
    requires forall v :: LeaveTimers.Armed(h.clock, v) ==> LeaveTimers.Armed(LeaveTimers.Schedule(h.clock, u), v)
    requires var t := CallModel.Drop(h.p2p, u); t.byUser == h.p2p.byUser && h.p2p.grace.Keys <= t.grace.Keys
    requires var t := CallModel.Disconnect(h.p2p, u); t.grace == h.p2p.grace && forall v :: v in t.byUser ==> v in h.p2p.byUser
    ensures RoomsCovered(Register(h, u, device)) && CallsCovered(Register(h, u, device))
  {
    hide LeaveTimers.Armed, LeaveTimers.Schedule, CallModel.Drop, CallModel.Disconnect;
  }

  lemma CloseKeeps(h: Hub, n: nat)
    requires Inv(h)
    ensures Inv(Unregister(h, n))
  {
    hide LeaveTimers.AllArmed, LeaveTimers.Armed, LeaveTimers.Schedule, EngineInvariants.Inv,
      CallInvariants.Pairing, CallInvariants.RingTimers, CallModel.Drop;
    if n in h.conns {
      var u := h.conns[n].user;
      ScheduleArmed(h, u);
      DropEffects(h.p2p, u);
    }
  }

  // ---- rooms ----

  /** A room departure of `u` frees it from every room. */
  lemma LeaveEffects(e: EngineModel.Engine, u: UserId, orders: EngineModel.Orders)
    requires EngineInvariants.Inv(e) && Fits(e, u, orders)
    ensures var e' := EngineModel.Step(e, EngineModel.LeaveOp(u, orders));
            EngineInvariants.Inv(e') && e'.users == e.users - {u}
  {
    hide EngineModel.RemoveFrom, EngineModel.OrdersFit, EngineInvariants.RoomsOk;
    EngineInvariants.StepKeeps(e, EngineModel.LeaveOp(u, orders));
    if u in e.users {
      assert EngineModel.IsMember(e, e.users[u], u);
      EngineInvariants.RemoveFromKeeps(e, e.users[u], u, orders);
    }
  }

  lemma CancelArmed(h: Hub, u: UserId)
    requires LeaveTimers.AllArmed(h.clock)
    ensures LeaveTimers.AllArmed(LeaveTimers.Cancel(h.clock, u)) && !LeaveTimers.Armed(LeaveTimers.Cancel(h.clock, u), u)
    ensures forall v :: v != u && LeaveTimers.Armed(h.clock, v) ==> LeaveTimers.Armed(LeaveTimers.Cancel(h.clock, u), v)
  {
    hide LeaveTimers.Armed, LeaveTimers.AllArmed, LeaveTimers.Cancel;
    LeaveTimers.StepArmed(h.clock, LeaveTimers.CancelOp(u));
    assert LeaveTimers.Step(h.clock, LeaveTimers.CancelOp(u)) == LeaveTimers.Cancel(h.clock, u);
    OnRecordArmed(LeaveTimers.Cancel(h.clock, u));
    forall v | v != u && LeaveTimers.Armed(h.clock, v) ensures LeaveTimers.Armed(LeaveTimers.Cancel(h.clock, u), v) {
      OnRecord(h.clock, v);
    }
    if LeaveTimers.Armed(LeaveTimers.Cancel(h.clock, u), u) { OnRecord(LeaveTimers.Cancel(h.clock, u), u); }
  }

  /** With the departure of `u` cancelled, everybody else stays covered. */
  lemma CancelCovers(h: Hub, h': Hub, u: UserId)
    requires Inv(h) && h'.clock == LeaveTimers.Cancel(h.clock, u)
    requires EngineInvariants.Inv(h'.engine) && forall v :: v in h'.engine.users && v != u ==> v in h.engine.users
    requires h'.clients == h.clients && Connections(h')
    requires CallInvariants.Pairing(h'.p2p) && CallInvariants.RingTimers(h'.p2p) && CallsCovered(h')
    ensures Sound(h') && (RoomsCovered(h') <==> (u in h'.engine.users ==> u in h.clients))
  {
    hide LeaveTimers.AllArmed, LeaveTimers.Armed, LeaveTimers.Cancel, EngineInvariants.Inv, CallInvariants.Pairing,
      CallInvariants.RingTimers, Connections, CallsCovered;
    CancelArmed(h, u);
  }

  /** After a join that succeeded, the user is in the room, as the host if it is the owner's. */
  lemma JoinEffects(h: Hub, op: EngineModel.Op, owner: bool)
    requires EngineInvariants.Inv(h.engine) && op.JoinOp? && EngineModel.Enabled(h.engine, op)
    ensures var j := Join(h, op, owner);
            && EngineInvariants.Inv(j.engine)
            && (j == h || j == h.(engine := j.engine, clock := LeaveTimers.Cancel(h.clock, op.user)))
            && (j != h ==> j.engine.users == h.engine.users[op.user := op.id])
  {
    hide LeaveTimers.Cancel, EngineInvariants.Inv, EngineModel.Join, EngineModel.Step, EngineModel.Enabled;
    EngineInvariants.JoinKeeps(h.engine, op.id, op.user, op.video, op.resume, op.alive, op.orders, op.ts);
    var e := EngineModel.Join(h.engine, op.id, op.user, op.video, op.resume, op.alive, op.orders, op.ts).0;
    EngineInvariants.ControlKeeps(e, EngineModel.ClaimHostOp(op.id, op.user));
  }

  lemma JoinKeeps(h: Hub, n: nat, op: EngineModel.Op, owner: bool)
    requires Inv(h) && Enabled(h, JoinOp(n, op, owner)) && Speaks(h, n)
    ensures Inv(Join(h, op, owner))
  {
    hide LeaveTimers.Cancel, EngineInvariants.Inv, EngineModel.Step, EngineModel.Enabled,
      CallInvariants.Pairing, CallInvariants.RingTimers, RoomsCovered, Join;
    JoinEffects(h, op, owner);
    var j := Join(h, op, owner);
    if j != h {
      SameCalls(h, j);
      CancelCovers(h, j, op.user);
    }
  }

  lemma SameCalls(h: Hub, h': Hub)
    requires Connections(h) && CallsCovered(h) && h'.clients == h.clients && h'.conns == h.conns && h'.next == h.next && h'.p2p == h.p2p
    ensures Connections(h') && CallsCovered(h')
  {
  }

  lemma LeaveKeeps(h: Hub, n: nat, orders: EngineModel.Orders)
    requires Inv(h) && Speaks(h, n) && Fits(h.engine, h.conns[n].user, orders)
    ensures Inv(Leave(Cancelled(h, h.conns[n].user), h.conns[n].user, orders))
  {
    hide LeaveTimers.Cancel, EngineInvariants.Inv, EngineModel.Step, Fits, CallInvariants.Pairing, CallInvariants.RingTimers, RoomsCovered;
    var u := h.conns[n].user;
    LeaveEffects(h.engine, u, orders);
    CancelCovers(h, Leave(Cancelled(h, u), u, orders), u);
  }

  lemma KickUserKeeps(h: Hub, u: UserId, orders: EngineModel.Orders)
    requires Inv(h) && Fits(h.engine, u, orders)
    ensures Inv(KickUser(h, u, orders)) && u !in KickUser(h, u, orders).engine.users && u !in KickUser(h, u, orders).p2p.byUser
  {
    hide LeaveTimers.Cancel, EngineInvariants.Inv, EngineModel.Step, Fits, CallInvariants.Pairing, CallInvariants.RingTimers,
      RoomsCovered, CallModel.Disconnect;
    LeaveEffects(h.engine, u, orders);
    DisconnectEffects(h.p2p, u);
    CancelCovers(h, KickUser(h, u, orders), u);
  }

  lemma RemovalEffects(e: EngineModel.Engine, id: RoomId, u: UserId, orders: EngineModel.Orders)
    requires EngineInvariants.Inv(e) && EngineModel.Enabled(e, EngineModel.LeaveRoomOp(id, u, orders))
    ensures var e' := EngineModel.Step(e, EngineModel.LeaveRoomOp(id, u, orders));
            && EngineInvariants.Inv(e')
            && e'.users == if u in e.users && e.users[u] == id then e.users - {u} else e.users
  {
    hide EngineModel.RemoveFrom, EngineModel.OrdersFit, EngineInvariants.RoomsOk;
    EngineInvariants.RemoveFromKeeps(e, id, u, orders);
    if u in e.users && e.users[u] == id { assert EngineModel.IsMember(e, id, u); }
    if !EngineModel.IsMember(e, id, u) { NotThere(e, id, u, orders); }
  }

  lemma NotThere(e: EngineModel.Engine, id: RoomId, u: UserId, orders: EngineModel.Orders)
    requires !EngineModel.IsMember(e, id, u)
    ensures EngineModel.RemoveFrom(e, id, u, orders) == e
  {
  }

  /** Evicting strands somebody exactly when they are offline and in another room. */
  lemma EvictKeeps(h: Hub, id: RoomId, u: UserId, orders: EngineModel.Orders)
    requires Inv(h) && EngineModel.Enabled(h.engine, EngineModel.LeaveRoomOp(id, u, orders))
    ensures Inv(Evict(h, id, u, orders)) <==> Harmless(h, EvictOp(id, u, orders))
    ensures Sound(Evict(h, id, u, orders))
  {
    hide LeaveTimers.Cancel, EngineInvariants.Inv, EngineModel.Step, EngineModel.Enabled, CallInvariants.Pairing,
      CallInvariants.RingTimers, RoomsCovered;
    RemovalEffects(h.engine, id, u, orders);
    CancelCovers(h, Evict(h, id, u, orders), u);
  }

  // ---- inside a room, and callbacks ----

  /** A host may remove somebody; nothing else that happens inside a room moves anyone. */
  lemma InsideEffects(e: EngineModel.Engine, op: EngineModel.Op)
    requires EngineInvariants.Inv(e) && Inside(op) && EngineModel.Enabled(e, op)
    ensures EngineInvariants.Inv(EngineModel.Step(e, op))
    ensures forall v :: v in EngineModel.Step(e, op).users ==> v in e.users
  {
    hide EngineInvariants.Inv, EngineModel.OrdersFit, EngineModel.RemoveFrom;
    EngineInvariants.StepKeeps(e, op);
    match op
    case KickOp(asker, u, admin, orders) =>
      if EngineModel.Controls(e, asker, u, admin) { EngineInvariants.RemoveFromKeeps(e, e.users[u], u, orders); }
    case TrackStateOp(_, _) => hide EngineModel.Step; EngineInvariants.StreamKeeps(e, op);
    case OnTrackOp(_, _, _) => hide EngineModel.Step; EngineInvariants.StreamKeeps(e, op);
    case TrackEndedOp(_) => hide EngineModel.Step; EngineInvariants.StreamKeeps(e, op);
    case AnswerOp(_) => hide EngineModel.Step; EngineInvariants.StreamKeeps(e, op);
    case _ => hide EngineModel.Step; EngineInvariants.ControlKeeps(e, op);
  }

  lemma {:induction false} ClosingEffects(e: EngineModel.Engine, ops: seq<EngineModel.Op>)
    requires EngineInvariants.Inv(e) && EngineModel.Possible(e, ops) && forall i :: 0 <= i < |ops| ==> ops[i].LeaveOp?
    ensures EngineInvariants.Inv(EngineModel.Run(e, ops))
    ensures forall v :: v in EngineModel.Run(e, ops).users ==> v in e.users
    decreases ops
  {
    hide EngineInvariants.Inv, EngineModel.Step, EngineModel.Enabled;
    if ops != [] {
      LeaveEffects(e, ops[0].user, ops[0].orders);
      ClosingEffects(EngineModel.Step(e, ops[0]), ops[1..]);
    }
  }

  lemma FewerMembers(h: Hub, e: EngineModel.Engine)
    requires Inv(h) && EngineInvariants.Inv(e) && forall v :: v in e.users ==> v in h.engine.users
    ensures Inv(h.(engine := e))
  {
    hide LeaveTimers.AllArmed, LeaveTimers.Armed, EngineInvariants.Inv, CallInvariants.Pairing, CallInvariants.RingTimers;
  }

  lemma FireKeeps(h: Hub, t: LeaveTimers.Timer)
    requires Inv(h)
    ensures Inv(h.(clock := LeaveTimers.Fire(h.clock, t)))
  {
    hide LeaveTimers.AllArmed, LeaveTimers.Armed, LeaveTimers.Fire, EngineInvariants.Inv, CallInvariants.Pairing,
      CallInvariants.RingTimers;
    LeaveTimers.StepArmed(h.clock, LeaveTimers.FireOp(t));
    assert LeaveTimers.Step(h.clock, LeaveTimers.FireOp(t)) == LeaveTimers.Fire(h.clock, t);
    forall u | LeaveTimers.Armed(h.clock, u) ensures LeaveTimers.Armed(LeaveTimers.Fire(h.clock, t), u) {
      Kept(h, LeaveTimers.FireOp(t), u);
    }
  }

  /** When the callback that counts gets the lock its user is out of every room. */
  lemma ExpireKeeps(h: Hub, k: nat, orders: EngineModel.Orders)
    requires Inv(h) && Enabled(h, ExpireOp(k, orders))
    ensures Inv(Expire(h, k, orders))
    ensures LeaveTimers.Counts(h.clock, h.clock.queue[k]) ==> h.clock.queue[k].user !in Expire(h, k, orders).engine.users
  {
    hide LeaveTimers.AllArmed, LeaveTimers.Armed, LeaveTimers.Counts, LeaveTimers.Take, EngineInvariants.Inv, EngineModel.Step, Fits,
      CallInvariants.Pairing, CallInvariants.RingTimers;
    var t := h.clock.queue[k];
    LeaveEffects(h.engine, t.user, orders);
    LeaveTimers.StepArmed(h.clock, LeaveTimers.TakeOp(k));
    assert LeaveTimers.Step(h.clock, LeaveTimers.TakeOp(k)) == LeaveTimers.Take(h.clock, k);
    forall u | LeaveTimers.Armed(h.clock, u) && !(u == t.user && LeaveTimers.Counts(h.clock, t))
      ensures LeaveTimers.Armed(LeaveTimers.Take(h.clock, k), u)
    {
      Kept(h, LeaveTimers.TakeOp(k), u);
    }
  }

  lemma CallOpKeeps(h: Hub, op: CallModel.Op)
    requires Inv(h) && !op.OtherWriter?
    requires op.InviteOp? ==> op.caller in h.clients && op.online == (op.callee in h.clients)
    requires op.ResumeOp? ==> op.user in h.clients
    ensures Inv(h.(p2p := CallModel.Step(h.p2p, op)))
  {
    hide LeaveTimers.AllArmed, LeaveTimers.Armed, EngineInvariants.Inv, CallInvariants.Pairing, CallInvariants.RingTimers, CallModel.Step;
    CallEffects(h.p2p, op);
  }

  // ---- every operation, every run ----

  lemma StepKeeps(h: Hub, op: Op)
    requires Inv(h) && Enabled(h, op) && Harmless(h, op)
    ensures Inv(Step(h, op))
  {
    hide LeaveTimers.AllArmed, LeaveTimers.Armed, EngineInvariants.Inv, CallInvariants.Pairing, CallInvariants.RingTimers,
      EngineModel.Step, EngineModel.Enabled, EngineModel.Run, EngineModel.Possible, CallModel.Step, Join, Leave, KickUser, Evict, Expire,
      Register, Unregister, Cancelled, Fits, RoomsCovered, CallsCovered;
    match op
    case ConnectOp(u, device) => ConnectKeeps(h, u, device);
    case CloseOp(n) => CloseKeeps(h, n);
    case JoinOp(n, join, owner) => if Speaks(h, n) { JoinKeeps(h, n, join, owner); }
    case LeaveOp(n, orders) => if Speaks(h, n) { LeaveKeeps(h, n, orders); }
    case RoomOp(op) => InsideEffects(h.engine, op); FewerMembers(h, EngineModel.Step(h.engine, op));
    case CallOp(n, m) => if Speaks(h, n) { CallOpKeeps(h, Handling(h, h.conns[n].user, m)); }
    case KickUserOp(u, orders) => KickUserKeeps(h, u, orders);
    case EvictOp(id, u, orders) => EvictKeeps(h, id, u, orders);
    case CloseRoomOp(_, ops) => ClosingEffects(h.engine, ops); FewerMembers(h, EngineModel.Run(h.engine, ops));
    case FireOp(t) => FireKeeps(h, t);
    case ExpireOp(k, orders) => ExpireKeeps(h, k, orders);
    case RingFiresOp(id) => CallOpKeeps(h, CallModel.RingFires(id));
    case GraceFiresOp(u, t) => CallOpKeeps(h, CallModel.GraceOp(u, t));
  }
}
