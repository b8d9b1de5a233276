/** The main results about the hub, over all runs, and the promises the code does not keep. */
module HubProperties {
  import opened Media
  import opened HubModel
  import opened HubInvariants
  import LeaveTimers
  import EngineModel
  import EngineInvariants
  import CallModel
  import CallInvariants

  // ---- nobody is stranded ----

  /** Somebody in a room or a call whom neither a connection nor an armed timer accounts for. */
  ghost predicate Stranded(h: Hub, u: UserId) {
    && u !in h.clients
    && ((u in h.engine.users && !LeaveTimers.Armed(h.clock, u)) || (u in h.p2p.byUser && u !in h.p2p.grace))
  }

  ghost predicate NeverStranded(h: Hub, ops: seq<Op>)
    decreases ops
  {
    (forall u :: !Stranded(h, u)) && (ops == [] || NeverStranded(Step(h, ops[0]), ops[1..]))
  }

  predicate AllHarmless(h: Hub, ops: seq<Op>)
    decreases ops
  {
    ops == [] || (Harmless(h, ops[0]) && AllHarmless(Step(h, ops[0]), ops[1..]))
  }

  lemma CoveredMeansNotStranded(h: Hub)
    requires Sound(h)
    ensures Inv(h) <==> forall u :: !Stranded(h, u)
  {
    hide LeaveTimers.Armed, Sound;
    if forall u :: !Stranded(h, u) {
      assert RoomsCovered(h) by {
        forall u | u in h.engine.users ensures u in h.clients || LeaveTimers.Armed(h.clock, u) { assert !Stranded(h, u); }
      }
      assert CallsCovered(h) by {
        forall u | u in h.p2p.byUser ensures u in h.clients || u in h.p2p.grace { assert !Stranded(h, u); }
      }
    }
  }

  lemma SoundStep(h: Hub, op: Op)
    requires Inv(h) && Enabled(h, op)
    ensures Sound(Step(h, op)) && (Inv(Step(h, op)) <==> Harmless(h, op))
  {
    hide Inv, Enabled, Harmless, Sound, Step;
    if Harmless(h, op) {
      StepKeeps(h, op);
      InvIsSound(Step(h, op));
    } else {
      Evicts(h, op);
    }
  }

  lemma InvIsSound(h: Hub)
    requires Inv(h)
    ensures Sound(h)
  {
  }

  lemma Evicts(h: Hub, op: Op)
    requires Inv(h) && Enabled(h, op) && !Harmless(h, op)
    ensures Sound(Step(h, op)) && !Inv(Step(h, op))
  {
    hide Inv, Sound, Evict;
    EvictKeeps(h, op.id, op.user, op.orders);
  }

  /**
   For all interleavings: nobody is ever stranded if and only if nobody offline is evicted from a room
   while being in another.
   */
  lemma {:induction false} StrandedOnlyByEviction(h: Hub, ops: seq<Op>)
    requires Inv(h) && Possible(h, ops)
    ensures NeverStranded(h, ops) <==> AllHarmless(h, ops)
    decreases ops
  {
    hide Inv, Enabled, Harmless, Sound, Step, Stranded;
    InvIsSound(h);
    CoveredMeansNotStranded(h);
    if ops != [] {
      SoundStep(h, ops[0]);
      CoveredMeansNotStranded(Step(h, ops[0]));
      if Harmless(h, ops[0]) {
        StrandedOnlyByEviction(Step(h, ops[0]), ops[1..]);
      } else {
        StartsStranded(Step(h, ops[0]), ops[1..]);
      }
    }
  }

  lemma StartsStranded(h: Hub, ops: seq<Op>)
    requires exists u :: Stranded(h, u)
    ensures !NeverStranded(h, ops)
  {
  }

  /** A server starts without connections, rooms and calls. */
  lemma StartIsSound(max: int, p2p: CallModel.State)
    requires p2p.calls == map[] && p2p.byUser == map[]
    ensures Inv(New(max, p2p))
  {
  }

  /**
   What the finishing gate is for: a join still carried out for a client that has been replaced or torn
   down strands its user exactly when it succeeds and nobody is connected for them.
   */
  lemma LateJoinStrands(h: Hub, join: EngineModel.Op, owner: bool)
    requires Inv(h) && join.JoinOp? && EngineModel.Enabled(h.engine, join)
    ensures var j := Join(h, join, owner); Inv(j) <==> j == h || join.user in h.clients
  {
    hide LeaveTimers.Cancel, EngineInvariants.Inv, EngineModel.Enabled, CallInvariants.Pairing, CallInvariants.RingTimers, RoomsCovered, Join;
    JoinEffects(h, join, owner);
    var j := Join(h, join, owner);
    if j != h {
      SameCalls(h, j);
      CancelCovers(h, j, join.user);
    }
  }

  /** Would carrying out this message for `u`, with nobody connected for it, strand it? */
  predicate HarmsOffline(h: Hub, u: UserId, m: Message) {
    match m
    case InviteMsg(callee, id, known) =>
      CallModel.Placeable(h.p2p, u, callee, id, known, u in h.engine.users || callee in h.engine.users)
      && callee in h.clients && u !in h.p2p.grace
    case ResumeMsg(id) => u in h.p2p.byUser && h.p2p.byUser[u] == id
    case _ => false
  }

  /** The same for call messages: a late invitation that rings and a late resume strand, and nothing else does. */
  lemma LateMessageStrands(h: Hub, u: UserId, m: Message)
    requires Inv(h)
    ensures var l := h.(p2p := CallModel.Step(h.p2p, Handling(h, u, m)));
            Sound(l) && (Inv(l) <==> u in h.clients || !HarmsOffline(h, u, m))
  {
    hide LeaveTimers.AllArmed, EngineInvariants.Inv, CallInvariants.Pairing, CallInvariants.RingTimers;
    CallEffects(h.p2p, Handling(h, u, m));
    hide LeaveTimers.Armed, CallModel.Finalize, CallModel.LogInvite, CallModel.End;
  }

  // ---- superseded callbacks ----

  /** Every operation of the hub is at most one operation on the departure timers. */
  function Moves(h: Hub, op: Op): Option<LeaveTimers.Op> {
    match op
    case ConnectOp(u, _) => if u in h.clients then Some(LeaveTimers.ScheduleOp(u)) else None
    case CloseOp(n) =>
      if n in h.conns && h.conns[n].user in h.clients && h.clients[h.conns[n].user] == n
      then Some(LeaveTimers.ScheduleOp(h.conns[n].user)) else None
    case JoinOp(n, join, owner) => if Step(h, op) != h && join.JoinOp? then Some(LeaveTimers.CancelOp(join.user)) else None
    case LeaveOp(n, _) => if Speaks(h, n) then Some(LeaveTimers.CancelOp(h.conns[n].user)) else None
    case KickUserOp(u, _) => Some(LeaveTimers.CancelOp(u))
    case EvictOp(_, u, _) => Some(LeaveTimers.CancelOp(u))
    case FireOp(t) => Some(LeaveTimers.FireOp(t))
    case ExpireOp(k, _) => if k < |h.clock.queue| then Some(LeaveTimers.TakeOp(k)) else None
    case _ => None
  }

  lemma MovesTimers(h: Hub, op: Op)
    ensures var m := Moves(h, op);
            Step(h, op).clock == if m.Some? then LeaveTimers.Step(h.clock, m.value) else h.clock
  {
    hide LeaveTimers.Schedule, LeaveTimers.Cancel, LeaveTimers.Fire, LeaveTimers.Take, EngineModel.Step, EngineModel.Join, CallModel.Step;
  }

  /** An operation makes a waiting callback count again by issuing the token it carries. */
  predicate Reissues(h: Hub, op: Op) {
    var m := Moves(h, op); m.Some? && LeaveTimers.Reissues(h.clock, m.value)
  }

  ghost predicate CallbacksSafe(h: Hub, ops: seq<Op>)
    decreases ops
  {
    LeaveTimers.Safe(h.clock) && (ops == [] || CallbacksSafe(Step(h, ops[0]), ops[1..]))
  }

  predicate NeverReissues(h: Hub, ops: seq<Op>)
    decreases ops
  {
    ops == [] || (!Reissues(h, ops[0]) && NeverReissues(Step(h, ops[0]), ops[1..]))
  }

  lemma SafeStep(h: Hub, op: Op)
    requires LeaveTimers.Base(h.clock) && LeaveTimers.Safe(h.clock)
    ensures LeaveTimers.Base(Step(h, op).clock) && (LeaveTimers.Safe(Step(h, op).clock) <==> !Reissues(h, op))
  {
    hide LeaveTimers.Base, LeaveTimers.Safe, LeaveTimers.Reissues, Step, LeaveTimers.Step, Moves;
    MovesTimers(h, op);
    var m := Moves(h, op);
    if m.Some? { LeaveTimers.StepSafe(h.clock, m.value); }
  }

  lemma {:induction false} SafeFrom(h: Hub, ops: seq<Op>)
    requires LeaveTimers.Base(h.clock) && LeaveTimers.Safe(h.clock)
    ensures CallbacksSafe(h, ops) <==> NeverReissues(h, ops)
    decreases ops
  {
    hide LeaveTimers.Base, LeaveTimers.Safe, Reissues, Step;
    if ops != [] {
      SafeStep(h, ops[0]);
      if !Reissues(h, ops[0]) { SafeFrom(Step(h, ops[0]), ops[1..]); }
    }
  }

  /**
   In every run of the hub, in whatever order callbacks get the lock: no superseded or cancelled callback
   would ever count if and only if no token is issued that a waiting callback of the same user carries.
   */
  lemma {:induction false} SafeIffNeverReissued(max: int, p2p: CallModel.State, ops: seq<Op>)
    ensures CallbacksSafe(New(max, p2p), ops) <==> NeverReissues(New(max, p2p), ops)
  {
    SafeFrom(New(max, p2p), ops);
  }

  /** In such a state a callback that was superseded or cancelled removes nobody and forgets no timer. */
  lemma StaleRemovesNobody(h: Hub, k: nat, orders: EngineModel.Orders)
    requires LeaveTimers.Safe(h.clock) && k < |h.clock.queue| && LeaveTimers.Stale(h.clock, h.clock.queue[k])
    ensures Expire(h, k, orders).engine == h.engine && Expire(h, k, orders).clock.timers == h.clock.timers
  {
    assert h.clock.queue[k] in h.clock.queue;
  }

  /** Callbacks of one user get the hub's lock in the order in which their timers ran out. */
  predicate Fair(h: Hub, op: Op) {
    op.ExpireOp? && op.index < |h.clock.queue| ==> LeaveTimers.InTurn(h.clock, op.index)
  }

  predicate AllFair(h: Hub, ops: seq<Op>)
    decreases ops
  {
    ops == [] || (Fair(h, ops[0]) && AllFair(Step(h, ops[0]), ops[1..]))
  }

  lemma FairStep(h: Hub, op: Op)
    requires LeaveTimers.Inv(h.clock) && Fair(h, op)
    ensures LeaveTimers.Inv(Step(h, op).clock) && !Reissues(h, op)
  {
    hide LeaveTimers.Inv, Step, LeaveTimers.Step, LeaveTimers.InTurn, LeaveTimers.Reissues;
    MovesTimers(h, op);
    var m := Moves(h, op);
    if m.Some? { LeaveTimers.StepKeeps(h.clock, m.value); }
  }

  lemma {:induction false} FairNeverReissues(h: Hub, ops: seq<Op>)
    requires LeaveTimers.Inv(h.clock) && AllFair(h, ops)
    ensures NeverReissues(h, ops)
    decreases ops
  {
    hide LeaveTimers.Inv, Step, Fair, Reissues;
    if ops != [] {
      FairStep(h, ops[0]);
      FairNeverReissues(Step(h, ops[0]), ops[1..]);
    }
  }

  /** With callbacks in turn that never happens. */
  lemma {:induction false} SafeInTurn(max: int, p2p: CallModel.State, ops: seq<Op>)
    requires AllFair(New(max, p2p), ops)
    ensures CallbacksSafe(New(max, p2p), ops)
  {
    FairNeverReissues(New(max, p2p), ops);
    SafeIffNeverReissued(max, p2p, ops);
  }

  // ---- what the operations achieve ----

  /** A join succeeds unless its user is in a call or in another room, or new to a full room; then nothing happens. */
  lemma JoinOutcome(h: Hub, join: EngineModel.Op, owner: bool)
    requires Sound(h) && join.JoinOp? && EngineModel.Enabled(h.engine, join)
    ensures var j := Join(h, join, owner); var u := join.user; var users := h.engine.users;
            var refused := InCall(h, u) || (u in users && users[u] != join.id)
                           || (u !in users && |EngineModel.RoomOrNew(h.engine, join.id).members| >= h.engine.max);
            && (refused ==> j == h)
            && (!refused ==> j.engine.users == users[u := join.id] && !LeaveTimers.Armed(j.clock, u))
  {
    hide LeaveTimers.Cancel, LeaveTimers.AllArmed, EngineInvariants.Inv, EngineModel.Join, EngineModel.Step, EngineModel.Enabled,
      CallInvariants.Pairing, CallInvariants.RingTimers, Connections;
    EngineInvariants.JoinKeeps(h.engine, join.id, join.user, join.video, join.resume, join.alive, join.orders, join.ts);
    var e := EngineModel.Join(h.engine, join.id, join.user, join.video, join.resume, join.alive, join.orders, join.ts).0;
    EngineInvariants.ControlKeeps(e, EngineModel.ClaimHostOp(join.id, join.user));
    CancelArmed(h, join.user);
  }

  /** When the client of a user goes, its departures are armed; when a replaced connection goes, nothing happens. */
  lemma CloseOutcome(h: Hub, n: nat)
    requires Inv(h) && n in h.conns
    ensures var c := Unregister(h, n); var u := h.conns[n].user;
            if u in h.clients && h.clients[u] == n
            then u !in c.clients && LeaveTimers.Armed(c.clock, u) && (u in c.p2p.byUser ==> u in c.p2p.grace)
            else c == h.(conns := h.conns - {n})
  {
    hide LeaveTimers.Schedule, LeaveTimers.Armed, LeaveTimers.AllArmed, EngineInvariants.Inv, CallInvariants.Pairing,
      CallInvariants.RingTimers, CallModel.Drop, RoomsCovered, CallsCovered;
    ScheduleArmed(h, h.conns[n].user);
    DropEffects(h.p2p, h.conns[n].user);
  }

  /** When the callback of an armed departure gets the lock, its user is out of every room. */
  lemma ArmedDeparts(h: Hub, k: nat, orders: EngineModel.Orders)
    requires Inv(h) && Enabled(h, ExpireOp(k, orders))
    requires LeaveTimers.Armed(h.clock, h.clock.queue[k].user) && !LeaveTimers.Stale(h.clock, h.clock.queue[k])
    ensures h.clock.queue[k].user !in Expire(h, k, orders).engine.users
  {
    hide Inv, Expire, Fits;
    ExpireKeeps(h, k, orders);
  }

  // ---- a departure takes effect ----

  /** `u` is offline, and if it is in a room its departure by `t` is still on record. */
  ghost predicate Leaving(h: Hub, u: UserId, t: LeaveTimers.Timer) {
    u !in h.clients && (u in h.engine.users ==> u in h.clock.timers && h.clock.timers[u] == t)
  }

  predicate Touches(c: LeaveTimers.Clock, op: LeaveTimers.Op, u: UserId) {
    match op
    case ScheduleOp(v) => v == u
    case CancelOp(v) => v == u
    case FireOp(_) => false
    case TakeOp(k) => k < |c.queue| && c.queue[k].user == u && LeaveTimers.Counts(c, c.queue[k])
  }

  lemma Untouched(c: LeaveTimers.Clock, op: LeaveTimers.Op, u: UserId)
    requires !Touches(c, op, u)
    ensures var d := LeaveTimers.Step(c, op);
            (u in d.timers <==> u in c.timers) && (u in c.timers ==> d.timers[u] == c.timers[u])
  {
  }

  /** Without a connection a user gets into no room, and whatever touches its departure takes it out of its room. */
  lemma OfflineStep(h: Hub, op: Op, u: UserId)
    requires Inv(h) && Enabled(h, op) && Harmless(h, op) && u !in h.clients && !(op.ConnectOp? && op.user == u)
    ensures var s := Step(h, op); var m := Moves(h, op);
            && u !in s.clients
            && (u in s.engine.users ==> u in h.engine.users && (m.Some? ==> !Touches(h.clock, m.value, u)))
  {
    hide LeaveTimers.AllArmed, LeaveTimers.Armed, EngineInvariants.Inv, CallInvariants.Pairing, CallInvariants.RingTimers,
      EngineModel.Step, EngineModel.Enabled, EngineModel.Run, EngineModel.Possible, CallModel.Step, RoomsCovered, CallsCovered,
      LeaveTimers.Schedule, LeaveTimers.Cancel, LeaveTimers.Fire, LeaveTimers.Take, LeaveTimers.Counts, Fits, CallModel.Drop,
      CallModel.Disconnect, Join;
    match op
    case ConnectOp(_, _) =>
    case CloseOp(n) =>
    case JoinOp(n, join, owner) => if Speaks(h, n) { JoinEffects(h, join, owner); }
    case LeaveOp(n, orders) => if Speaks(h, n) { LeaveEffects(h.engine, h.conns[n].user, orders); }
    case RoomOp(op) => InsideEffects(h.engine, op);
    case CallOp(n, m) =>
    case KickUserOp(v, orders) => LeaveEffects(h.engine, v, orders);
    case EvictOp(id, v, orders) => RemovalEffects(h.engine, id, v, orders);
    case CloseRoomOp(_, ops) => ClosingEffects(h.engine, ops);
    case FireOp(t) =>
    case ExpireOp(k, orders) => LeaveEffects(h.engine, h.clock.queue[k].user, orders);
    case RingFiresOp(id) =>
    case GraceFiresOp(v, t) =>
  }

  lemma LeavingStep(h: Hub, op: Op, u: UserId, t: LeaveTimers.Timer)
    requires Inv(h) && Enabled(h, op) && Harmless(h, op) && Leaving(h, u, t) && !(op.ConnectOp? && op.user == u)
    ensures Leaving(Step(h, op), u, t)
    ensures u !in h.engine.users ==> u !in Step(h, op).engine.users
  {
    hide Inv, Enabled, Harmless, Step, Touches, LeaveTimers.Step, Moves;
    OfflineStep(h, op, u);
    MovesTimers(h, op);
    var m := Moves(h, op);
    if u in Step(h, op).engine.users && m.Some? { Untouched(h.clock, m.value, u); }
  }

  lemma ArmedUser(c: LeaveTimers.Clock, u: UserId)
    requires LeaveTimers.Armed(c, u)
    ensures u in c.timers && c.timers[u].user == u
  {
  }

  lemma Covered(h: Hub, u: UserId)
    requires Inv(h) && u in h.engine.users && u !in h.clients
    ensures LeaveTimers.Armed(h.clock, u)
  {
    hide Sound, LeaveTimers.Armed;
  }

  predicate StaysAway(ops: seq<Op>, u: UserId) {
    forall i :: 0 <= i < |ops| ==> !(ops[i].ConnectOp? && ops[i].user == u)
  }

  lemma {:induction false} LeavingRun(h: Hub, ops: seq<Op>, u: UserId, t: LeaveTimers.Timer)
    requires Inv(h) && Possible(h, ops) && AllHarmless(h, ops) && StaysAway(ops, u) && Leaving(h, u, t)
    ensures Inv(Run(h, ops)) && Leaving(Run(h, ops), u, t)
    ensures u !in h.engine.users ==> u !in Run(h, ops).engine.users
    decreases ops
  {
    hide Inv, Enabled, Harmless, Step, Leaving;
    if ops != [] {
      StepKeeps(h, ops[0]);
      LeavingStep(h, ops[0], u, t);
      LeavingRun(Step(h, ops[0]), ops[1..], u, t);
    }
  }

  /**
   Once the client of a user is gone and does not come back, the callback of the departure armed then puts
   the user out of every room for good, whatever else happens before and after it gets the lock.
   */
  lemma {:induction false} DepartureTakesEffect(h: Hub, n: nat, ops: seq<Op>, k: nat, orders: EngineModel.Orders, rest: seq<Op>)
    requires Inv(h) && n in h.conns && h.conns[n].user in h.clients && h.clients[h.conns[n].user] == n
    requires var c := Unregister(h, n); Possible(c, ops) && AllHarmless(c, ops) && StaysAway(ops, h.conns[n].user)
    requires var m := Run(Unregister(h, n), ops);
             && Enabled(m, ExpireOp(k, orders)) && Possible(Expire(m, k, orders), rest) && AllHarmless(Expire(m, k, orders), rest)
             && StaysAway(rest, h.conns[n].user)
             && h.conns[n].user in Unregister(h, n).clock.timers
             && m.clock.queue[k] == Unregister(h, n).clock.timers[h.conns[n].user]
    ensures h.conns[n].user !in Run(Expire(Run(Unregister(h, n), ops), k, orders), rest).engine.users
  {
    var u, c := h.conns[n].user, Unregister(h, n);
    var t := c.clock.timers[u];
    CloseKeeps(h, n);
    CloseOutcome(h, n);
    hide Unregister, Inv, Possible, AllHarmless, StaysAway, Expire, Fits, LeaveTimers.Counts;
    assert t.user == u by { hide *; ArmedUser(c.clock, u); }
    var m := Run(c, ops);
    LeavingRun(c, ops, u, t);
    ExpireKeeps(m, k, orders);
    if u in m.engine.users {
      Covered(m, u);
      ArmedDeparts(m, k, orders);
    }
    LeavingRun(Expire(m, k, orders), rest, u, t);
  }
}
