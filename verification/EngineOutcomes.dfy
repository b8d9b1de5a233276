/**
 What every engine operation leads to, for every reachable engine: whose room changes and how, who comes and
 goes, which events are emitted, and that nothing happens to anybody else.
 */
module EngineOutcomes {
  import opened Media
  import opened RoomModel
  import opened RoomInvariants
  import opened EngineModel
  import opened EngineInvariants
  import opened RoomOutcomes
  import RoomMembership
  import EngineCauses
  import Subscriber

  // ---- operations inside a room ----

  predicate IsInside(op: Op) {
    !op.JoinOp? && !op.LeaveOp? && !op.LeaveRoomOp? && !op.KickOp?
  }

  /** `asker` is in room `id`, as host or as administrator. */
  predicate Directs(e: Engine, asker: UserId, id: RoomId, admin: bool) {
    IsMember(e, id, asker) && (e.rooms[id].members[asker].info.host || admin)
  }

  /** Does the operation concern room `id`, and may whoever asks do it? */
  predicate Concerns(e: Engine, op: Op, id: RoomId) {
    match op
    case MuteOp(asker, u, admin, _) => Directs(e, asker, id, admin) && IsMember(e, id, u)
    case UnlockOp(asker, u, admin) => Directs(e, asker, id, admin) && IsMember(e, id, u)
    case PresenterOp(asker, u, _, admin) => Directs(e, asker, id, admin) && IsMember(e, id, u)
    case KickOp(asker, u, admin, _) => Directs(e, asker, id, admin) && IsMember(e, id, u)
    case PresenterOnlyOp(asker, _, admin) => Directs(e, asker, id, admin)
    case ClaimHostOp(at, u) => at == id && IsMember(e, id, u)
    case TrackStateOp(u, _) => IsMember(e, id, u)
    case OnTrackOp(u, _, _) => IsMember(e, id, u)
    case TrackEndedOp(t) => id in e.rooms && IsLive(e.rooms[id], t)
    case AnswerOp(u) => IsMember(e, id, u)
    case LeaveOp(u, _) => IsMember(e, id, u)
    case LeaveRoomOp(at, u, _) => at == id && IsMember(e, id, u)
    case JoinOp(at, _, _, _, _, _, _) => at == id
  }

  /** What an operation inside a room makes of the room. */
  ghost predicate Does(op: Op, n: nat, r: Room, s: Room) {
    match op
    case MuteOp(_, u, _, lock) => Mutes(r, s, u, lock)
    case UnlockOp(_, u, _) => Unlocks(r, s, u)
    case PresenterOp(_, u, allowed, _) => Grants(r, s, u, allowed)
    case PresenterOnlyOp(_, enabled, _) => SetsMode(r, s, enabled)
    case ClaimHostOp(_, u) => Claims(r, s, u)
    case TrackStateOp(u, st) => Reports(r, s, u, st)
    case OnTrackOp(u, remote, recent) =>
      var announced := Announced(r, u, remote, recent);
      Arrives(r, s, Track(u, if announced then Screen else remote, n), announced)
    case TrackEndedOp(t) => EndsTrack(r, s, t)
    case AnswerOp(u) => OnlySub(r, s, u) && u in r.members && Subscriber.Answers(r.members[u].sub, s.members[u].sub)
    case _ => false
  }

  /** Only the subscriber half of `u` changed. */
  ghost predicate OnlySub(r: Room, s: Room, u: UserId) {
    && s == r.(members := s.members) && s.members.Keys == r.members.Keys
    && forall v :: v in r.members ==> s.members[v] == r.members[v].(sub := if v == u then s.members[v].sub else r.members[v].sub)
  }

  /** Room `id` may have changed, and no other room; nobody came or went. */
  predicate OnlyRoom(e: Engine, e': Engine, id: RoomId) {
    && id in e.rooms && id in e'.rooms && e'.rooms == e.rooms[id := e'.rooms[id]]
    && e'.users == e.users && e'.events == e.events && e'.max == e.max
  }

  lemma Located(e: Engine, u: UserId, id: RoomId)
    requires Inv(e)
    ensures IsMember(e, id, u) <==> InRoom(e, u) && e.users[u] == id
    ensures InRoom(e, u) ==> Ok(RoomOf(e, u), e.serial) && IsMember(e, e.users[u], u)
  {
    hide Ok;
  }

  lemma Replaced(e: Engine, id: RoomId, s: Room)
    requires id in e.rooms
    ensures var e' := WithRoom(e, id, s);
            OnlyRoom(e, e', id) && e'.rooms[id] == s && (forall n: nat :: OnlyRoom(e, e'.(serial := n), id)) && (s == e.rooms[id] ==> e' == e)
  {
    assert s == e.rooms[id] ==> e.rooms[id := s] == e.rooms;
  }

  /** An operation inside a room does what it is for in the room it concerns, and nothing where it concerns none. */
  lemma InsideOutcome(e: Engine, op: Op, id: RoomId)
    requires Inv(e) && IsInside(op)
    ensures var e' := Step(e, op);
            && (Concerns(e, op, id) ==> OnlyRoom(e, e', id) && Does(op, e.serial, e.rooms[id], e'.rooms[id]))
            && ((forall i :: !Concerns(e, op, i)) ==> e' == e)
  {
    hide Inv, Step, Does, Concerns, OnlyRoom;
    match op
    case MuteOp(_, _, _, _) => ControlOutcome(e, op, id);
    case UnlockOp(_, _, _) => ControlOutcome(e, op, id);
    case PresenterOp(_, _, _, _) => ControlOutcome(e, op, id);
    case PresenterOnlyOp(_, _, _) => RolesOutcome(e, op, id);
    case ClaimHostOp(_, _) => RolesOutcome(e, op, id);
    case _ => StreamOutcome(e, op, id);
  }

  lemma ControlOutcome(e: Engine, op: Op, id: RoomId)
    requires Inv(e) && (op.MuteOp? || op.UnlockOp? || op.PresenterOp?)
    ensures var e' := Step(e, op);
            && (Concerns(e, op, id) ==> OnlyRoom(e, e', id) && Does(op, e.serial, e.rooms[id], e'.rooms[id]))
            && ((forall i :: !Concerns(e, op, i)) ==> e' == e)
  {
    hide Inv, Ok, Mute, Unlock, SetPresenter, Mutes, Unlocks, Grants, OnlyRoom;
    var u := op.user;
    Located(e, u, id);
    Located(e, op.asker, id);
    if Controls(e, op.asker, u, op.admin) {
      Located(e, op.asker, e.users[u]);
      assert Concerns(e, op, e.users[u]);
      var r := RoomOf(e, u);
      match op
      case MuteOp(_, _, _, lock) => MuteOutcome(r, u, lock, e.serial); Replaced(e, e.users[u], Mute(r, u, lock));
      case UnlockOp(_, _, _) => UnlockOutcome(r, u); Replaced(e, e.users[u], Unlock(r, u));
      case PresenterOp(_, _, allowed, _) => PresenterOutcome(r, u, allowed); Replaced(e, e.users[u], SetPresenter(r, u, allowed));
    }
  }

  lemma RolesOutcome(e: Engine, op: Op, id: RoomId)
    requires Inv(e) && (op.PresenterOnlyOp? || op.ClaimHostOp?)
    ensures var e' := Step(e, op);
            && (Concerns(e, op, id) ==> OnlyRoom(e, e', id) && Does(op, e.serial, e.rooms[id], e'.rooms[id]))
            && ((forall i :: !Concerns(e, op, i)) ==> e' == e)
  {
    hide Inv, Ok, ClaimHost, SetPresenterOnly, SetsMode, Claims, OnlyRoom;
    match op
    case ClaimHostOp(at, u) =>
      if at in e.rooms {
        RoomOk(e, at);
        ClaimOutcome(e.rooms[at], u, e.serial);
        Replaced(e, at, ClaimHost(e.rooms[at], u));
        assert IsMember(e, at, u) ==> Concerns(e, op, at);
      }
    case PresenterOnlyOp(asker, enabled, admin) =>
      Located(e, asker, id);
      if InRoom(e, asker) {
        ModeOutcome(RoomOf(e, asker), enabled);
        Replaced(e, e.users[asker], SetPresenterOnly(RoomOf(e, asker), enabled));
        assert InfoOf(e, asker).host || admin ==> Concerns(e, op, e.users[asker]);
      }
  }

  lemma StreamOutcome(e: Engine, op: Op, id: RoomId)
    requires Inv(e) && (op.TrackStateOp? || op.OnTrackOp? || op.TrackEndedOp? || op.AnswerOp?)
    ensures var e' := Step(e, op);
            && (Concerns(e, op, id) ==> OnlyRoom(e, e', id) && Does(op, e.serial, e.rooms[id], e'.rooms[id]))
            && ((forall i :: !Concerns(e, op, i)) ==> e' == e)
  {
    hide Inv, Ok, OnTrackState, OnTrack, TrackEnded, Answer, Reports, Arrives, EndsTrack, OnlySub, OnlyRoom, Subscriber.Answers, IsLive;
    var u := if op.TrackEndedOp? then op.track.owner else op.user;
    Located(e, u, id);
    if op.TrackEndedOp? { LiveAtHome(e, op.track, id); }
    if InRoom(e, u) {
      var r := RoomOf(e, u);
      match op
      case TrackStateOp(_, st) =>
        ReportOutcome(r, u, st, e.serial);
        Replaced(e, e.users[u], OnTrackState(r, u, st));
        assert Concerns(e, op, e.users[u]);
      case OnTrackOp(_, remote, recent) =>
        ArrivalOutcome(r, u, remote, recent, e.serial);
        Replaced(e, e.users[u], OnTrack(r, u, remote, recent, e.serial));
        assert Concerns(e, op, e.users[u]);
      case TrackEndedOp(t) =>
        TrackEndedOutcome(r, t, e.serial);
        Replaced(e, e.users[u], TrackEnded(r, t));
        assert IsLive(r, t) ==> Concerns(e, op, e.users[u]);
      case AnswerOp(_) =>
        AnswerRoom(r, u, e.serial);
        Replaced(e, e.users[u], Answer(r, u));
        assert Concerns(e, op, e.users[u]);
    }
  }

  lemma AnswerRoom(r: Room, u: UserId, n: nat)
    requires Ok(r, n) && u in r.members
    ensures OnlySub(r, Answer(r, u), u) && Subscriber.Answers(r.members[u].sub, Answer(r, u).members[u].sub)
  {
    hide Tidy, Forwards, Locks, Presenting, OneHost, Ordered, Subscriber.Answers, Subscriber.OnAnswer, Subscriber.Inv;
    Subscriber.AnswerOutcome(r.members[u].sub);
  }

  lemma LiveAtHome(e: Engine, t: Track, id: RoomId)
    requires Inv(e)
    ensures id in e.rooms && IsLive(e.rooms[id], t) ==> IsMember(e, id, t.owner)
  {
    if id in e.rooms {
      RoomOk(e, id);
      hide Inv, Forwards, SubsOk, Locks, Presenting, OneHost, Ordered;
    }
  }

  // ---- coming and going ----

  /** `u` leaves room `id`, which is closed behind the last member; nobody else moves. */
  ghost predicate GoesOut(e: Engine, e': Engine, id: RoomId, u: UserId) {
    && IsMember(e, id, u) && e'.users == e.users - {u} && e'.max == e.max && e'.serial == e.serial
    && if e.rooms[id].members.Keys == {u}
       then e'.rooms == e.rooms - {id} && e'.events == e.events + [Left(id, u), Closed(id)]
       else
         && id in e'.rooms && e'.rooms == e.rooms[id := e'.rooms[id]] && Leaves(e.rooms[id], e'.rooms[id], u)
         && e'.events == e.events + [Left(id, u)]
  }

  lemma RemovalOutcome(e: Engine, id: RoomId, u: UserId, orders: Orders)
    requires Inv(e) && OrdersFit(e, id, u, orders) && IsMember(e, id, u)
    ensures GoesOut(e, RemoveFrom(e, id, u, orders), id, u)
  {
    hide Ok, Leave, Leaves, RoomsOk, DropOrders;
    RoomOk(e, id);
    LeaveOutcome(e.rooms[id], u, orders, e.serial);
    assert Leave(e.rooms[id], u, orders).members.Keys == e.rooms[id].members.Keys - {u} by {
      MembersLeft(e.rooms[id], Leave(e.rooms[id], u, orders), u);
    }
    var s := Leave(e.rooms[id], u, orders);
    assert s.members == map[] <==> s.members.Keys == {};
  }

  lemma MembersLeft(r: Room, s: Room, u: UserId)
    requires Leaves(r, s, u)
    ensures s.members.Keys == r.members.Keys - {u}
  {
  }

  /** `u` is in no room, none of its tracks is published, and no camera or screen of it is sent to anybody. */
  ghost predicate Vanished(e: Engine, u: UserId) {
    && u !in e.users && (forall i :: !IsMember(e, i, u))
    && (forall i, t :: i in e.rooms && IsLive(e.rooms[i], t) ==> t.owner != u)
    && (forall i, v, t :: IsMember(e, i, v) && t in e.rooms[i].members[v].sub.senders && t.owner == u ==>
          t.key == Mic && !AllMicsExact(e))
  }

  lemma NowhereVanished(e: Engine, u: UserId)
    requires Inv(e) && u !in e.users
    ensures Vanished(e, u)
  {
    forall i, t | i in e.rooms && IsLive(e.rooms[i], t) ensures t.owner != u { LiveAtHome(e, t, i); }
    hide Ok, IsLive;
    forall i, v, t | IsMember(e, i, v) && t in e.rooms[i].members[v].sub.senders && t.owner == u
      ensures t.key == Mic && !AllMicsExact(e)
    {
      RoomOk(e, i);
      SentIsLive(e.rooms[i], v, t, e.serial);
      assert !MicsExact(e.rooms[i]);
    }
  }

  lemma SentIsLive(r: Room, v: UserId, t: Track, n: nat)
    requires Ok(r, n) && v in r.members && t in r.members[v].sub.senders
    ensures t.key != Mic || MicsExact(r) ==> IsLive(r, t)
  {
    hide Tidy, SubsOk, Locks, Presenting, OneHost, Ordered, IsLive;
  }

  predicate TakesAway(op: Op) {
    op.LeaveOp? || op.LeaveRoomOp? || op.KickOp?
  }

  /**
   Leaving, being removed and being kicked: from the room it concerns the user goes out, and nothing of it is
   left anywhere; where the operation concerns no room, above all without the host controls, nothing happens.
   */
  lemma GoingOutcome(e: Engine, op: Op, id: RoomId)
    requires Inv(e) && Enabled(e, op) && TakesAway(op)
    ensures var e' := Step(e, op);
            && (Concerns(e, op, id) ==> GoesOut(e, e', id, op.user) && Vanished(e', op.user))
            && ((forall i :: !Concerns(e, op, i)) ==> e' == e)
  {
    hide Inv, RemoveFrom, GoesOut, Vanished, DropOrders, Ok;
    var u := op.user;
    Located(e, u, id);
    if op.KickOp? { Located(e, op.asker, id); }
    StepKeeps(e, op);
    if Concerns(e, op, id) {
      RemovalOutcome(e, id, u, op.orders);
      assert Step(e, op) == RemoveFrom(e, id, u, op.orders);
      OutOfIndex(e, Step(e, op), id, u);
      NowhereVanished(Step(e, op), u);
    } else if forall i :: !Concerns(e, op, i) {
      NobodyGoes(e, op);
    }
  }

  lemma OutOfIndex(e: Engine, e': Engine, id: RoomId, u: UserId)
    requires GoesOut(e, e', id, u)
    ensures u !in e'.users
  {
  }

  lemma NobodyGoes(e: Engine, op: Op)
    requires Inv(e) && TakesAway(op) && forall i :: !Concerns(e, op, i)
    ensures Step(e, op) == e
  {
    hide Inv, Leave, Ok;
    var u := op.user;
    if InRoom(e, u) {
      Located(e, u, e.users[u]);
      assert !Concerns(e, op, e.users[u]);
      if op.KickOp? { Located(e, op.asker, e.users[u]); }
    }
    if op.LeaveRoomOp? { assert !Concerns(e, op, op.id); }
  }

  /** `u` comes into room `id`, which is created if it was not there; nobody else moves. */
  ghost predicate ComesIn(e: Engine, e': Engine, id: RoomId, u: UserId, video: bool) {
    && e'.users == e.users[u := id] && e'.max == e.max && e'.serial == e.serial
    && id in e'.rooms && e'.rooms == e.rooms[id := e'.rooms[id]] && Enters(RoomOrNew(e, id), e'.rooms[id], u, video)
    && e'.events == e.events + (if id in e.rooms then [] else [Created(id, u)]) + [Joined(id, u)]
  }

  /** The client of `u` is back: an offer that was open is sent again, and nothing else happens. */
  ghost predicate ComesBack(e: Engine, e': Engine, id: RoomId, u: UserId) {
    && IsMember(e, id, u) && OnlyRoom(e, e', id) && e'.serial == e.serial && OnlySub(e.rooms[id], e'.rooms[id], u)
    && var s, d := e.rooms[id].members[u].sub, e'.rooms[id].members[u].sub; var last := Subscriber.LastOffer(s.wire);
       if Subscriber.Open(s.wire) then last.Some? && d == s.(wire := s.wire + [Subscriber.Resent(last.value)]) else d == s
  }

  /** A newcomer comes in, a member whose connections live comes back, and any other member first goes out with everything it had. */
  ghost predicate Joins(e: Engine, e': Engine, op: Op) {
    op.JoinOp? &&
    if op.user !in e.users then ComesIn(e, e', op.id, op.user, op.video)
    else if op.resume && op.alive then ComesBack(e, e', op.id, op.user)
    else exists out :: GoesOut(e, out, op.id, op.user) && ComesIn(out, e', op.id, op.user, op.video)
  }

  /** Who is in another room, or new to a full one, is refused, and nothing happens; any other join does that. */
  lemma JoinOutcome(e: Engine, op: Op)
    requires Inv(e) && op.JoinOp? && Enabled(e, op)
    ensures var e', id, u := Step(e, op), op.id, op.user;
            if (u in e.users && e.users[u] != id) || (u !in e.users && |RoomOrNew(e, id).members| >= e.max) then e' == e
            else Joins(e, e', op)
  {
    hide Inv, Ok, RemoveFrom, Admit, Enumerates, PublishedByOthers, OrdersFit, Resume, GoesOut, ComesIn, ComesBack;
    var JoinOp(id, u, video, resume, alive, orders, ts) := op;
    JoinKeeps(e, id, u, video, resume, alive, orders, ts);
    Located(e, u, id);
    IndexedMember(e, u);
    if u in e.users && e.users[u] == id {
      if resume && alive {
        BackOutcome(e, id, u);
      } else {
        var out := RemoveFrom(e, id, u, orders);
        RoomOk(e, id);
        RemoveFromKeeps(e, id, u, orders);
        RemovalOutcome(e, id, u, orders);
        RejoinKeeps(e, id, u, video, orders, ts);
        OthersStay(e, id, u, orders);
        AdmitOutcome(out, id, u, video, ts);
      }
    } else if u !in e.users {
      AdmitKeeps(e, id, u, video, ts);
      if |RoomOrNew(e, id).members| < e.max { AdmitOutcome(e, id, u, video, ts); }
    }
  }

  lemma IndexedMember(e: Engine, u: UserId)
    requires Inv(e)
    ensures u in e.users ==> IsMember(e, e.users[u], u)
  {
    hide Ok;
  }

  lemma AdmitOutcome(e: Engine, id: RoomId, u: UserId, video: bool, ts: seq<Track>)
    requires Inv(e) && u !in e.users && Enumerates(ts, PublishedByOthers(RoomOrNew(e, id), u)) && |RoomOrNew(e, id).members| < e.max
    ensures ComesIn(e, Admit(e, id, u, video, ts).0, id, u, video)
  {
    hide Inv, Ok, Enter, Enters, Enumerates, PublishedByOthers;
    Located(e, u, id);
    if id in e.rooms { RoomOk(e, id); } else { RoomMembership.EmptyOk(e.serial); }
    EnterOutcome(RoomOrNew(e, id), u, video, ts, e.serial);
  }

  lemma BackOutcome(e: Engine, id: RoomId, u: UserId)
    requires Inv(e) && IsMember(e, id, u)
    ensures ComesBack(e, WithRoom(e, id, Resume(e.rooms[id], u)), id, u)
  {
    hide Inv, OnlyRoom, OnlySub, Ok;
    RoomOk(e, id);
    BackInRoom(e.rooms[id], u, e.serial);
    Replaced(e, id, Resume(e.rooms[id], u));
    hide Subscriber.Open, Subscriber.LastOffer, Resume;
  }

  lemma BackInRoom(r: Room, u: UserId, n: nat)
    requires Ok(r, n) && u in r.members
    ensures var t := Resume(r, u);
            && OnlySub(r, t, u)
            && var s, d := r.members[u].sub, t.members[u].sub; var last := Subscriber.LastOffer(s.wire);
               if Subscriber.Open(s.wire) then last.Some? && d == s.(wire := s.wire + [Subscriber.Resent(last.value)]) else d == s
  {
    hide Tidy, Forwards, Locks, Presenting, OneHost, Ordered, Subscriber.Open, Subscriber.LastOffer, Subscriber.Inv, Subscriber.Resend;
    Subscriber.ReconnectOutcome(r.members[u].sub);
  }

  // ---- for good ----

  predicate NoJoinOf(ops: seq<Op>, u: UserId) {
    forall op :: op in ops && op.JoinOp? ==> op.user != u
  }

  lemma NobodySneaksIn(e: Engine, op: Op, u: UserId)
    requires Inv(e) && Enabled(e, op) && u !in e.users && (op.JoinOp? ==> op.user != u)
    ensures u !in Step(e, op).users
  {
    hide Inv, Step, Concerns, Does, Vanished, ComesBack, Enters, Leaves, OrdersFit, Enumerates, PublishedByOthers;
    if op.JoinOp? {
      JoinOutcome(e, op);
      assert ComesBack(e, Step(e, op), op.id, op.user) ==> Step(e, op).users == e.users by { BackUsers(e, Step(e, op), op); }
    } else if exists i :: Concerns(e, op, i) {
      var i :| Concerns(e, op, i);
      if TakesAway(op) { GoingOutcome(e, op, i); } else { InsideOutcome(e, op, i); }
    } else if TakesAway(op) {
      GoingOutcome(e, op, "");
    } else {
      InsideOutcome(e, op, "");
    }
  }

  lemma BackUsers(e: Engine, e': Engine, op: Op)
    requires op.JoinOp?
    ensures ComesBack(e, e', op.id, op.user) ==> e'.users == e.users
  {
    hide OnlySub;
  }

  /** Who has left or was kicked stays out, with everything it had, until it joins again. */
  lemma {:induction false} StaysOut(e: Engine, ops: seq<Op>, u: UserId)
    requires Inv(e) && Possible(e, ops) && u !in e.users && NoJoinOf(ops, u)
    ensures Vanished(Run(e, ops), u)
    decreases ops
  {
    hide Inv, Enabled, Step, Vanished;
    if ops == [] {
      NowhereVanished(e, u);
    } else {
      assert ops[0] in ops && forall op :: op in ops[1..] ==> op in ops;
      NobodySneaksIn(e, ops[0], u);
      StepKeeps(e, ops[0]);
      StaysOut(Step(e, ops[0]), ops[1..], u);
    }
  }

  /** No room publishes or withholds `t`. */
  ghost predicate Gone(e: Engine, t: Track) {
    forall i :: !EngineCauses.TrueIn(e, i, EngineCauses.Held(t))
  }

  lemma SerialGrows(e: Engine, op: Op)
    ensures Step(e, op).serial >= e.serial
  {
    hide Mute, Unlock, ClaimHost, SetPresenterOnly, SetPresenter, OnTrackState, OnTrack, TrackEnded, Answer, Resume, Leave, Enter,
      Controls, InRoom, RoomOf;
  }

  lemma {:induction false} StaysGone(e: Engine, ops: seq<Op>, t: Track)
    requires Inv(e) && Possible(e, ops) && Gone(e, t) && t.serial < e.serial
    ensures Gone(Run(e, ops), t)
    decreases ops
  {
    hide Inv, Enabled, Step, EngineCauses.TrueIn;
    if ops != [] {
      var e1 := Step(e, ops[0]);
      StepKeeps(e, ops[0]);
      SerialGrows(e, ops[0]);
      forall i ensures !EngineCauses.TrueIn(e1, i, EngineCauses.Held(t)) {
        if EngineCauses.TrueIn(e1, i, EngineCauses.Held(t)) { EngineCauses.StepCause(e, ops[0], i, EngineCauses.Held(t)); }
      }
      StaysGone(e1, ops[1..], t);
    }
  }

  lemma GoneAtOnce(e: Engine, id: RoomId, t: Track)
    requires Inv(e) && id in e.rooms && IsLive(e.rooms[id], t)
    ensures t.serial < e.serial && Gone(Step(e, TrackEndedOp(t)), t)
  {
    hide Inv, Step, Ok, IsLive, EndsTrack, EngineCauses.True;
    var e' := Step(e, TrackEndedOp(t));
    InsideOutcome(e, TrackEndedOp(t), id);
    RoomOk(e, id);
    HeldHere(e.rooms[id], t, e.serial);
    GoneHere(e.rooms[id], e'.rooms[id], t, e.serial);
    forall i | i in e.rooms && i != id ensures !EngineCauses.True(e.rooms[i], EngineCauses.Held(t)) {
      GoneThere(e, id, i, t);
    }
  }

  lemma GoneHere(r: Room, s: Room, t: Track, n: nat)
    requires Ok(r, n) && IsLive(r, t) && EndsTrack(r, s, t)
    ensures !EngineCauses.True(s, EngineCauses.Held(t))
  {
    HeldHere(r, t, n);
    hide Ok, Sent, OthersSame;
  }

  lemma GoneThere(e: Engine, id: RoomId, i: RoomId, t: Track)
    requires Inv(e) && id in e.rooms && IsLive(e.rooms[id], t) && i in e.rooms && i != id
    ensures !EngineCauses.True(e.rooms[i], EngineCauses.Held(t))
  {
    hide Inv, Ok, IsLive, EngineCauses.True;
    RoomOk(e, i);
    HeldHere(e.rooms[i], t, e.serial);
    LiveAtHome(e, t, id);
    Located(e, t.owner, i);
    Located(e, t.owner, id);
  }

  lemma HeldHere(r: Room, t: Track, n: nat)
    requires Ok(r, n)
    ensures EngineCauses.True(r, EngineCauses.Held(t)) ==> t.owner in r.members
    ensures IsLive(r, t) ==> t.serial < n && !(t.owner in r.parked && r.parked[t.owner] == t)
  {
    hide Forwards, SubsOk, Locks, Presenting, OneHost, Ordered;
  }

  /** Once the stream behind a published track has ended, no room ever publishes or withholds that track again. */
  lemma EndedForGood(e: Engine, id: RoomId, t: Track, ops: seq<Op>)
    requires Inv(e) && id in e.rooms && IsLive(e.rooms[id], t) && Possible(Step(e, TrackEndedOp(t)), ops)
    ensures Gone(Run(Step(e, TrackEndedOp(t)), ops), t)
  {
    hide Inv, Step, Gone, Possible, Run, IsLive;
    StepKeeps(e, TrackEndedOp(t));
    GoneAtOnce(e, id, t);
    SerialGrows(e, TrackEndedOp(t));
    StaysGone(Step(e, TrackEndedOp(t)), ops, t);
  }
}
