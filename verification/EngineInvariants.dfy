/**
 What holds after every operation in every run of the engine: the membership index agrees with the
 rooms, every room is well formed, non-empty and within its limit, forwarding is right, and mics
 are exact up to the first restore that leaks.
 */
module EngineInvariants {
  import opened Media
  import opened RoomModel
  import opened RoomInvariants
  import opened RoomOperations
  import opened RoomMembership
  import opened EngineModel
  import Subscriber

  /** `users` says room `id` for `u` exactly when `u` is a participant of that room. */
  ghost predicate Index(e: Engine) {
    && (forall u :: u in e.users ==> IsMember(e, e.users[u], u))
    && (forall id, u :: IsMember(e, id, u) ==> u in e.users && e.users[u] == id)
  }

  ghost predicate RoomsOk(e: Engine) {
    forall id :: id in e.rooms ==>
      Ok(e.rooms[id], e.serial) && e.rooms[id].members != map[] && |e.rooms[id].members| <= e.max
  }

  ghost predicate Inv(e: Engine) {
    Index(e) && RoomsOk(e)
  }

  ghost predicate AllMicsExact(e: Engine) {
    forall id :: id in e.rooms ==> MicsExact(e.rooms[id])
  }

  // ---- changing one room ----

  lemma SizeOfKeys(a: map<UserId, Member>, b: map<UserId, Member>)
    requires a.Keys == b.Keys
    ensures |a| == |b| && (a == map[] <==> b == map[])
  {
    assert |a.Keys| == |a| && |b.Keys| == |b|;
    assert a == map[] <==> a.Keys == {};
    assert b == map[] <==> b.Keys == {};
  }

  /** Replacing a room by one with the same members. */
  lemma WithRoomKeeps(e: Engine, id: RoomId, r: Room, n: nat)
    requires Inv(e) && id in e.rooms && e.serial <= n
    requires Ok(r, n) && r.members.Keys == e.rooms[id].members.Keys
    ensures var e' := WithRoom(e, id, r).(serial := n);
            && Inv(e')
            && (AllMicsExact(e) && MicsExact(r) ==> AllMicsExact(e'))
            && (!MicsExact(r) ==> !AllMicsExact(e'))
  {
    hide Ok, MicsExact;
    var e' := WithRoom(e, id, r).(serial := n);
    SizeOfKeys(r.members, e.rooms[id].members);
    forall i | i in e.rooms ensures Ok(e.rooms[i], n) { LaterSerials(e.rooms[i], e.serial, n); }
    assert forall i, u :: IsMember(e', i, u) <==> IsMember(e, i, u);
    if !MicsExact(r) {
      assert id in e'.rooms && e'.rooms[id] == r;
    }
  }

  // ---- removal ----

  lemma RemoveFromKeeps(e: Engine, id: RoomId, u: UserId, orders: Orders)
    requires Inv(e) && OrdersFit(e, id, u, orders)
    ensures var e' := RemoveFrom(e, id, u, orders);
            && Inv(e') && e'.max == e.max && e'.serial == e.serial
            && (AllMicsExact(e) ==> AllMicsExact(e'))
            && !IsMember(e', id, u)
            && (IsMember(e, id, u) ==> e'.users == e.users - {u})
            && (forall i :: i in e.rooms && i != id ==> i in e'.rooms && e'.rooms[i] == e.rooms[i])
            && (forall i :: i in e'.rooms ==> i in e.rooms)
            && |RoomOrNew(e', id).members| == |RoomOrNew(e, id).members| - (if IsMember(e, id, u) then 1 else 0)
  {
    hide Ok, MicsExact, Leave, DropOrders, Index;
    if IsMember(e, id, u) {
      var s := Leave(e.rooms[id], u, orders);
      LeavesOneFewer(e.rooms[id], u, orders, e.serial);
      IndexAt(e, id, u);
      RemovalIndex(e, RemoveFrom(e, id, u, orders), id, u, s);
    }
  }

  lemma IndexAt(e: Engine, id: RoomId, u: UserId)
    requires Index(e) && IsMember(e, id, u)
    ensures u in e.users && e.users[u] == id
  {
  }

  lemma LeavesOneFewer(r: Room, u: UserId, orders: Orders, n: nat)
    requires Ok(r, n) && u in r.members && DropOrders(r, u, orders)
    ensures var s := Leave(r, u, orders);
            && Ok(s, n) && (MicsExact(r) ==> MicsExact(s))
            && s.members.Keys == r.members.Keys - {u} && |s.members| == |r.members| - 1
  {
    hide Ok, MicsExact, Leave, DropOrders;
    LeaveKeeps(r, u, orders, n);
    assert |Leave(r, u, orders).members.Keys| == |Leave(r, u, orders).members| && |r.members.Keys| == |r.members|;
  }

  lemma RemovalIndex(e: Engine, e': Engine, id: RoomId, u: UserId, s: Room)
    requires Index(e) && IsMember(e, id, u) && s.members.Keys == e.rooms[id].members.Keys - {u}
    requires e'.users == e.users - {u}
    requires e'.rooms == if s.members == map[] then e.rooms - {id} else e.rooms[id := s]
    ensures Index(e')
  {
    assert s.members == map[] <==> s.members.Keys == {};
    forall i, v ensures IsMember(e', i, v) <==> IsMember(e, i, v) && v != u {
      if i == id {
        assert v in s.members.Keys <==> v in e.rooms[id].members.Keys && v != u;
      } else {
        assert !IsMember(e, i, u);
      }
    }
  }

  // ---- joining ----

  lemma AdmitKeeps(e: Engine, id: RoomId, u: UserId, video: bool, ts: seq<Track>)
    requires Inv(e) && u !in e.users
    requires Enumerates(ts, PublishedByOthers(RoomOrNew(e, id), u))
    ensures var (e', result) := Admit(e, id, u, video, ts);
            && Inv(e') && (AllMicsExact(e) ==> AllMicsExact(e'))
            && result == (if |RoomOrNew(e, id).members| >= e.max then Full else Admitted)
            && (result == Full ==> e' == e)
            && (result != Full ==> e'.users == e.users[u := id])
  {
    hide Ok, MicsExact, Enter, Enumerates;
    var r := RoomOrNew(e, id);
    EmptyOk(e.serial);
    assert u !in r.members by { assert IsMember(e, id, u) ==> u in e.users; }
    if |r.members| < e.max {
      var s := Enter(r, u, video, ts);
      EnterKeeps(r, u, video, ts, e.serial);
      assert |s.members| == |r.members| + 1 by {
        assert |s.members.Keys| == |s.members| && |r.members.Keys| == |r.members|;
      }
      AdmissionIndex(e, Admit(e, id, u, video, ts).0, id, u, s);
    }
  }

  lemma AdmissionIndex(e: Engine, e': Engine, id: RoomId, u: UserId, s: Room)
    requires Index(e) && u !in e.users && s.members.Keys == RoomOrNew(e, id).members.Keys + {u}
    requires e'.users == e.users[u := id] && e'.rooms == e.rooms[id := s]
    ensures Index(e')
  {
    assert forall i, v :: IsMember(e', i, v) <==> IsMember(e, i, v) || (i == id && v == u);
  }

  /** What another member publishes does not change when `u` leaves. */
  lemma OthersStay(e: Engine, id: RoomId, u: UserId, orders: Orders)
    requires Inv(e) && IsMember(e, id, u) && OrdersFit(e, id, u, orders)
    ensures PublishedByOthers(RoomOrNew(RemoveFrom(e, id, u, orders), id), u) == PublishedByOthers(e.rooms[id], u)
  {
    hide Ok, Without, DropOrders, Subscriber.RemoveAll, RoomsOk;
    var r := e.rooms[id];
    var s := Leave(r, u, orders);
    assert forall x :: x in r.tracks && x.user != u <==> x in s.tracks;
    assert forall x :: x in s.tracks ==> s.tracks[x] == r.tracks[x];
    if s.members == map[] {
      RemoveFromKeeps(e, id, u, orders);
      NobodyElsePublishes(e, id, u, s, orders);
    }
  }

  lemma NobodyElsePublishes(e: Engine, id: RoomId, u: UserId, s: Room, orders: Orders)
    requires Inv(e) && IsMember(e, id, u) && OrdersFit(e, id, u, orders)
    requires s == Leave(e.rooms[id], u, orders) && s.members == map[]
    ensures PublishedByOthers(e.rooms[id], u) == {}
  {
    hide Leave, Forwards, Locks, Presenting, OneHost, Ordered, SubsOk, DropOrders;
    var r := e.rooms[id];
    LeaveKeeps(r, u, orders, e.serial);
    assert forall v :: v in r.members && v != u ==> v in s.members.Keys;
    assert forall x :: x in r.tracks ==> x.user in r.members;
  }

  /** Dropping a stale participant and admitting the user again always finds a free place. */
  lemma RejoinKeeps(e: Engine, id: RoomId, u: UserId, video: bool, orders: Orders, ts: seq<Track>)
    requires Inv(e) && IsMember(e, id, u) && OrdersFit(e, id, u, orders)
    requires Enumerates(ts, PublishedByOthers(e.rooms[id], u))
    ensures var (e', result) := Admit(RemoveFrom(e, id, u, orders), id, u, video, ts);
            && Inv(e') && (AllMicsExact(e) ==> AllMicsExact(e'))
            && result == Admitted && e'.users == e.users[u := id]
  {
    hide Ok, Inv, AllMicsExact, Admit, RemoveFrom, Enumerates, PublishedByOthers, OrdersFit;
    RoomOk(e, id);
    var e1 := RemoveFrom(e, id, u, orders);
    RemoveFromKeeps(e, id, u, orders);
    OthersStay(e, id, u, orders);
    AdmitKeeps(e1, id, u, video, ts);
    PutBack(e.users, u, id);
  }

  lemma PutBack(users: map<UserId, RoomId>, u: UserId, id: RoomId)
    ensures u !in users - {u} && (users - {u})[u := id] == users[u := id]
  {
  }

  /**
   A join. It fails with `Elsewhere` exactly for members of another room, never turns away somebody
   already in the room, and otherwise leaves the user in that room and in no other.
   */
  lemma JoinKeeps(e: Engine, id: RoomId, u: UserId, video: bool, resume: bool, alive: bool, orders: Orders, ts: seq<Track>)
    requires Inv(e) && Enabled(e, JoinOp(id, u, video, resume, alive, orders, ts))
    ensures var (e', result) := Join(e, id, u, video, resume, alive, orders, ts);
            && Inv(e') && (AllMicsExact(e) ==> AllMicsExact(e'))
            && (result == Elsewhere <==> u in e.users && e.users[u] != id)
            && (result == Full <==> u !in e.users && |RoomOrNew(e, id).members| >= e.max)
            && (result == Elsewhere || result == Full ==> e' == e)
            && (result == Admitted || result == Resumed ==> e'.users == e.users[u := id])
  {
    hide Ok, MicsExact, Admit, RemoveFrom, Enumerates, PublishedByOthers, OrdersFit, Resume;
    assert IsMember(e, id, u) ==> e.users[u] == id;
    assert u in e.users ==> IsMember(e, e.users[u], u);
    if IsElsewhere(e, id, u) {
    } else if IsMember(e, id, u) {
      var r := e.rooms[id];
      if resume && alive {
        ResumeKeeps(r, u, e.serial);
        WithRoomKeeps(e, id, Resume(r, u), e.serial);
      } else {
        RejoinKeeps(e, id, u, video, orders, ts);
      }
    } else {
      AdmitKeeps(e, id, u, video, ts);
    }
  }

  lemma ResumeKeeps(r: Room, u: UserId, n: nat)
    requires Ok(r, n) && u in r.members
    ensures Ok(Resume(r, u), n) && (MicsExact(Resume(r, u)) <==> MicsExact(r))
    ensures Resume(r, u).members.Keys == r.members.Keys
  {
    hide Ok, MicsExact, Subscriber.Resend;
    SubscriberStepKeeps(r, u, Subscriber.Reconnected, n);
  }

  // ---- one operation ----

  /** The one kind of operation that can leave somebody with a mic that is no longer published. */
  ghost predicate Leaks(e: Engine, op: Op) {
    op.TrackStateOp? && InRoom(e, op.user)
    && Unmutes(RoomOf(e, op.user), op.user, op.st) && RestoreLeaks(RoomOf(e, op.user), op.user)
  }

  /** Host controls, as seen from the engine. */
  lemma ControlKeeps(e: Engine, op: Op)
    requires Inv(e) && (op.MuteOp? || op.UnlockOp? || op.ClaimHostOp? || op.PresenterOnlyOp? || op.PresenterOp?)
    ensures Inv(Step(e, op)) && Step(e, op).users == e.users
    ensures AllMicsExact(e) ==> AllMicsExact(Step(e, op))
  {
    hide Ok, MicsExact, Mute, Unlock, ClaimHost, SetPresenterOnly, SetPresenter, AllMicsExact, Inv;
    assert forall u :: InRoom(e, u) ==> Ok(RoomOf(e, u), e.serial) by { MembersOk(e); }
    var n := e.serial;
    match op
    case MuteOp(asker, u, admin, lock) =>
      if Controls(e, asker, u, admin) {
        MuteKeeps(RoomOf(e, u), u, lock, n);
        WithExactRoom(e, e.users[u], Mute(RoomOf(e, u), u, lock), n);
      }
    case UnlockOp(asker, u, admin) =>
      if Controls(e, asker, u, admin) {
        UnlockKeeps(RoomOf(e, u), u, n);
        WithExactRoom(e, e.users[u], Unlock(RoomOf(e, u), u), n);
      }
    case ClaimHostOp(id, u) =>
      if id in e.rooms {
        RoomOk(e, id);
        ClaimHostKeeps(e.rooms[id], u, n);
        ClaimHostAt(e.rooms[id], u);
        WithExactRoom(e, id, ClaimHost(e.rooms[id], u), n);
      }
    case PresenterOnlyOp(asker, enabled, admin) =>
      if InRoom(e, asker) && (InfoOf(e, asker).host || admin) {
        PresenterOnlyKeeps(RoomOf(e, asker), enabled, n);
        WithExactRoom(e, e.users[asker], SetPresenterOnly(RoomOf(e, asker), enabled), n);
      }
    case PresenterOp(asker, u, allowed, admin) =>
      if Controls(e, asker, u, admin) {
        PresenterKeeps(RoomOf(e, u), u, allowed, n);
        WithExactRoom(e, e.users[u], SetPresenter(RoomOf(e, u), u, allowed), n);
      }
  }

  lemma MembersOk(e: Engine)
    requires Inv(e)
    ensures forall u :: InRoom(e, u) ==> Ok(RoomOf(e, u), e.serial)
  {
    hide Ok;
  }

  lemma RoomOk(e: Engine, id: RoomId)
    requires Inv(e) && id in e.rooms
    ensures Ok(e.rooms[id], e.serial) && |e.rooms[id].members| <= e.max
  {
    hide Ok;
  }

  lemma WithExactRoom(e: Engine, id: RoomId, r: Room, n: nat)
    requires Inv(e) && id in e.rooms && n == e.serial
    requires Ok(r, n) && r.members.Keys == e.rooms[id].members.Keys && (MicsExact(e.rooms[id]) ==> MicsExact(r))
    ensures Inv(WithRoom(e, id, r)) && (AllMicsExact(e) ==> AllMicsExact(WithRoom(e, id, r)))
  {
    hide Ok, MicsExact, Inv;
    WithRoomKeeps(e, id, r, n);
    assert WithRoom(e, id, r).(serial := n) == WithRoom(e, id, r);
  }

  /** Streams, reports and answers, as seen from the engine. */
  lemma StreamKeeps(e: Engine, op: Op)
    requires Inv(e) && (op.TrackStateOp? || op.OnTrackOp? || op.TrackEndedOp? || op.AnswerOp?)
    ensures Inv(Step(e, op)) && Step(e, op).users == e.users
    ensures AllMicsExact(e) ==> (AllMicsExact(Step(e, op)) <==> !Leaks(e, op))
  {
    hide Ok, MicsExact, OnTrackState, OnTrack, TrackEnded, Answer, RestoreLeaks, Unmutes, Index, SameRoles;
    MembersOk(e);
    var n := e.serial;
    match op
    case TrackStateOp(u, st) =>
      if InRoom(e, u) {
        OnTrackStateKeeps(RoomOf(e, u), u, st, n);
        SameMembers(RoomOf(e, u), OnTrackState(RoomOf(e, u), u, st));
        WithRoomKeeps(e, e.users[u], OnTrackState(RoomOf(e, u), u, st), n);
      }
    case OnTrackOp(u, remote, recent) =>
      if InRoom(e, u) {
        OnTrackKeeps(RoomOf(e, u), u, remote, recent, n);
        SameMembers(RoomOf(e, u), OnTrack(RoomOf(e, u), u, remote, recent, n));
        WithRoomKeeps(e, e.users[u], OnTrack(RoomOf(e, u), u, remote, recent, n), n + 1);
      }
    case TrackEndedOp(t) =>
      if InRoom(e, t.owner) {
        TrackEndedKeeps(RoomOf(e, t.owner), t, n);
        SameMembers(RoomOf(e, t.owner), TrackEnded(RoomOf(e, t.owner), t));
        WithRoomKeeps(e, e.users[t.owner], TrackEnded(RoomOf(e, t.owner), t), n);
      }
    case AnswerOp(u) =>
      if InRoom(e, u) {
        AnswerKeeps(RoomOf(e, u), u, n);
        WithRoomKeeps(e, e.users[u], Answer(RoomOf(e, u), u), n);
      }
  }

  lemma SameMembers(r: Room, s: Room)
    requires SameRoles(r, s)
    ensures s.members.Keys == r.members.Keys
  {
  }

  lemma AnswerKeeps(r: Room, u: UserId, n: nat)
    requires Ok(r, n) && u in r.members
    ensures Ok(Answer(r, u), n) && (MicsExact(Answer(r, u)) <==> MicsExact(r))
    ensures Answer(r, u).members.Keys == r.members.Keys
  {
    hide Ok, MicsExact, Subscriber.OnAnswer;
    SubscriberStepKeeps(r, u, Subscriber.Answered, n);
  }

  /** Every operation keeps the invariant, and keeps mics exact exactly when it does not leak. */
  lemma StepKeeps(e: Engine, op: Op)
    requires Inv(e) && Enabled(e, op)
    ensures Inv(Step(e, op))
    ensures AllMicsExact(e) ==> (AllMicsExact(Step(e, op)) <==> !Leaks(e, op))
  {
    hide Inv, AllMicsExact, RemoveFrom, Join, OrdersFit;
    match op
    case JoinOp(id, u, video, resume, alive, orders, ts) => JoinKeeps(e, id, u, video, resume, alive, orders, ts);
    case LeaveOp(u, orders) => if InRoom(e, u) { RemoveFromKeeps(e, e.users[u], u, orders); }
    case LeaveRoomOp(id, u, orders) => RemoveFromKeeps(e, id, u, orders);
    case KickOp(asker, u, admin, orders) =>
      if Controls(e, asker, u, admin) { RemoveFromKeeps(e, e.users[u], u, orders); }
    case MuteOp(_, _, _, _) => ControlKeeps(e, op);
    case UnlockOp(_, _, _) => ControlKeeps(e, op);
    case ClaimHostOp(_, _) => ControlKeeps(e, op);
    case PresenterOnlyOp(_, _, _) => ControlKeeps(e, op);
    case PresenterOp(_, _, _, _) => ControlKeeps(e, op);
    case _ => StreamKeeps(e, op);
  }

  // ---- whole runs ----

  lemma {:induction false} RunKeeps(e: Engine, ops: seq<Op>)
    requires Inv(e) && Possible(e, ops)
    ensures Inv(Run(e, ops))
    decreases ops
  {
    if ops != [] {
      StepKeeps(e, ops[0]);
      RunKeeps(Step(e, ops[0]), ops[1..]);
    }
  }

  /** In every run of a new engine everything in the invariant holds after every operation. */
  lemma EveryRun(max: int, ops: seq<Op>)
    requires Possible(New(max), ops)
    ensures Inv(Run(New(max), ops))
  {
    RunKeeps(New(max), ops);
  }

  /** Mics are exact in every state of the run. */
  ghost predicate MicsExactThroughout(e: Engine, ops: seq<Op>)
    decreases ops
  {
    AllMicsExact(e) && (ops == [] || MicsExactThroughout(Step(e, ops[0]), ops[1..]))
  }

  ghost predicate NeverLeaks(e: Engine, ops: seq<Op>)
    decreases ops
  {
    ops == [] || (!Leaks(e, ops[0]) && NeverLeaks(Step(e, ops[0]), ops[1..]))
  }

  /** A run keeps mics exact throughout if and only if none of its operations leaks. */
  lemma {:induction false} MicsExactIffNoLeak(e: Engine, ops: seq<Op>)
    requires Inv(e) && AllMicsExact(e) && Possible(e, ops)
    ensures MicsExactThroughout(e, ops) <==> NeverLeaks(e, ops)
    decreases ops
  {
    if ops != [] {
      StepKeeps(e, ops[0]);
      if !Leaks(e, ops[0]) {
        MicsExactIffNoLeak(Step(e, ops[0]), ops[1..]);
      }
    }
  }

  // ---- closing a room ----

  /** All rooms of `e` but `id` are in `e'`, and the same. */
  ghost predicate Except(e: Engine, e': Engine, id: RoomId) {
    forall i :: i in e.rooms && i != id ==> i in e'.rooms && e'.rooms[i] == e.rooms[i]
  }

  /** A member of room `id` leaves: nobody else does, and no other room is touched. */
  lemma LeavesAlone(e: Engine, id: RoomId, u: UserId, orders: Orders)
    requires Inv(e) && IsMember(e, id, u) && Enabled(e, LeaveOp(u, orders))
    ensures var e' := Step(e, LeaveOp(u, orders));
            && Inv(e') && Except(e, e', id)
            && forall v :: IsMember(e', id, v) <==> IsMember(e, id, v) && v != u
  {
    hide RemoveFrom, OrdersFit, RoomsOk;
    RemoveFromKeeps(e, id, u, orders);
    var e' := RemoveFrom(e, id, u, orders);
    forall v ensures IsMember(e', id, v) <==> IsMember(e, id, v) && v != u {
      assert IsMember(e', id, v) ==> v in e'.users && e'.users[v] == id;
      assert v in e'.users ==> IsMember(e', e'.users[v], v);
    }
  }

  lemma {:induction false} OneMore(e: Engine, ops: seq<Op>, op: Op)
    requires Possible(e, ops) && Enabled(Run(e, ops), op)
    ensures Possible(e, ops + [op]) && Run(e, ops + [op]) == Step(Run(e, ops), op)
    decreases ops
  {
    hide Enabled, Step;
    if ops == [] {
      assert [op][1..] == [];
    } else {
      OneMore(Step(e, ops[0]), ops[1..], op);
      assert (ops + [op])[1..] == ops[1..] + [op];
    }
  }

  /** A room without members is not registered. */
  lemma NobodyLeft(e: Engine, id: RoomId)
    requires Inv(e) && forall u :: !IsMember(e, id, u)
    ensures id !in e.rooms
  {
    if id in e.rooms { SomebodyThere(e, id); }
  }

  lemma SomebodyThere(e: Engine, id: RoomId)
    requires Inv(e) && id in e.rooms
    ensures exists u :: IsMember(e, id, u)
  {
    hide Ok;
    SomeUser(e.rooms[id].members.Keys);
    var u :| u in e.rooms[id].members.Keys;
    assert IsMember(e, id, u);
  }
}
