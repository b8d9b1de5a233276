/** The main results about the conference engine, over all runs, and the promises it does not keep. */
module EngineProperties {
  import opened Media
  import opened RoomModel
  import opened RoomInvariants
  import opened RoomOperations
  import opened EngineModel
  import opened EngineInvariants
  import Subscriber

  /** What any room of any run satisfies. */
  lemma Reached(max: int, ops: seq<Op>, id: RoomId)
    requires Possible(New(max), ops) && id in Run(New(max), ops).rooms
    ensures var e := Run(New(max), ops); Ok(e.rooms[id], e.serial) && e.rooms[id].members != map[]
  {
    hide Ok, Run, Possible, Index;
    EveryRun(max, ops);
  }

  // ---- forwarding ----

  /**
   After every run, member `v` is sent a camera or screen track exactly when another member of its
   room publishes it, is sent every published mic of the others, and nothing of its own.
   */
  lemma ForwardingIsExact(max: int, ops: seq<Op>, id: RoomId, v: UserId, t: Track)
    requires Possible(New(max), ops) && IsMember(Run(New(max), ops), id, v)
    ensures var r := Run(New(max), ops).rooms[id]; var sent := t in r.members[v].sub.senders;
            && (t.key != Mic ==> (sent <==> t.owner != v && t.owner in r.members && IsLive(r, t)))
            && (IsLive(r, t) && t.owner != v ==> sent)
            && (sent ==> t.owner != v)
  {
    hide Run, Possible;
    Reached(max, ops, id);
    RoomForwards(Run(New(max), ops).rooms[id], Run(New(max), ops).serial, v, t);
  }

  lemma RoomForwards(r: Room, n: nat, v: UserId, t: Track)
    requires Ok(r, n) && v in r.members
    ensures var sent := t in r.members[v].sub.senders;
            && (t.key != Mic ==> (sent <==> t.owner != v && t.owner in r.members && IsLive(r, t)))
            && (IsLive(r, t) && t.owner != v ==> sent)
            && (sent ==> t.owner != v)
  {
  }

  /** No mic is published for an unlocked user who already has a parked one. */
  predicate SecondMic(e: Engine, op: Op) {
    op.OnTrackOp? && InRoom(e, op.user) && op.remote == Mic
    && op.user !in RoomOf(e, op.user).locked && op.user in RoomOf(e, op.user).parked
  }

  /** Nobody has a parked and a published mic at once. */
  ghost predicate Single(r: Room) {
    forall u :: u in r.parked ==> Slot(u, Mic) !in r.tracks
  }

  ghost predicate AllSingle(e: Engine) {
    forall id :: id in e.rooms ==> Single(e.rooms[id])
  }

  lemma PublishSingle(r: Room, u: UserId, key: Key, t: Track)
    requires Single(r) && !(key == Mic && u !in r.locked && u in r.parked)
    ensures Single(Publish(r, u, key, t))
  {
    hide DropFromOthers, SendToOthers;
  }

  lemma OnTrackSingle(r: Room, u: UserId, remote: Key, recent: bool, n: nat)
    requires Single(r) && u in r.members && !(remote == Mic && u !in r.locked && u in r.parked)
    ensures Single(OnTrack(r, u, remote, recent, n))
  {
    var m := r.members[u];
    var key := Label(m, remote, recent);
    var r1 := if key != remote then r.(members := r.members[u := m.(screenPending := false)]) else r;
    PublishSingle(r1, u, key, Track(u, key, n));
    hide Publish;
  }

  lemma OnTrackStateSingle(r: Room, u: UserId, st: TrackState)
    requires Single(r)
    ensures Single(OnTrackState(r, u, st))
  {
    hide DropFromOthers, SendToOthers, Unmutes, Refused, ScreenAfter;
  }

  lemma MuteSingle(r: Room, u: UserId, lock: bool)
    requires Single(r)
    ensures Single(Mute(r, u, lock))
  {
    hide DropFromOthers;
  }

  lemma LeaveSingle(r: Room, u: UserId, orders: Orders)
    requires Single(r)
    ensures Single(Leave(r, u, orders))
  {
    hide Without, Promote, Subscriber.RemoveAll;
  }

  lemma AdmitSingle(e: Engine, id: RoomId, u: UserId, video: bool, ts: seq<Track>)
    requires AllSingle(e)
    ensures AllSingle(Admit(e, id, u, video, ts).0)
  {
    hide Subscriber.AddAll;
  }

  lemma RemoveSingle(e: Engine, id: RoomId, u: UserId, orders: Orders)
    requires AllSingle(e)
    ensures AllSingle(RemoveFrom(e, id, u, orders))
  {
    hide Leave;
    if IsMember(e, id, u) {
      LeaveSingle(e.rooms[id], u, orders);
    }
  }

  lemma StepSingle(e: Engine, op: Op)
    requires AllSingle(e) && !SecondMic(e, op)
    ensures AllSingle(Step(e, op)) && !Leaks(e, op)
  {
    hide Admit, RemoveFrom, Mute, OnTrack, OnTrackState, Subscriber.OnAnswer, Subscriber.Resend, DropFromOthers;
    match op
    case JoinOp(id, u, video, resume, alive, orders, ts) =>
      RemoveSingle(e, id, u, orders);
      AdmitSingle(RemoveFrom(e, id, u, orders), id, u, video, ts);
      AdmitSingle(e, id, u, video, ts);
    case LeaveOp(u, orders) => if InRoom(e, u) { RemoveSingle(e, e.users[u], u, orders); }
    case LeaveRoomOp(id, u, orders) => RemoveSingle(e, id, u, orders);
    case KickOp(asker, u, admin, orders) => if InRoom(e, u) { RemoveSingle(e, e.users[u], u, orders); }
    case MuteOp(asker, u, admin, lock) => if InRoom(e, u) { MuteSingle(RoomOf(e, u), u, lock); }
    case TrackStateOp(u, st) => if InRoom(e, u) { OnTrackStateSingle(RoomOf(e, u), u, st); }
    case OnTrackOp(u, remote, recent) =>
      if InRoom(e, u) { OnTrackSingle(RoomOf(e, u), u, remote, recent, e.serial); }
    case _ =>
  }

  ghost predicate NoSecondMics(e: Engine, ops: seq<Op>)
    decreases ops
  {
    ops == [] || (!SecondMic(e, ops[0]) && NoSecondMics(Step(e, ops[0]), ops[1..]))
  }

  lemma {:induction false} NoSecondMicNoLeak(e: Engine, ops: seq<Op>)
    requires AllSingle(e) && NoSecondMics(e, ops)
    ensures NeverLeaks(e, ops)
    decreases ops
  {
    if ops != [] {
      StepSingle(e, ops[0]);
      NoSecondMicNoLeak(Step(e, ops[0]), ops[1..]);
    }
  }

  /** Runs that publish no mic for an unlocked user with a parked one keep every mic exact throughout. */
  lemma MicsExactWithoutSecondMic(max: int, ops: seq<Op>)
    requires Possible(New(max), ops) && NoSecondMics(New(max), ops)
    ensures MicsExactThroughout(New(max), ops)
  {
    NoSecondMicNoLeak(New(max), ops);
    MicsExactIffNoLeak(New(max), ops);
  }

  // ---- catching up ----

  /**
   From any state of any run, once `v` has given two answers its browser holds an offer of exactly
   what the server sends it: with mics exact, exactly what the others of its room publish.
   */
  lemma SubscriberCatchesUp(max: int, ops: seq<Op>, v: UserId)
    requires Possible(New(max), ops) && InRoom(Run(New(max), ops), v)
    ensures var e := Run(New(max), ops); var e' := Step(Step(e, AnswerOp(v)), AnswerOp(v));
            && InRoom(e', v) && RoomOf(e', v) == RoomOf(e, v).(members := RoomOf(e', v).members)
            && Subscriber.Settled(RoomOf(e', v).members[v].sub)
            && (forall t :: IsLive(RoomOf(e', v), t) && t.owner != v ==> t in RoomOf(e', v).members[v].sub.pc.remote)
            && (MicsExact(RoomOf(e, v)) ==>
                  forall t :: t in RoomOf(e', v).members[v].sub.pc.remote ==> IsLive(RoomOf(e', v), t) && t.owner != v)
  {
    hide Run, Possible, Ok, Forwards, MicsExact, Subscriber.OnAnswer, Subscriber.Inv, Subscriber.Settled;
    var e := Run(New(max), ops);
    Reached(max, ops, e.users[v]);
    RoomCatchesUp(RoomOf(e, v), v, e.serial);
    AnswerStep(e, v);
    AnswerStep(Step(e, AnswerOp(v)), v);
  }

  lemma AnswerStep(e: Engine, v: UserId)
    requires InRoom(e, v)
    ensures InRoom(Step(e, AnswerOp(v)), v) && RoomOf(Step(e, AnswerOp(v)), v) == Answer(RoomOf(e, v), v)
  {
    hide Subscriber.OnAnswer;
  }

  lemma RoomCatchesUp(r: Room, v: UserId, n: nat)
    requires Ok(r, n) && v in r.members
    ensures var s := Answer(Answer(r, v), v);
            && v in s.members && s == r.(members := s.members)
            && Subscriber.Settled(s.members[v].sub)
            && (forall t :: IsLive(s, t) && t.owner != v ==> t in s.members[v].sub.pc.remote)
            && (MicsExact(r) ==> forall t :: t in s.members[v].sub.pc.remote ==> IsLive(s, t) && t.owner != v)
  {
    hide Forwards, MicsExact, Subscriber.OnAnswer, Subscriber.Inv, Subscriber.Settled, Locks, Presenting, OneHost, Ordered;
    TwoAnswers(r.members[v].sub);
    AnswerKeeps(r, v, n);
    AnswerKeeps(Answer(r, v), v, n);
    CaughtUp(r, Answer(Answer(r, v), v), v, n);
  }

  lemma CaughtUp(r: Room, s: Room, v: UserId, n: nat)
    requires Forwards(s, n) && v in s.members && Subscriber.Settled(s.members[v].sub)
    requires MicsExact(r) ==> MicsExact(s)
    ensures forall t :: IsLive(s, t) && t.owner != v ==> t in s.members[v].sub.pc.remote
    ensures MicsExact(r) ==> forall t :: t in s.members[v].sub.pc.remote ==> IsLive(s, t) && t.owner != v
  {
  }

  lemma TwoAnswers(s: Subscriber.Sub)
    requires Subscriber.Inv(s) && !s.closed
    ensures var s' := Subscriber.OnAnswer(Subscriber.OnAnswer(s));
            Subscriber.Settled(s') && s'.senders == s.senders
  {
    var es := [Subscriber.Answered, Subscriber.Answered];
    assert es[1..] == [Subscriber.Answered] && es[1..][1..] == [];
    assert Subscriber.CountAnswers(es[1..]) == 1;
    Subscriber.SettlesExactly(s, es);
    assert Subscriber.Run(s, es) == Subscriber.Run(Subscriber.OnAnswer(s), es[1..]);
  }

  // ---- host locks ----

  /** What `e'` has emitted since `e`. */
  function News(e: Engine, e': Engine): seq<Event> {
    if |e.events| <= |e'.events| then e'.events[|e.events|..] else []
  }

  /** `u` is still locked in room `id`, or it has left that room since `e`. */
  ghost predicate StillLocked(e: Engine, e': Engine, id: RoomId, u: UserId) {
    (id in e'.rooms && u in e'.rooms[id].locked) || Left(id, u) in News(e, e')
  }

  /** An unlock of `u` that somebody with the host controls asked for. */
  predicate Unlocks(e: Engine, op: Op, u: UserId) {
    op.UnlockOp? && op.user == u && Controls(e, op.asker, u, op.admin)
  }

  /** Everything but a granted unlock of `u` and `u` leaving the room keeps the lock. */
  lemma LockPersists(e: Engine, op: Op, id: RoomId, u: UserId)
    requires Inv(e) && Enabled(e, op) && id in e.rooms && u in e.rooms[id].locked && !Unlocks(e, op, u)
    ensures StillLocked(e, Step(e, op), id, u)
  {
    hide Ok, Inv, Join, RemoveFrom, StillLocked, Admit;
    RoomOk(e, id);
    assert u in e.rooms[id].members by { LockedAreMembers(e.rooms[id], e.serial, u); }
    match op
    case JoinOp(i, v, video, resume, alive, orders, ts) => JoinLock(e, i, v, video, resume, alive, orders, ts, id, u);
    case LeaveOp(v, orders) => RemovalLock(e, op, id, u);
    case LeaveRoomOp(i, v, orders) => RemovalLock(e, op, id, u);
    case KickOp(asker, v, admin, orders) => RemovalLock(e, op, id, u);
    case _ => InRoomLock(e, op, id, u);
  }

  lemma LockedAreMembers(r: Room, n: nat, u: UserId)
    requires Ok(r, n) && u in r.locked
    ensures u in r.members
  {
  }

  lemma JoinLock(e: Engine, i: RoomId, v: UserId, video: bool, resume: bool, alive: bool, orders: Orders, ts: seq<Track>,
                 id: RoomId, u: UserId)
    requires id in e.rooms && u in e.rooms[id].locked && u in e.rooms[id].members
    ensures StillLocked(e, Join(e, i, v, video, resume, alive, orders, ts).0, id, u)
  {
    hide Admit, RemoveFrom, Subscriber.Resend;
    RemoveLock(e, i, v, orders, id, u);
    AdmitLock(e, i, v, video, ts, id, u);
    var e1 := RemoveFrom(e, i, v, orders);
    RemoveEvents(e, i, v, orders);
    AdmitEvents(e1, i, v, video, ts);
    if id in e1.rooms && u in e1.rooms[id].locked {
      AdmitLock(e1, i, v, video, ts, id, u);
    } else {
      var e2 := Admit(e1, i, v, video, ts).0;
      assert News(e, e1) == e2.events[|e.events|..|e1.events|];
      assert Left(id, u) in News(e, e2);
    }
  }

  lemma RemovalLock(e: Engine, op: Op, id: RoomId, u: UserId)
    requires op.LeaveOp? || op.LeaveRoomOp? || op.KickOp?
    requires id in e.rooms && u in e.rooms[id].locked && u in e.rooms[id].members
    ensures StillLocked(e, Step(e, op), id, u)
  {
    hide RemoveFrom;
    match op
    case LeaveOp(v, orders) => if InRoom(e, v) { RemoveLock(e, e.users[v], v, orders, id, u); }
    case LeaveRoomOp(i, v, orders) => RemoveLock(e, i, v, orders, id, u);
    case KickOp(asker, v, admin, orders) => if InRoom(e, v) { RemoveLock(e, e.users[v], v, orders, id, u); }
  }

  lemma InRoomLock(e: Engine, op: Op, id: RoomId, u: UserId)
    requires Inv(e) && id in e.rooms && u in e.rooms[id].locked && !Unlocks(e, op, u)
    requires !op.JoinOp? && !op.LeaveOp? && !op.LeaveRoomOp? && !op.KickOp?
    ensures StillLocked(e, Step(e, op), id, u)
  {
    hide Ok, Inv, Mute, OnTrackState, OnTrack, DropFromOthers, Subscriber.OnAnswer;
    var r := e.rooms[id];
    RoomOk(e, id);
    forall v, lock | v in r.members ensures u in Mute(r, v, lock).locked { MuteKeeps(r, v, lock, e.serial); }
    forall v, st | v in r.members ensures u in OnTrackState(r, v, st).locked { OnTrackStateKeeps(r, v, st, e.serial); }
    forall v, remote, recent | v in r.members ensures u in OnTrack(r, v, remote, recent, e.serial).locked {
      OnTrackKeeps(r, v, remote, recent, e.serial);
    }
  }

  lemma RemoveLock(e: Engine, i: RoomId, v: UserId, orders: Orders, id: RoomId, u: UserId)
    requires id in e.rooms && u in e.rooms[id].locked && u in e.rooms[id].members
    ensures StillLocked(e, RemoveFrom(e, i, v, orders), id, u)
  {
    hide Without, Promote, Subscriber.RemoveAll;
    if IsMember(e, i, v) {
      var s := Leave(e.rooms[i], v, orders);
      var e' := RemoveFrom(e, i, v, orders);
      assert News(e, e')[0] == Left(i, v);
      if i == id && v != u {
        assert u in s.members.Keys by { LeaveOthersStay(e.rooms[i], v, orders, u); }
        assert s.members != map[];
      }
    }
  }

  lemma LeaveOthersStay(r: Room, v: UserId, orders: Orders, u: UserId)
    requires u in r.members && v in r.members && u != v
    ensures u in Leave(r, v, orders).members
  {
    hide Without, Subscriber.RemoveAll;
  }

  lemma RemoveEvents(e: Engine, i: RoomId, v: UserId, orders: Orders)
    ensures var e' := RemoveFrom(e, i, v, orders); |e'.events| >= |e.events| && e'.events[..|e.events|] == e.events
  {
    hide Leave;
  }

  lemma AdmitEvents(e: Engine, i: RoomId, v: UserId, video: bool, ts: seq<Track>)
    ensures var e' := Admit(e, i, v, video, ts).0; |e'.events| >= |e.events| && e'.events[..|e.events|] == e.events
  {
    hide Enter;
  }

  lemma AdmitLock(e: Engine, i: RoomId, v: UserId, video: bool, ts: seq<Track>, id: RoomId, u: UserId)
    requires id in e.rooms && u in e.rooms[id].locked
    ensures var e' := Admit(e, i, v, video, ts).0; id in e'.rooms && u in e'.rooms[id].locked
  {
    hide Subscriber.AddAll;
  }

  lemma StepEvents(e: Engine, op: Op)
    ensures var e' := Step(e, op); |e'.events| >= |e.events| && e'.events[..|e.events|] == e.events
  {
    hide RemoveFrom, Admit, Mute, Unlock, ClaimHost, SetPresenterOnly, SetPresenter, OnTrackState, OnTrack, TrackEnded, Answer, Resume;
    match op
    case JoinOp(i, v, video, resume, alive, orders, ts) =>
      RemoveEvents(e, i, v, orders);
      AdmitEvents(RemoveFrom(e, i, v, orders), i, v, video, ts);
      AdmitEvents(e, i, v, video, ts);
    case LeaveOp(v, orders) => if InRoom(e, v) { RemoveEvents(e, e.users[v], v, orders); }
    case LeaveRoomOp(i, v, orders) => RemoveEvents(e, i, v, orders);
    case KickOp(_, v, _, orders) => if InRoom(e, v) { RemoveEvents(e, e.users[v], v, orders); }
    case _ =>
  }

  lemma {:induction false} RunEvents(e: Engine, ops: seq<Op>)
    ensures var e' := Run(e, ops); |e'.events| >= |e.events| && e'.events[..|e.events|] == e.events
    decreases ops
  {
    hide Step;
    if ops != [] {
      StepEvents(e, ops[0]);
      RunEvents(Step(e, ops[0]), ops[1..]);
    }
  }

  predicate NeverUnlocks(e: Engine, ops: seq<Op>, u: UserId)
    decreases ops
  {
    ops == [] || (!Unlocks(e, ops[0], u) && NeverUnlocks(Step(e, ops[0]), ops[1..], u))
  }

  /** Through any run without a granted unlock of `u`, a locked `u` stays locked or has left the room. */
  lemma {:induction false} LockSurvivesRun(e: Engine, ops: seq<Op>, id: RoomId, u: UserId)
    requires Inv(e) && Possible(e, ops) && id in e.rooms && u in e.rooms[id].locked
    requires NeverUnlocks(e, ops, u)
    ensures StillLocked(e, Run(e, ops), id, u)
    decreases ops
  {
    hide Inv, Step, Enabled, Unlocks;
    if ops != [] {
      var e1, rest := Step(e, ops[0]), ops[1..];
      var e2 := Run(e1, rest);
      StepKeeps(e, ops[0]);
      LockPersists(e, ops[0], id, u);
      StepEvents(e, ops[0]);
      RunEvents(e1, rest);
      if id in e1.rooms && u in e1.rooms[id].locked {
        LockSurvivesRun(e1, rest, id, u);
      }
      hide Run;
      NewsAdds(e, e1, e2);
    }
  }

  lemma NewsAdds(e: Engine, e1: Engine, e2: Engine)
    requires |e.events| <= |e1.events| <= |e2.events| && e1.events[..|e.events|] == e.events && e2.events[..|e1.events|] == e1.events
    ensures News(e, e2) == News(e, e1) + News(e1, e2)
  {
    assert e2.events == e1.events + e2.events[|e1.events|..];
  }

  /** A locked user shows as muted, publishes no mic, and with mics exact nobody is sent one of its mics. */
  lemma LockedIsSilent(max: int, ops: seq<Op>, id: RoomId, u: UserId)
    requires Possible(New(max), ops) && IsMember(Run(New(max), ops), id, u)
    requires u in Run(New(max), ops).rooms[id].locked
    ensures var r := Run(New(max), ops).rooms[id];
            && r.members[u].info.muted && Slot(u, Mic) !in r.tracks
            && (MicsExact(r) ==> forall v, t :: v in r.members && t in r.members[v].sub.senders ==>
                                   !(t.owner == u && t.key == Mic))
  {
    hide Run, Possible;
    Reached(max, ops, id);
    RoomLockIsSilent(Run(New(max), ops).rooms[id], Run(New(max), ops).serial, u);
  }

  lemma RoomLockIsSilent(r: Room, n: nat, u: UserId)
    requires Ok(r, n) && u in r.members && u in r.locked
    ensures r.members[u].info.muted && Slot(u, Mic) !in r.tracks
    ensures MicsExact(r) ==> forall v, t :: v in r.members && t in r.members[v].sub.senders ==>
                               !(t.owner == u && t.key == Mic)
    ensures u in r.members
  {
    hide Forwards, SubsOk, Presenting, OneHost, Ordered;
  }

  /**
   The flag shown to everybody is meant to say whether the lock holds. A later plain mute clears the
   flag but not the lock, so after a mute the two agree exactly when it locks or nothing was locked.
   */
  lemma LockFlagAfterMute(r: Room, u: UserId, lock: bool, n: nat)
    requires Ok(r, n) && u in r.members
    ensures var s := Mute(r, u, lock);
            (s.members[u].info.locked <==> u in s.locked) <==> (lock || u !in r.locked)
  {
    hide Ok;
    MuteShape(r, u, lock);
    hide Mute, ForceMuteMic;
  }

  /** The shown flag never claims a lock that is not there. */
  lemma ShownLockHolds(max: int, ops: seq<Op>, id: RoomId, u: UserId)
    requires Possible(New(max), ops) && IsMember(Run(New(max), ops), id, u)
    ensures var r := Run(New(max), ops).rooms[id]; r.members[u].info.locked ==> u in r.locked
  {
    hide Run, Possible;
    Reached(max, ops, id);
    LockFlags(Run(New(max), ops).rooms[id], u, Run(New(max), ops).serial);
  }

  // ---- hosts and presenting ----

  /** Every registered room has exactly one host, and everybody else may present exactly by the rule. */
  lemma RolesAreRight(max: int, ops: seq<Op>, id: RoomId)
    requires Possible(New(max), ops) && id in Run(New(max), ops).rooms
    ensures var r := Run(New(max), ops).rooms[id];
            && (exists h :: IsHost(r, h) && forall g :: IsHost(r, g) ==> g == h)
            && (forall v :: v in r.members && !IsHost(r, v) ==>
                  (r.members[v].info.canPresent <==> !r.presenterOnly || v in r.presenters))
            && (forall v :: v in r.members && r.members[v].info.canPresent ==>
                  MayPresent(r, v, r.members[v].info.host))
  {
    hide Run, Possible;
    Reached(max, ops, id);
    RoomRolesAreRight(Run(New(max), ops).rooms[id], Run(New(max), ops).serial);
  }

  lemma RoomRolesAreRight(r: Room, n: nat)
    requires Ok(r, n) && r.members != map[]
    ensures exists h :: IsHost(r, h) && forall g :: IsHost(r, g) ==> g == h
    ensures forall v :: v in r.members && !IsHost(r, v) ==>
              (r.members[v].info.canPresent <==> !r.presenterOnly || v in r.presenters)
    ensures forall v :: v in r.members && r.members[v].info.canPresent ==>
              MayPresent(r, v, r.members[v].info.host)
  {
    hide Forwards, SubsOk, Locks, Tidy;
    var h :| IsHost(r, h);
    assert forall g :: IsHost(r, g) ==> g == h;
  }
}
