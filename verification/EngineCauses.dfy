/**
 Nothing in a room comes from nowhere: in every run each track, lock and grant goes back to an operation of
 whoever was entitled to it. And a mute that is taken back leaves everybody hearing what they heard before.
 */
module EngineCauses {
  import opened Media
  import opened RoomModel
  import opened RoomInvariants
  import opened EngineModel
  import opened EngineInvariants
  import RoomOperations
  import RoomEffects
  import Subscriber

  // ---- causes ----

  /** Something that can be true of a room: a track is published or withheld, a user is locked, a user is granted presenting. */
  datatype Fact = Held(track: Track) | Locked(user: UserId) | Granted(user: UserId)

  predicate True(r: Room, f: Fact) {
    match f
    case Held(t) => IsLive(r, t) || (t.owner in r.parked && r.parked[t.owner] == t)
    case Locked(u) => u in r.locked
    case Granted(u) => u in r.presenters
  }

  /** What makes a fact true: the owner's stream arrives, or somebody with the host controls locks or grants. */
  predicate Causes(e: Engine, op: Op, id: RoomId, f: Fact) {
    match f
    case Held(t) => op.OnTrackOp? && op.user == t.owner && t.serial == e.serial && InRoom(e, op.user) && e.users[op.user] == id
    case Locked(u) => op.MuteOp? && op.user == u && op.lock && Controls(e, op.asker, u, op.admin) && e.users[u] == id
    case Granted(u) => op.PresenterOp? && op.user == u && op.allowed && Controls(e, op.asker, u, op.admin) && e.users[u] == id
  }

  predicate TrueIn(e: Engine, id: RoomId, f: Fact) {
    id in e.rooms && True(e.rooms[id], f)
  }

  /** Nothing is true of `s` that is not true of `r`. */
  ghost predicate NothingNew(r: Room, s: Room) {
    forall f :: True(s, f) ==> True(r, f)
  }

  lemma LeaveNothingNew(r: Room, u: UserId, orders: Orders, n: nat)
    requires Tidy(r, n) && u in r.members
    ensures NothingNew(r, Leave(r, u, orders))
  {
    RoomEffects.LeaveEffect(r, u, orders, n);
    hide Leave;
  }

  lemma EnterNothingNew(r: Room, u: UserId, video: bool, ts: seq<Track>)
    requires u !in r.members
    ensures NothingNew(r, Enter(r, u, video, ts))
  {
    RoomEffects.EnterEffect(r, u, video, ts);
    hide Subscriber.AddAll;
  }

  lemma EndedNothingNew(r: Room, t: Track)
    ensures NothingNew(r, TrackEnded(r, t))
  {
    RoomEffects.UnpublishEffect(r, Slot(t.owner, t.key), Some(t));
    hide DropFromOthers;
  }

  lemma ReportNothingNew(r: Room, u: UserId, st: TrackState, n: nat)
    requires Tidy(r, n) && u in r.members
    ensures NothingNew(r, OnTrackState(r, u, st))
  {
    RoomEffects.ReportTracks(r, u, st, n);
    hide OnTrackState;
  }

  lemma ArrivalNews(r: Room, u: UserId, remote: Key, recent: bool, n: nat, f: Fact)
    requires u in r.members && True(OnTrack(r, u, remote, recent, n), f)
    ensures True(r, f) || (f.Held? && f.track.owner == u && f.track.serial == n)
  {
    var m := r.members[u];
    var key := Label(m, remote, recent);
    var r1 := if key != remote then r.(members := r.members[u := m.(screenPending := false)]) else r;
    RoomEffects.PublishEffect(r1, u, key, n);
    hide Subscriber.Add, Subscriber.Remove;
  }

  lemma MuteNews(r: Room, u: UserId, lock: bool, n: nat, f: Fact)
    requires Tidy(r, n) && u in r.members && True(Mute(r, u, lock), f)
    ensures True(r, f) || (f == Locked(u) && lock)
  {
    RoomEffects.MuteEffect(r, u, lock);
    SamePresenters(r, u, lock);
    hide Mute;
  }

  lemma SamePresenters(r: Room, u: UserId, lock: bool)
    ensures Mute(r, u, lock).presenters == r.presenters
  {
    hide Subscriber.Remove;
  }

  lemma GrantNews(r: Room, u: UserId, allowed: bool, f: Fact)
    requires u in r.members && True(SetPresenter(r, u, allowed), f)
    ensures True(r, f) || (f == Granted(u) && allowed)
  {
    RoomEffects.PresenterEffect(r, u, allowed);
  }

  lemma UnlockNothingNew(r: Room, u: UserId)
    requires u in r.members
    ensures NothingNew(r, Unlock(r, u))
  {
    RoomEffects.UnlockEffect(r, u);
  }

  lemma FlagsNothingNew(r: Room, u: UserId, b: bool)
    ensures NothingNew(r, ClaimHost(r, u)) && NothingNew(r, SetPresenterOnly(r, b)) && NothingNew(r, Answer(r, u)) && NothingNew(r, Resume(r, u))
  {
    hide Subscriber.OnAnswer, Subscriber.Resend, MayPresent;
  }

  // ---- one operation ----

  lemma OneRoomNews(e: Engine, at: RoomId, s: Room, id: RoomId, f: Fact)
    requires TrueIn(WithRoom(e, at, s), id, f)
    ensures id != at ==> TrueIn(e, id, f)
    ensures id == at ==> True(s, f)
  {
  }

  lemma RemoveCause(e: Engine, at: RoomId, u: UserId, orders: Orders, id: RoomId, f: Fact)
    requires Inv(e) && TrueIn(RemoveFrom(e, at, u, orders), id, f)
    ensures TrueIn(e, id, f)
  {
    hide Inv;
    if IsMember(e, at, u) {
      RoomTidy(e, at);
      LeaveNothingNew(e.rooms[at], u, orders, e.serial);
      hide Leave, True, Inv, Tidy;
    }
  }

  lemma RoomTidy(e: Engine, id: RoomId)
    requires Inv(e) && id in e.rooms
    ensures Tidy(e.rooms[id], e.serial)
  {
    RoomOk(e, id);
    hide Inv, Tidy, Forwards, SubsOk, Locks, Presenting, OneHost, Ordered;
  }

  lemma AdmitCause(e: Engine, at: RoomId, u: UserId, video: bool, ts: seq<Track>, id: RoomId, f: Fact)
    requires !IsMember(e, at, u) && TrueIn(Admit(e, at, u, video, ts).0, id, f)
    ensures TrueIn(e, id, f)
  {
    EnterNothingNew(RoomOrNew(e, at), u, video, ts);
    assert !True(EMPTY, f);
    hide Enter, True;
  }

  lemma JoinCause(e: Engine, op: Op, id: RoomId, f: Fact)
    requires Inv(e) && op.JoinOp? && Enabled(e, op) && TrueIn(Step(e, op), id, f)
    ensures TrueIn(e, id, f)
  {
    hide Inv, RemoveFrom, Admit, Resume, OrdersFit, Enumerates, PublishedByOthers, TrueIn;
    var JoinOp(at, u, video, resume, alive, orders, ts) := op;
    if IsMember(e, at, u) {
      RemoveFromKeeps(e, at, u, orders);
      if resume && alive {
        FlagsNothingNew(e.rooms[at], u, true);
        SameFacts(e, at, Resume(e.rooms[at], u), id, f);
      } else if !IsElsewhere(e, at, u) {
        AdmitCause(RemoveFrom(e, at, u, orders), at, u, video, ts, id, f);
        RemoveCause(e, at, u, orders, id, f);
      }
    } else if !IsElsewhere(e, at, u) {
      AdmitCause(e, at, u, video, ts, id, f);
    }
  }

  lemma SameFacts(e: Engine, at: RoomId, s: Room, id: RoomId, f: Fact)
    requires at in e.rooms && NothingNew(e.rooms[at], s)
    ensures TrueIn(WithRoom(e, at, s), id, f) ==> TrueIn(e, id, f)
    ensures forall n: nat :: TrueIn(WithRoom(e, at, s).(serial := n), id, f) ==> TrueIn(e, id, f)
  {
    hide True;
  }

  lemma ControlCause(e: Engine, op: Op, id: RoomId, f: Fact)
    requires Inv(e) && (op.MuteOp? || op.UnlockOp? || op.PresenterOp?) && TrueIn(Step(e, op), id, f)
    ensures TrueIn(e, id, f) || Causes(e, op, id, f)
  {
    hide Inv, Mute, Unlock, SetPresenter, True, InRoom, RoomOf;
    if Step(e, op) != e {
      RoomEffects.OnlyHostsControl(e, op);
      var u := op.user;
      InItsRoom(e, u);
      var r := RoomOf(e, u);
      match op
      case MuteOp(asker, _, admin, lock) =>
        OneRoomNews(e, e.users[u], Mute(r, u, lock), id, f);
        if id == e.users[u] { MuteNews(r, u, lock, e.serial, f); }
      case UnlockOp(asker, _, admin) =>
        UnlockNothingNew(r, u);
        OneRoomNews(e, e.users[u], Unlock(r, u), id, f);
      case PresenterOp(asker, _, allowed, admin) =>
        OneRoomNews(e, e.users[u], SetPresenter(r, u, allowed), id, f);
        if id == e.users[u] { GrantNews(r, u, allowed, f); }
    }
  }

  lemma InItsRoom(e: Engine, u: UserId)
    requires Inv(e) && InRoom(e, u)
    ensures u in e.users && e.users[u] in e.rooms && RoomOf(e, u) == e.rooms[e.users[u]] && u in RoomOf(e, u).members
    ensures Tidy(RoomOf(e, u), e.serial)
  {
    RoomOk(e, e.users[u]);
    hide Inv, Tidy, Forwards, SubsOk, Locks, Presenting, OneHost, Ordered;
  }

  lemma StreamCause(e: Engine, op: Op, id: RoomId, f: Fact)
    requires Inv(e) && (op.TrackStateOp? || op.OnTrackOp? || op.TrackEndedOp? || op.AnswerOp?) && TrueIn(Step(e, op), id, f)
    ensures TrueIn(e, id, f) || Causes(e, op, id, f)
  {
    hide Inv, OnTrackState, OnTrack, TrackEnded, Answer, True, InRoom, RoomOf, Tidy;
    match op
    case TrackStateOp(u, st) =>
      if InRoom(e, u) {
        InItsRoom(e, u);
        ReportNothingNew(RoomOf(e, u), u, st, e.serial);
        SameFacts(e, e.users[u], OnTrackState(RoomOf(e, u), u, st), id, f);
      }
    case OnTrackOp(u, remote, recent) =>
      if InRoom(e, u) {
        InItsRoom(e, u);
        OneRoomNews(e, e.users[u], OnTrack(RoomOf(e, u), u, remote, recent, e.serial), id, f);
        if id == e.users[u] { ArrivalNews(RoomOf(e, u), u, remote, recent, e.serial, f); }
      }
    case TrackEndedOp(t) =>
      if InRoom(e, t.owner) {
        InItsRoom(e, t.owner);
        EndedNothingNew(RoomOf(e, t.owner), t);
        SameFacts(e, e.users[t.owner], TrackEnded(RoomOf(e, t.owner), t), id, f);
      }
    case AnswerOp(u) =>
      if InRoom(e, u) {
        InItsRoom(e, u);
        FlagsNothingNew(RoomOf(e, u), u, true);
        SameFacts(e, e.users[u], Answer(RoomOf(e, u), u), id, f);
      }
  }

  /** Whatever is true after an operation was true before or is caused by it. */
  lemma StepCause(e: Engine, op: Op, id: RoomId, f: Fact)
    requires Inv(e) && Enabled(e, op) && TrueIn(Step(e, op), id, f)
    ensures TrueIn(e, id, f) || Causes(e, op, id, f)
  {
    hide Inv, True, RemoveFrom, Mute, Unlock, ClaimHost, SetPresenterOnly, SetPresenter, OnTrackState, OnTrack, TrackEnded, Answer,
      Join, Causes, TrueIn;
    match op
    case JoinOp(_, _, _, _, _, _, _) => JoinCause(e, op, id, f);
    case LeaveOp(u, orders) => if InRoom(e, u) { RemoveCause(e, e.users[u], u, orders, id, f); }
    case LeaveRoomOp(at, u, orders) => RemoveCause(e, at, u, orders, id, f);
    case KickOp(asker, u, admin, orders) => if Controls(e, asker, u, admin) { RemoveCause(e, e.users[u], u, orders, id, f); }
    case MuteOp(_, _, _, _) => ControlCause(e, op, id, f);
    case UnlockOp(_, _, _) => ControlCause(e, op, id, f);
    case PresenterOp(_, _, _, _) => ControlCause(e, op, id, f);
    case ClaimHostOp(at, u) =>
      if at in e.rooms {
        FlagsNothingNew(e.rooms[at], u, true);
        SameFacts(e, at, ClaimHost(e.rooms[at], u), id, f);
      }
    case PresenterOnlyOp(asker, b, admin) =>
      if InRoom(e, asker) {
        FlagsNothingNew(RoomOf(e, asker), asker, b);
        SameFacts(e, e.users[asker], SetPresenterOnly(RoomOf(e, asker), b), id, f);
      }
    case _ => StreamCause(e, op, id, f);
  }

  // ---- whole runs ----

  lemma {:induction false} SplitLast(e: Engine, ops: seq<Op>)
    requires Possible(e, ops) && ops != []
    ensures var front := ops[..|ops| - 1];
            Possible(e, front) && Enabled(Run(e, front), ops[|ops| - 1]) && Run(e, ops) == Step(Run(e, front), ops[|ops| - 1])
    decreases ops
  {
    hide Step, Enabled;
    if |ops| == 1 {
      assert ops[1..] == [];
    } else {
      var front := ops[..|ops| - 1];
      SplitLast(Step(e, ops[0]), ops[1..]);
      assert ops[1..][..|ops| - 2] == front[1..];
    }
  }

  lemma NothingAtFirst(max: int, id: RoomId, f: Fact)
    ensures !TrueIn(Run(New(max), []), id, f)
  {
  }

  /**
   In every run: a track that a room publishes or withholds arrived there as a stream of its owner; whoever
   is locked was locked, and whoever is granted presenting was granted it, by a host of that room or an
   administrator in it.
   */
  lemma {:induction false} EverythingHasACause(max: int, ops: seq<Op>, id: RoomId, f: Fact)
    requires Possible(New(max), ops) && TrueIn(Run(New(max), ops), id, f)
    ensures exists i :: 0 <= i < |ops| && Causes(Run(New(max), ops[..i]), ops[i], id, f)
    decreases |ops|
  {
    NothingAtFirst(max, id, f);
    hide Run, Possible, Step, Enabled, Inv, Causes, TrueIn;
    if ops != [] {
      var n := |ops| - 1;
      var front := ops[..n];
      SplitLast(New(max), ops);
      EveryRun(max, front);
      StepCause(Run(New(max), front), ops[n], id, f);
      if TrueIn(Run(New(max), front), id, f) {
        EverythingHasACause(max, front, id, f);
        var i :| 0 <= i < n && Causes(Run(New(max), front[..i]), front[i], id, f);
        assert front[..i] == ops[..i] && front[i] == ops[i];
      } else {
        assert Causes(Run(New(max), ops[..n]), ops[n], id, f);
      }
    }
  }

  // ---- a mute taken back ----

  /** The mic of `u` is withheld, and everything else is as it was in `r`. */
  ghost predicate MicWithheld(r: Room, s: Room, u: UserId) {
    && Slot(u, Mic) in r.tracks && u in s.parked && s.parked[u] == r.tracks[Slot(u, Mic)]
    && (forall x: Track :: IsLive(s, x) <==> IsLive(r, x) && Slot(x.owner, x.key) != Slot(u, Mic))
    && u in s.members && s.members[u].info.muted && u !in s.locked
  }

  lemma MutedAndUnlocked(r: Room, u: UserId, lock: bool, n: nat)
    requires Ok(r, n) && u in r.members && Slot(u, Mic) in r.tracks
    ensures var k := Unlock(Mute(r, u, lock), u);
            && MicWithheld(r, k, u) && Ok(k, n)
            && u in k.members && k.members[u].info.screen == r.members[u].info.screen
  {
    var m := Mute(r, u, lock);
    RoomOperations.MuteKeeps(r, u, lock, n);
    hide Ok, MicsExact, Mute, Unlock, MicGone, MicWithheld;
    RoomOperations.UnlockKeeps(m, u, n);
    MicWithdrawn(r, u, lock);
    LockReleased(r, m, u);
  }

  /** The same but for the lock. */
  ghost predicate MicGone(r: Room, s: Room, u: UserId) {
    && Slot(u, Mic) in r.tracks && u in s.parked && s.parked[u] == r.tracks[Slot(u, Mic)]
    && (forall x: Track :: IsLive(s, x) <==> IsLive(r, x) && Slot(x.owner, x.key) != Slot(u, Mic))
    && u in s.members && s.members[u].info.muted && u in r.members && s.members[u].info.screen == r.members[u].info.screen
  }

  lemma MicWithdrawn(r: Room, u: UserId, lock: bool)
    requires u in r.members && Slot(u, Mic) in r.tracks
    ensures MicGone(r, Mute(r, u, lock), u)
  {
    RoomEffects.MuteEffect(r, u, lock);
    hide Mute;
  }

  lemma LockReleased(r: Room, m: Room, u: UserId)
    requires MicGone(r, m, u)
    ensures u in m.members && MicWithheld(r, Unlock(m, u), u)
    ensures u in r.members && u in Unlock(m, u).members && Unlock(m, u).members[u].info.screen == r.members[u].info.screen
  {
    RoomEffects.UnlockEffect(m, u);
    hide Unlock;
  }

  lemma Unmuted(r: Room, k: Room, u: UserId, st: TrackState, n: nat)
    requires MicWithheld(r, k, u) && Ok(k, n) && !st.muted && !RoomEffects.StopsScreen(k, u, st)
    requires r.tracks[Slot(u, Mic)].owner == u && r.tracks[Slot(u, Mic)].key == Mic
    ensures var s := OnTrackState(k, u, st);
            && (forall x: Track :: IsLive(s, x) <==> IsLive(r, x))
            && u in s.members && u !in s.locked && !s.members[u].info.muted
  {
    RoomEffects.ReportTracks(k, u, st, n);
    RoomEffects.ReportEffect(k, u, st);
    hide OnTrackState, Forwards, SubsOk, Locks, Presenting, OneHost, Ordered, Tidy;
  }

  /**
   A host mutes somebody, with a lock or without, takes the lock back, and the other unmutes: the same
   tracks are published as before, so everybody is sent what they were sent.
   */
  lemma MuteTakenBack(e: Engine, asker: UserId, u: UserId, admin: bool, lock: bool, st: TrackState)
    requires Inv(e) && Controls(e, asker, u, admin) && Slot(u, Mic) in RoomOf(e, u).tracks
    requires !st.muted && !RoomEffects.StopsScreen(RoomOf(e, u), u, st)
    ensures var e1 := Step(e, MuteOp(asker, u, admin, lock)); var e2 := Step(e1, UnlockOp(asker, u, admin));
            var f := Step(e2, TrackStateOp(u, st));
            && Inv(f) && InRoom(f, u) && f.users == e.users
            && (forall x: Track :: IsLive(RoomOf(f, u), x) <==> IsLive(RoomOf(e, u), x))
            && u !in RoomOf(f, u).locked && !InfoOf(f, u).muted
  {
    var r := RoomOf(e, u);
    ThreeSteps(e, asker, u, admin, lock, st);
    RoomOk(e, e.users[u]);
    hide Step, Controls, Inv, Ok, Mute, Unlock, OnTrackState;
    BackAgain(r, u, lock, st, e.serial);
    RoleStays(r, asker, u, lock, e.serial);
    InTurn(e, asker, u, admin, lock, st);
  }

  lemma ThreeSteps(e: Engine, asker: UserId, u: UserId, admin: bool, lock: bool, st: TrackState)
    requires Inv(e)
    ensures Inv(Step(Step(Step(e, MuteOp(asker, u, admin, lock)), UnlockOp(asker, u, admin)), TrackStateOp(u, st)))
  {
    hide Inv, Step;
    var e1 := Step(e, MuteOp(asker, u, admin, lock));
    StepKeeps(e, MuteOp(asker, u, admin, lock));
    StepKeeps(e1, UnlockOp(asker, u, admin));
    StepKeeps(Step(e1, UnlockOp(asker, u, admin)), TrackStateOp(u, st));
  }

  lemma BackAgain(r: Room, u: UserId, lock: bool, st: TrackState, n: nat)
    requires Ok(r, n) && u in r.members && Slot(u, Mic) in r.tracks && !st.muted && !RoomEffects.StopsScreen(r, u, st)
    ensures var s := OnTrackState(Unlock(Mute(r, u, lock), u), u, st);
            && (forall x: Track :: IsLive(s, x) <==> IsLive(r, x))
            && u in s.members && u !in s.locked && !s.members[u].info.muted
  {
    hide Mute, Unlock, OnTrackState, Ok, MicWithheld;
    MicOfOwner(r, u, n);
    MutedAndUnlocked(r, u, lock, n);
    var k := Unlock(Mute(r, u, lock), u);
    NoStop(r, k, u, st);
    Unmuted(r, k, u, st, n);
  }

  lemma NoStop(r: Room, k: Room, u: UserId, st: TrackState)
    requires u in r.members && MicWithheld(r, k, u) && u in k.members && k.members[u].info.screen == r.members[u].info.screen
    requires !RoomEffects.StopsScreen(r, u, st)
    ensures !RoomEffects.StopsScreen(k, u, st)
  {
  }

  lemma MicOfOwner(r: Room, u: UserId, n: nat)
    requires Ok(r, n) && Slot(u, Mic) in r.tracks
    ensures r.tracks[Slot(u, Mic)].owner == u && r.tracks[Slot(u, Mic)].key == Mic
  {
    hide Forwards, SubsOk, Locks, Presenting, OneHost, Ordered;
  }

  lemma RoleStays(r: Room, asker: UserId, u: UserId, lock: bool, n: nat)
    requires Ok(r, n) && asker in r.members && u in r.members
    ensures var m := Mute(r, u, lock);
            asker in m.members && u in m.members && m.members[asker].info.host == r.members[asker].info.host
            && u in Unlock(m, u).members
  {
    RoomOperations.MuteShape(r, u, lock);
    hide Mute, Ok, ForceMuteMic;
  }

  lemma InTurn(e: Engine, asker: UserId, u: UserId, admin: bool, lock: bool, st: TrackState)
    requires Controls(e, asker, u, admin)
    requires var m := Mute(RoomOf(e, u), u, lock);
             asker in m.members && u in m.members && m.members[asker].info.host == InfoOf(e, asker).host
             && u in Unlock(m, u).members && u in OnTrackState(Unlock(m, u), u, st).members
    ensures var e1 := Step(e, MuteOp(asker, u, admin, lock)); var e2 := Step(e1, UnlockOp(asker, u, admin));
            var f := Step(e2, TrackStateOp(u, st));
            InRoom(f, u) && f.users == e.users && RoomOf(f, u) == OnTrackState(Unlock(Mute(RoomOf(e, u), u, lock), u), u, st)
  {
    hide Mute, Unlock, OnTrackState;
  }
}
