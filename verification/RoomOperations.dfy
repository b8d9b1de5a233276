/** Every operation of a room keeps its invariant, and what each does to mics, roles and locks. */
module RoomOperations {
  import opened Media
  import opened RoomModel
  import opened RoomInvariants
  import Subscriber

  lemma LaterSerials(r: Room, n: nat, n': nat)
    requires Ok(r, n) && n <= n'
    ensures Ok(r, n')
  {
  }

  /** What the tables and members of `r` were, apart from subscribers, tracks and parked mics. */
  ghost predicate OnlyMedia(r: Room, s: Room) {
    && SameRoles(r, s) && s.locked == r.locked
    && (forall v :: v in r.members ==> s.members[v].info == r.members[v].info)
  }

  lemma OnlyMediaKeeps(r: Room, s: Room, n: nat)
    requires OnlyMedia(r, s) && MediaOk(s, n)
    requires Locks(r) && Presenting(r) && OneHost(r) && Ordered(r)
    requires forall u :: u in r.locked ==> Slot(u, Mic) in s.tracks ==> Slot(u, Mic) in r.tracks
    ensures Ok(s, n)
  {
    SameRolesKeeps(r, s);
  }

  // ---- publishing and withdrawing ----

  lemma PublishKeeps(r: Room, u: UserId, key: Key, n: nat)
    requires Ok(r, n) && u in r.members
    ensures var s := Publish(r, u, key, Track(u, key, n));
            Ok(s, n + 1) && OnlyMedia(r, s) && (MicsExact(r) ==> MicsExact(s))
  {
    hide Forwards, SubsOk, Presenting, OneHost, Ordered, MicsExact;
    LaterSerials(r, n, n + 1);
    if key == Mic && u in r.locked {
      SameForwardingAndParked(r, Publish(r, u, key, Track(u, key, n)), u, Track(u, key, n), n + 1);
      OnlyMediaKeeps(r, Publish(r, u, key, Track(u, key, n)), n + 1);
    } else {
      ReplaceKeeps(r, u, key, n);
    }
  }

  /** Publishing a forwarded track: what was in the slot is withdrawn, then the new one installed. */
  lemma ReplaceKeeps(r: Room, u: UserId, key: Key, n: nat)
    requires Ok(r, n) && u in r.members && !(key == Mic && u in r.locked)
    ensures var s := Publish(r, u, key, Track(u, key, n));
            Ok(s, n + 1) && OnlyMedia(r, s) && (MicsExact(r) ==> MicsExact(s))
  {
    hide Forwards, SubsOk, Presenting, OneHost, Ordered, MicsExact, Locks, SameRoles, Publish, DropFromOthers,
      SendToOthers, Withdraw, Install, Subscriber.Inv;
    var slot, t := Slot(u, key), Track(u, key, n);
    LaterSerials(r, n, n + 1);
    var w := if slot in r.tracks then Withdraw(r, slot) else r;
    if slot in r.tracks {
      WithdrawKeeps(r, slot, n + 1);
    }
    SameAsItself(r);
    InstallKeeps(w, t, n + 1);
    PublishShape(r, u, key, t);
    OnlyMediaChains(r, w, Install(w, t));
    OnlyMediaKeeps(r, Install(w, t), n + 1);
  }

  lemma PublishShape(r: Room, u: UserId, key: Key, t: Track)
    requires u in r.members && !(key == Mic && u in r.locked) && t.owner == u && t.key == key
    ensures var slot := Slot(u, key);
            Publish(r, u, key, t) == Install(if slot in r.tracks then Withdraw(r, slot) else r, t)
  {
    hide DropFromOthers, SendToOthers;
    var slot := Slot(u, key);
    assert r.tracks[slot := t] == (r.tracks - {slot})[slot := t];
  }

  lemma SameAsItself(r: Room)
    ensures SameRoles(r, r)
  {
  }

  lemma OnlyMediaChains(r: Room, s: Room, t: Room)
    requires OnlyMedia(r, s) && SameRoles(s, t) && t.locked == s.locked
    requires forall v :: v in s.members ==> t.members[v].info == s.members[v].info
    ensures OnlyMedia(r, t)
  {
  }

  /** Only `parked` changed, and only by gaining a mic of `u` that is not published. */
  lemma SameForwardingAndParked(r: Room, s: Room, u: UserId, t: Track, n: nat)
    requires MediaOk(r, n) && u in r.members && s == r.(parked := r.parked[u := t])
    requires t.owner == u && t.key == Mic && t.serial < n && !IsLive(r, t)
    ensures MediaOk(s, n)
    ensures MicsExact(s) <==> MicsExact(r)
  {
    assert forall x :: IsLive(r, x) <==> IsLive(s, x);
  }

  lemma UnpublishKeeps(r: Room, slot: Slot, expected: Option<Track>, n: nat)
    requires Ok(r, n)
    ensures var s := Unpublish(r, slot, expected);
            && Ok(s, n) && OnlyMedia(r, s) && (MicsExact(r) ==> MicsExact(s))
            && if slot in r.tracks && (expected == None || expected == Some(r.tracks[slot])) then slot !in s.tracks else s == r
  {
    if CanUnpublish(r, slot, expected) {
      WithdrawKeeps(r, slot, n);
      OnlyMediaKeeps(r, Withdraw(r, slot), n);
    }
  }

  lemma ForceMuteMicKeeps(r: Room, u: UserId, n: nat)
    requires Ok(r, n)
    ensures var s := ForceMuteMic(r, u);
            && Ok(s, n) && OnlyMedia(r, s) && (MicsExact(r) ==> MicsExact(s))
            && Slot(u, Mic) !in s.tracks
            && (if Slot(u, Mic) in r.tracks then s.parked == r.parked[u := r.tracks[Slot(u, Mic)]] else s == r)
  {
    hide Forwards, SubsOk, Presenting, OneHost, Ordered, MicsExact;
    var slot := Slot(u, Mic);
    if slot in r.tracks {
      var t := r.tracks[slot];
      var w := Withdraw(r, slot);
      WithdrawKeeps(r, slot, n);
      assert !IsLive(w, t);
      SameForwardingAndParked(w, ForceMuteMic(r, u), u, t, n);
      OnlyMediaKeeps(r, ForceMuteMic(r, u), n);
    }
  }

  // ---- restoring a parked mic ----

  /** Restoring over a mic that is still published leaves that one with everybody else. */
  ghost predicate RestoreLeaks(r: Room, u: UserId) {
    u in r.parked && Slot(u, Mic) in r.tracks && exists v :: v in r.members && v != u
  }

  lemma RestoreForwards(r: Room, s: Room, u: UserId, t: Track, n: nat)
    requires Forwards(r, n) && Fanned(r.members, s.members, u, {}, {t})
    requires t.owner == u && t.key == Mic && t.serial < n
    requires forall x :: IsLive(s, x) ==> IsLive(r, x) || x == t
    requires forall x: Track :: x.key != Mic && IsLive(r, x) ==> IsLive(s, x)
    ensures Forwards(s, n)
  {
    forall v | v in s.members
      ensures forall x :: IsLive(s, x) && x.owner != v ==> x in s.members[v].sub.senders
      ensures forall x :: x in s.members[v].sub.senders ==>
                x.owner != v && x.serial < n && (x.key != Mic ==> IsLive(s, x))
    {
      assert v in r.members;
    }
  }

  lemma RestoreTidy(r: Room, s: Room, u: UserId, n: nat)
    requires Tidy(r, n) && u in r.parked
    requires s.members.Keys == r.members.Keys && s.tracks == r.tracks[Slot(u, Mic) := r.parked[u]]
    requires s.parked == r.parked - {u} && s.locked == r.locked && s.presenters == r.presenters
    ensures Tidy(s, n)
    ensures forall x :: IsLive(s, x) <==> (IsLive(r, x) && Slot(x.owner, x.key) != Slot(u, Mic)) || x == r.parked[u]
  {
  }

  lemma RestoreMicKeeps(r: Room, u: UserId, n: nat)
    requires Ok(r, n) && u !in r.locked
    ensures Ok(RestoreMic(r, u), n) && OnlyMedia(r, RestoreMic(r, u))
  {
    if u in r.parked {
      var s, t := RestoreMic(r, u), r.parked[u];
      SendFans(r.members, u, t);
      RestoreTidy(r, s, u, n);
      RestoreForwards(r, s, u, t, n);
      FannedRoles(r, s, u, {}, {t});
      OnlyMediaKeeps(r, s, n);
    }
  }

  /**
   Restoring a parked mic keeps every member's mics exact if and only if it does not leak: the
   test is whether the user already has a published mic while somebody else is in the room.
   */
  lemma RestoreMicExact(r: Room, u: UserId, n: nat)
    requires Ok(r, n) && MicsExact(r)
    ensures MicsExact(RestoreMic(r, u)) <==> !RestoreLeaks(r, u)
  {
    hide Forwards, Presenting, OneHost, Ordered, Locks, Subscriber.Inv;
    if u in r.parked {
      SendFans(r.members, u, r.parked[u]);
      RestoreTidy(r, RestoreMic(r, u), u, n);
      if RestoreLeaks(r, u) {
        LeakLeaves(r, RestoreMic(r, u), u, n);
      } else {
        assert forall t :: t in r.members[u].sub.senders ==> t.owner != u by { NoEcho(r, u, n); }
        NoLeakExact(r, RestoreMic(r, u), u);
      }
    }
  }

  lemma NoEcho(r: Room, u: UserId, n: nat)
    requires Forwards(r, n) && u in r.members
    ensures forall t :: t in r.members[u].sub.senders ==> t.owner != u
  {
  }

  lemma LeakLeaves(r: Room, s: Room, u: UserId, n: nat)
    requires Ok(r, n) && RestoreLeaks(r, u) && Fanned(r.members, s.members, u, {}, {r.parked[u]})
    requires s.tracks == r.tracks[Slot(u, Mic) := r.parked[u]]
    ensures !MicsExact(s)
  {
    hide Presenting, OneHost, Ordered, Locks, SubsOk;
    var v :| v in r.members && v != u;
    var stale := r.tracks[Slot(u, Mic)];
    assert IsLive(r, stale);
    assert !IsLive(r, r.parked[u]);
    assert stale in s.members[v].sub.senders && !IsLive(s, stale);
  }

  lemma NoLeakExact(r: Room, s: Room, u: UserId)
    requires MicsExact(r) && u in r.parked && !RestoreLeaks(r, u)
    requires Fanned(r.members, s.members, u, {}, {r.parked[u]})
    requires forall x :: IsLive(s, x) <==> (IsLive(r, x) && Slot(x.owner, x.key) != Slot(u, Mic)) || x == r.parked[u]
    requires forall t :: u in r.members && t in r.members[u].sub.senders ==> t.owner != u
    ensures MicsExact(s)
  {
    forall v, x | v in s.members && x in s.members[v].sub.senders && x.key == Mic
      ensures IsLive(s, x)
    {
      assert v in r.members;
      assert x == r.parked[u] || x in r.members[v].sub.senders;
    }
  }

  // ---- flags ----

  /** A new info that keeps the role and respects the lock. */
  predicate FitsFlags(r: Room, u: UserId, i: Info)
    requires u in r.members
  {
    && i.host == r.members[u].info.host && i.canPresent == r.members[u].info.canPresent
    && (u in r.locked ==> i.muted) && (i.locked ==> u in r.locked)
  }

  lemma SetInfoKeeps(r: Room, u: UserId, i: Info, n: nat)
    requires Ok(r, n) && u in r.members && FitsFlags(r, u, i)
    ensures var s := SetInfo(r, u, i);
            && Ok(s, n) && SameRoles(r, s) && SameForwarding(r, s) && s.locked == r.locked
            && (MicsExact(s) <==> MicsExact(r))
  {
    hide Forwards, SubsOk, Presenting, OneHost, Ordered, MicsExact;
    SameForwardingKeeps(r, SetInfo(r, u, i), n);
    SameRolesKeeps(r, SetInfo(r, u, i));
  }

  /** Changing only a pending screen announcement. */
  lemma AnnounceKeeps(r: Room, u: UserId, pending: bool, n: nat)
    requires Ok(r, n) && u in r.members
    ensures var s := r.(members := r.members[u := r.members[u].(screenPending := pending)]);
            Ok(s, n) && OnlyMedia(r, s) && (MicsExact(s) <==> MicsExact(r))
  {
    hide Forwards, SubsOk, Presenting, OneHost, Ordered, MicsExact;
    var s := r.(members := r.members[u := r.members[u].(screenPending := pending)]);
    SameForwardingKeeps(r, s, n);
    SameRolesKeeps(r, s);
  }

  lemma MuteKeeps(r: Room, u: UserId, lock: bool, n: nat)
    requires Ok(r, n) && u in r.members
    ensures var s := Mute(r, u, lock);
            && Ok(s, n) && (MicsExact(r) ==> MicsExact(s))
            && Slot(u, Mic) !in s.tracks && s.members[u].info.muted
            && s.locked == (if lock then r.locked + {u} else r.locked)
            && s.members.Keys == r.members.Keys
  {
    hide Forwards, SubsOk, Presenting, OneHost, Ordered, MicsExact, Mute, ForceMuteMic;
    var f, s := ForceMuteMic(r, u), Mute(r, u, lock);
    ForceMuteMicKeeps(r, u, n);
    MuteShape(r, u, lock);
    MuteLocks(r, f, s, u, lock);
    hide Locks, Tidy;
    SameForwardingKeeps(f, s, n);
    SameRolesKeeps(f, s);
    TidyMuted(f, s, n);
  }

  lemma TidyMuted(f: Room, s: Room, n: nat)
    requires Tidy(f, n) && SameForwarding(f, s) && SameRoles(f, s) && s.locked <= f.members.Keys
    ensures Tidy(s, n)
  {
  }

  lemma MuteLocks(r: Room, f: Room, s: Room, u: UserId, lock: bool)
    requires Locks(f) && OnlyMedia(r, f) && SameForwarding(f, s) && u in r.members && Slot(u, Mic) !in f.tracks
    requires s.locked == (if lock then r.locked + {u} else r.locked)
    requires forall v :: v in r.members ==>
               v in s.members && s.members[v].info == if v == u then r.members[u].info.(muted := true, locked := lock) else r.members[v].info
    ensures Locks(s)
  {
  }

  /** A mute withholds the mic, sets the two flags and, when asked to, the lock; nothing else. */
  lemma MuteShape(r: Room, u: UserId, lock: bool)
    requires u in r.members
    ensures var f, s := ForceMuteMic(r, u), Mute(r, u, lock);
            && SameForwarding(f, s) && SameRoles(r, f) && SameRoles(f, s)
            && s.locked == (if lock then r.locked + {u} else r.locked)
            && (forall v :: v in r.members ==>
                  s.members[v].info == if v == u then r.members[u].info.(muted := true, locked := lock)
                                       else r.members[v].info)
  {
    hide DropFromOthers;
    var slot, i := Slot(u, Mic), r.members[u].info.(muted := true, locked := lock);
    if slot in r.tracks {
      DropCommutes(r.members, u, r.tracks[slot], r.members[u].(info := i));
      DropInfos(r.members, u, r.tracks[slot]);
    }
  }

  lemma DropCommutes(ms: map<UserId, Member>, u: UserId, t: Track, m: Member)
    requires u in ms
    ensures DropFromOthers(ms[u := m], u, t) == DropFromOthers(ms, u, t)[u := m]
  {
    hide Subscriber.Remove;
  }

  lemma DropInfos(ms: map<UserId, Member>, u: UserId, t: Track)
    ensures DropFromOthers(ms, u, t).Keys == ms.Keys
    ensures forall v :: v in ms ==> DropFromOthers(ms, u, t)[v].info == ms[v].info
    ensures u in ms ==> DropFromOthers(ms, u, t)[u] == ms[u]
  {
    hide Subscriber.Remove;
  }

  lemma UnlockKeeps(r: Room, u: UserId, n: nat)
    requires Ok(r, n) && u in r.members
    ensures var s := Unlock(r, u);
            Ok(s, n) && (MicsExact(s) <==> MicsExact(r)) && s.members.Keys == r.members.Keys && u !in s.locked
  {
    hide Forwards, SubsOk, Presenting, OneHost, Ordered, MicsExact;
    SameForwardingKeeps(r, Unlock(r, u), n);
    SameRolesKeeps(r, Unlock(r, u));
  }

  lemma LockFlags(r: Room, u: UserId, n: nat)
    requires Ok(r, n) && u in r.members
    ensures FitsFlags(r, u, r.members[u].info)
  {
  }

  // ---- streams and reports ----

  lemma OnTrackKeeps(r: Room, u: UserId, remote: Key, recent: bool, n: nat)
    requires Ok(r, n) && u in r.members
    ensures var s := OnTrack(r, u, remote, recent, n);
            && Ok(s, n + 1) && SameRoles(r, s) && s.locked == r.locked && (MicsExact(r) ==> MicsExact(s))
  {
    hide Ok, MicsExact, Publish, SetInfo;
    var m := r.members[u];
    var key := Label(m, remote, recent);
    var r1 := if key != remote then r.(members := r.members[u := m.(screenPending := false)]) else r;
    if key != remote {
      AnnounceKeeps(r, u, false, n);
    }
    LaterSerials(r1, n, n + 1);
    if key != Screen || m.info.canPresent {
      PublishKeeps(r1, u, key, n);
      var r2 := Publish(r1, u, key, Track(u, key, n));
      LockFlags(r2, u, n + 1);
      SetInfoKeeps(r2, u, Started(r2.members[u].info, key), n + 1);
    }
  }

  lemma TrackEndedKeeps(r: Room, t: Track, n: nat)
    requires Ok(r, n)
    ensures var s := TrackEnded(r, t);
            && Ok(s, n) && SameRoles(r, s) && s.locked == r.locked && (MicsExact(r) ==> MicsExact(s))
  {
    hide Ok, MicsExact, Unpublish, SetInfo;
    var slot := Slot(t.owner, t.key);
    if CanUnpublish(r, slot, Some(t)) && t.owner in r.members {
      UnpublishKeeps(r, slot, Some(t), n);
      var r1 := Unpublish(r, slot, Some(t));
      LockFlags(r1, t.owner, n);
      SetInfoKeeps(r1, t.owner, Ended(r1.members[t.owner].info, t.key), n);
    } else {
      SameAsItself(r);
    }
  }

  lemma ScreenReportKeeps(r: Room, u: UserId, st: TrackState, n: nat)
    requires Ok(r, n) && u in r.members
    ensures var s := ScreenReport(r, u, st);
            && Ok(s, n) && OnlyMedia(r, s) && (MicsExact(r) ==> MicsExact(s))
            && s.parked == r.parked && (Slot(u, Mic) in s.tracks <==> Slot(u, Mic) in r.tracks)
  {
    hide Ok, MicsExact;
    AnnounceKeeps(r, u, true, n);
    SameAsItself(r);
    UnpublishKeeps(Announce(r, u, st), Slot(u, Screen), None, n);
  }

  /** A report keeps the invariant, and keeps mics exact unless it unmutes and the restore leaks. */
  lemma OnTrackStateKeeps(r: Room, u: UserId, st: TrackState, n: nat)
    requires Ok(r, n) && u in r.members
    ensures var s := OnTrackState(r, u, st);
            && Ok(s, n) && SameRoles(r, s) && s.locked == r.locked
            && (MicsExact(r) ==> (MicsExact(s) <==> !(Unmutes(r, u, st) && RestoreLeaks(r, u))))
  {
    hide Ok, MicsExact, ScreenReport, RestoreMic, SetInfo;
    var r1 := ScreenReport(r, u, st);
    ScreenReportKeeps(r, u, st, n);
    var r2 := if Unmutes(r, u, st) then RestoreMic(r1, u) else r1;
    if Unmutes(r, u, st) {
      assert RestoreLeaks(r1, u) <==> RestoreLeaks(r, u) by { LeaksAlike(r, r1, u); }
      RestoreMicKeeps(r1, u, n);
      if MicsExact(r) {
        RestoreMicExact(r1, u, n);
      }
    }
    LockFlags(r, u, n);
    LockFlags(r2, u, n);
    var i := r2.members[u].info.(muted := st.muted || Refused(r, u, st), videoOn := st.videoOn,
                                 screen := ScreenAfter(r.members[u].info, st));
    SetInfoKeeps(r2, u, i, n);
  }

  lemma LeaksAlike(r: Room, s: Room, u: UserId)
    requires s.members.Keys == r.members.Keys && s.parked == r.parked
    requires Slot(u, Mic) in s.tracks <==> Slot(u, Mic) in r.tracks
    ensures RestoreLeaks(s, u) <==> RestoreLeaks(r, u)
  {
    assert forall v :: v in r.members <==> v in s.members;
  }

  lemma SubscriberStepKeeps(r: Room, u: UserId, e: Subscriber.Event, n: nat)
    requires Ok(r, n) && u in r.members && (e == Subscriber.Answered || e == Subscriber.Reconnected)
    ensures var s := r.(members := r.members[u := r.members[u].(sub := Subscriber.Step(r.members[u].sub, e))]);
            && Ok(s, n) && OnlyMedia(r, s) && (MicsExact(s) <==> MicsExact(r))
  {
    hide Forwards, Presenting, OneHost, Ordered, MicsExact, Subscriber.Inv;
    var s := r.(members := r.members[u := r.members[u].(sub := Subscriber.Step(r.members[u].sub, e))]);
    Subscriber.StepKeeps(r.members[u].sub, e);
    SameSendersKeeps(r, s, n);
    SameRolesKeeps(r, s);
  }

  lemma SameSendersKeeps(r: Room, s: Room, n: nat)
    requires MediaOk(r, n) && s.members.Keys == r.members.Keys && s == r.(members := s.members)
    requires forall v :: v in r.members ==> s.members[v].sub.senders == r.members[v].sub.senders
    requires SubsOk(s)
    ensures MediaOk(s, n) && (MicsExact(s) <==> MicsExact(r))
  {
    assert forall t :: IsLive(r, t) <==> IsLive(s, t);
    assert Forwards(s, n) by {
      forall v | v in s.members
        ensures forall t :: IsLive(s, t) && t.owner != v ==> t in s.members[v].sub.senders
        ensures forall t :: t in s.members[v].sub.senders ==>
                  t.owner != v && t.serial < n && (t.key != Mic ==> IsLive(s, t))
      {
        assert v in r.members;
      }
    }
  }

  // ---- presenting and hosting ----

  lemma PresenterOnlyKeeps(r: Room, enabled: bool, n: nat)
    requires Ok(r, n)
    ensures var s := SetPresenterOnly(r, enabled);
            && Ok(s, n) && (MicsExact(s) <==> MicsExact(r)) && s.members.Keys == r.members.Keys
            && (forall v :: v in s.members ==>
                  s.members[v].info.canPresent == MayPresent(s, v, s.members[v].info.host))
  {
    hide Forwards, SubsOk, OneHost, MicsExact;
    var s := SetPresenterOnly(r, enabled);
    SameForwardingKeeps(r, s, n);
    HostsAgree(r, s);
  }

  lemma PresenterKeeps(r: Room, u: UserId, allowed: bool, n: nat)
    requires Ok(r, n) && u in r.members
    ensures var s := SetPresenter(r, u, allowed);
            && Ok(s, n) && (MicsExact(s) <==> MicsExact(r)) && s.members.Keys == r.members.Keys
  {
    hide Forwards, SubsOk, OneHost, MicsExact;
    var s := SetPresenter(r, u, allowed);
    SameForwardingKeeps(r, s, n);
    HostsAgree(r, s);
  }

  lemma HostsAgree(r: Room, s: Room)
    requires OneHost(r) && s.members.Keys == r.members.Keys
    requires forall v :: v in r.members ==> s.members[v].info.host == r.members[v].info.host
    ensures OneHost(s)
  {
    forall h ensures IsHost(r, h) <==> IsHost(s, h) {}
    assert s.members == map[] <==> s.members.Keys == {};
    assert r.members == map[] <==> r.members.Keys == {};
    if r.members != map[] {
      var h :| IsHost(r, h);
      assert IsHost(s, h);
    }
  }

  lemma ClaimHostKeeps(r: Room, u: UserId, n: nat)
    requires Ok(r, n)
    ensures var s := ClaimHost(r, u);
            && Ok(s, n) && (MicsExact(s) <==> MicsExact(r)) && (u in r.members ==> IsHost(s, u))
  {
    hide Forwards, SubsOk, MicsExact, Presenting, OneHost, Ordered, Locks, ClaimHost;
    ClaimHostAt(r, u);
    if u in r.members && !r.members[u].info.host {
      var s := ClaimHost(r, u);
      SameForwardingKeeps(r, s, n);
      ClaimHostRoles(r, s, u);
      SameLocksKeeps(r, s);
    }
  }

  lemma SameLocksKeeps(r: Room, s: Room)
    requires Locks(r) && Ordered(r) && s.members.Keys == r.members.Keys
    requires s.locked == r.locked && s.tracks == r.tracks && s.order == r.order
    requires forall v :: v in r.members ==> s.members[v].info.muted == r.members[v].info.muted
                                            && s.members[v].info.locked == r.members[v].info.locked
    ensures Locks(s) && Ordered(s)
  {
  }

  lemma ClaimHostRoles(r: Room, s: Room, u: UserId)
    requires u in r.members && s.members.Keys == r.members.Keys && s.presenterOnly == r.presenterOnly
    requires s.presenters == r.presenters && Presenting(r)
    requires forall v :: v in r.members ==>
               if r.members[v].info.host == (v == u) then s.members[v] == r.members[v]
               else s.members[v].info.host == (v == u) && s.members[v].info.canPresent == MayPresent(r, v, v == u)
    ensures OneHost(s) && Presenting(s) && IsHost(s, u)
  {
    assert IsHost(s, u);
  }
}
