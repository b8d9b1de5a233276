/**
 What the room operations do, told by what can be seen of a room: which tracks are published, which mics
 are withheld, who is locked, and what everybody's info says.
 */
module RoomEffects {
  import opened Media
  import opened RoomModel
  import opened RoomInvariants
  import opened EngineModel
  import Subscriber

  /** Exactly the tracks `gone` are no longer published and the tracks `come` are. */
  ghost predicate Replaces(r: Room, s: Room, gone: Slot, come: Option<Track>) {
    forall x :: IsLive(s, x) <==> come == Some(x) || (IsLive(r, x) && Slot(x.owner, x.key) != gone)
  }

  /** `u` has the withheld mic `t`; nobody else's withheld mic changed. */
  ghost predicate Withholds(r: Room, s: Room, u: UserId, t: Option<Track>) {
    && (t.Some? ==> u in s.parked && s.parked[u] == t.value)
    && (t.None? ==> u !in s.parked)
    && (forall v :: v != u ==> (v in s.parked <==> v in r.parked) && (v in r.parked ==> s.parked[v] == r.parked[v]))
  }

  /** A new track takes the place of the last one of its kind, or is withheld if it is a locked user's mic. */
  lemma PublishEffect(r: Room, u: UserId, key: Key, n: nat)
    requires u in r.members
    ensures var t := Track(u, key, n); var s := Publish(r, u, key, t);
            if key == Mic && u in r.locked
            then Replaces(r, s, Slot(u, key), None) && Withholds(r, s, u, Some(t))
            else Replaces(r, s, Slot(u, key), Some(t)) && s.parked == r.parked
  {
    hide Subscriber.Add, Subscriber.Remove;
  }

  /** A track is taken down exactly when it is there and the expected one. */
  lemma UnpublishEffect(r: Room, slot: Slot, expected: Option<Track>)
    ensures var s := Unpublish(r, slot, expected);
            && s.parked == r.parked
            && if slot in r.tracks && (expected == None || expected == Some(r.tracks[slot]))
               then Replaces(r, s, slot, None) else s == r
  {
    hide Subscriber.Remove;
  }

  /** A muted member's published mic is withheld. */
  lemma MuteEffect(r: Room, u: UserId, lock: bool)
    requires u in r.members
    ensures var s := Mute(r, u, lock);
            && u in s.members && s.members[u].info == r.members[u].info.(muted := true, locked := lock)
            && (forall v :: v in s.locked <==> v in r.locked || (lock && v == u))
            && Replaces(r, s, Slot(u, Mic), None)
            && (Slot(u, Mic) in r.tracks ==> Withholds(r, s, u, Some(r.tracks[Slot(u, Mic)])))
            && (Slot(u, Mic) !in r.tracks ==> s.parked == r.parked)
  {
    hide Subscriber.Remove;
  }

  /** A withheld mic is published again. */
  lemma RestoreEffect(r: Room, u: UserId)
    requires u in r.parked && r.parked[u].owner == u && r.parked[u].key == Mic
    ensures var s := RestoreMic(r, u); Replaces(r, s, Slot(u, Mic), Some(r.parked[u])) && Withholds(r, s, u, None)
  {
    hide Subscriber.Add;
  }

  /** After an unlock the member may unmute; until then nothing is heard of it. */
  lemma UnlockEffect(r: Room, u: UserId)
    requires u in r.members
    ensures var s := Unlock(r, u);
            && u !in s.locked && u in s.members && s.members[u].info == r.members[u].info.(locked := false)
            && s.tracks == r.tracks && s.parked == r.parked
  {
  }

  /**
   What a report of toggles leads to: the camera as reported; a screen only for who may present or already
   shares; muted as reported unless a lock refuses the unmute; and no other flag.
   */
  lemma ReportEffect(r: Room, u: UserId, st: TrackState)
    requires u in r.members
    ensures var s := OnTrackState(r, u, st); var before := r.members[u].info;
            && u in s.members
            && var now := s.members[u].info;
               && now.videoOn == st.videoOn
               && (now.screen <==> st.screen && (before.screen || before.canPresent))
               && (now.muted <==> st.muted || (before.muted && u in r.locked))
               && (now.host == before.host && now.locked == before.locked && now.canPresent == before.canPresent)
  {
    hide Subscriber.Add, Subscriber.Remove;
  }

  /** Does a report bring a withheld mic back, and does it stop a screen? */
  predicate BringsBack(r: Room, u: UserId, st: TrackState) {
    u in r.members && r.members[u].info.muted && !st.muted && u !in r.locked && u in r.parked
  }

  predicate StopsScreen(r: Room, u: UserId, st: TrackState) {
    u in r.members && r.members[u].info.screen && !st.screen
  }

  /** A granted unmute puts a withheld mic back, the screen track goes when sharing stops, and no other track moves. */
  lemma ReportTracks(r: Room, u: UserId, st: TrackState, n: nat)
    requires Tidy(r, n) && u in r.members
    ensures var s := OnTrackState(r, u, st); var back, stops := BringsBack(r, u, st), StopsScreen(r, u, st);
            && (forall x: Track :: IsLive(s, x) <==>
                  (back && x == r.parked[u])
                  || (IsLive(r, x) && !(back && Slot(x.owner, x.key) == Slot(u, Mic)) && !(stops && Slot(x.owner, x.key) == Slot(u, Screen))))
            && s.parked == (if back then r.parked - {u} else r.parked)
            && s.locked == r.locked && s.presenters == r.presenters
  {
    var r1, r2 := Announce(r, u, st), ScreenReport(r, u, st);
    UnpublishEffect(r1, Slot(u, Screen), None);
    assert SameTables(r, r1);
    if BringsBack(r, u, st) { RestoreEffect(r2, u); }
    ReportTables(r, u, st);
    hide OnTrackState, Announce, ScreenReport, Tidy, Unpublish, RestoreMic;
  }

  /** The same tracks, withheld mics, locks and grants. */
  ghost predicate SameTables(r: Room, s: Room) {
    s.tracks == r.tracks && s.parked == r.parked && s.locked == r.locked && s.presenters == r.presenters
  }

  lemma ReportTables(r: Room, u: UserId, st: TrackState)
    requires u in r.members
    ensures var r1, r2 := Announce(r, u, st), ScreenReport(r, u, st);
            && r2 == (if StopsScreen(r, u, st) then Unpublish(r1, Slot(u, Screen), None) else r1)
            && SameTables(if BringsBack(r, u, st) then RestoreMic(r2, u) else r2, OnTrackState(r, u, st))
            && r2.locked == r.locked && r2.presenters == r.presenters
            && (u in r2.parked ==> RestoreMic(r2, u).locked == r.locked && RestoreMic(r2, u).presenters == r.presenters)
            && (u in r2.parked ==> RestoreMic(r2, u).parked == r2.parked - {u})
  {
    hide DropFromOthers, SendToOthers;
  }


  /** An arriving track shows in its owner's info, and a screen of somebody who may not present is refused. */
  lemma ArrivalEffect(r: Room, u: UserId, remote: Key, recent: bool, n: nat)
    requires u in r.members
    ensures var s := OnTrack(r, u, remote, recent, n); var before := r.members[u];
            var announced := remote == Cam && before.screenPending && recent;
            var key := if announced then Screen else remote;
            && u in s.members
            && (key == Screen && !before.info.canPresent ==> s.tracks == r.tracks && s.members[u].info == before.info)
            && (!(key == Screen && !before.info.canPresent) && !(key == Mic && u in r.locked) ==> IsLive(s, Track(u, key, n)))
            && (key == Cam ==> s.members[u].info.videoOn)
            && (key == Screen && before.info.canPresent ==> s.members[u].info.screen)
            && (announced ==> !s.members[u].screenPending)
            && (key == Mic ==> s.members[u].info == before.info)
            && s.locked == r.locked && (!(key == Mic && u in r.locked) ==> s.parked == r.parked)
  {
    hide Subscriber.Add, Subscriber.Remove;
  }

  /** A grant or its withdrawal. */
  lemma PresenterEffect(r: Room, u: UserId, allowed: bool)
    requires u in r.members
    ensures var s := SetPresenter(r, u, allowed);
            && (forall v :: v in s.presenters <==> if v == u then allowed else v in r.presenters)
            && u in s.members && (s.members[u].info.canPresent <==> r.members[u].info.host || !r.presenterOnly || allowed)
            && forall v :: v in r.members && v != u ==> v in s.members && s.members[v] == r.members[v]
  {
  }

  /** Whoever leaves takes along everything of theirs, and nothing else. */
  lemma LeaveEffect(r: Room, u: UserId, orders: map<UserId, seq<Track>>, n: nat)
    requires Tidy(r, n) && u in r.members
    ensures var s := Leave(r, u, orders);
            && (forall x :: IsLive(s, x) <==> IsLive(r, x) && x.owner != u)
            && Withholds(r, s, u, None)
            && s.locked == r.locked - {u} && s.presenters == r.presenters - {u} && s.presenterOnly == r.presenterOnly
  {
    hide Without, Promote, Subscriber.RemoveAll;
  }

  /** A newcomer is host of an empty room only, unmuted, unlocked, and may present by the rule. */
  lemma EnterEffect(r: Room, u: UserId, video: bool, ts: seq<Track>)
    requires u !in r.members
    ensures var s := Enter(r, u, video, ts);
            && s.tracks == r.tracks && s.parked == r.parked
            && (forall v :: v in r.members ==> v in s.members && s.members[v] == r.members[v])
            && u in s.members
            && var i := s.members[u].info;
               && (i.host <==> r.members == map[]) && !i.muted && !i.locked && !i.screen && i.videoOn == video
               && (i.canPresent <==> i.host || !r.presenterOnly || u in r.presenters)
  {
    hide Subscriber.AddAll;
  }

  /** Nobody but a host, or an administrator in a room, changes anything by a host control. */
  lemma OnlyHostsControl(e: Engine, op: Op)
    requires op.MuteOp? || op.UnlockOp? || op.KickOp? || op.PresenterOp? || op.PresenterOnlyOp?
    requires Step(e, op) != e
    ensures InRoom(e, op.asker) && (InfoOf(e, op.asker).host || op.admin)
    ensures !op.PresenterOnlyOp? ==> InRoom(e, op.user) && e.users[op.user] == e.users[op.asker]
  {
    hide Mute, Unlock, RemoveFrom, SetPresenter, SetPresenterOnly;
  }
}
