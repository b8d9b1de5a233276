/**
 What each room operation leads to, completely: what is published and withheld, who is sent what, and what
 everybody's info says. Subscribers appear only by what they are sent.
 */
module RoomOutcomes {
  import opened Media
  import opened RoomModel
  import opened RoomInvariants
  import RoomEffects
  import RoomMembership
  import Subscriber

  /** Published afterwards is what was published and is not in `gone`, and what is in `come`. */
  ghost predicate Published(r: Room, s: Room, gone: set<Track>, come: set<Track>) {
    forall x :: IsLive(s, x) <==> x in come || (IsLive(r, x) && x !in gone)
  }

  /** The same people are in the room; all but `u` are sent `come` now and `gone` no longer, and `u` what it was. */
  ghost predicate Sent(r: Room, s: Room, u: UserId, gone: set<Track>, come: set<Track>) {
    && s.members.Keys == r.members.Keys
    && forall v :: v in r.members ==>
         s.members[v].sub.senders == if v == u then r.members[v].sub.senders else r.members[v].sub.senders - gone + come
  }

  /** The published track of `u` of one kind, if there is one. */
  function Current(r: Room, u: UserId, key: Key): set<Track> {
    if Slot(u, key) in r.tracks then {r.tracks[Slot(u, key)]} else {}
  }

  /** Order, presenting rules and everybody else's info and announcement are as before. */
  ghost predicate OthersSame(r: Room, s: Room, u: UserId) {
    && s.members.Keys == r.members.Keys
    && s.order == r.order && s.presenterOnly == r.presenterOnly
    && forall v :: v in r.members && v != u ==>
         s.members[v].info == r.members[v].info && s.members[v].screenPending == r.members[v].screenPending
  }

  /** Withheld mics, locks and grants are as before. */
  ghost predicate SameHolds(r: Room, s: Room) {
    s.parked == r.parked && s.locked == r.locked && s.presenters == r.presenters
  }

  // ---- streams ----

  /** The stream behind `t` ended: nobody is sent it any more and its owner shows as muted, off or not sharing. */
  ghost predicate EndsTrack(r: Room, s: Room, t: Track) {
    && Published(r, s, {t}, {}) && Sent(r, s, t.owner, {t}, {})
    && OthersSame(r, s, t.owner) && SameHolds(r, s)
    && t.owner in r.members
    && var before, now := r.members[t.owner], s.members[t.owner];
       && (now.info.muted <==> before.info.muted || t.key == Mic)
       && (now.info.videoOn <==> before.info.videoOn && t.key != Cam)
       && (now.info.screen <==> before.info.screen && t.key != Screen)
       && SameRank(before, now) && now.screenPending == before.screenPending
  }

  predicate SameRank(m: Member, m': Member) {
    m'.info.host == m.info.host && m'.info.locked == m.info.locked && m'.info.canPresent == m.info.canPresent
  }

  lemma TrackEndedOutcome(r: Room, t: Track, n: nat)
    requires Ok(r, n)
    ensures var s := TrackEnded(r, t); if IsLive(r, t) then EndsTrack(r, s, t) else s == r
  {
    hide Ok, Unpublish, SetInfo, EndsTrack;
    if IsLive(r, t) {
      OpenSubs(r, n);
      OwnerInside(r, t, n);
      WithdrawOutcome(r, t);
      var r1 := Unpublish(r, Slot(t.owner, t.key), Some(t));
      OwnInfo(r, r1, t.owner, {t}, {});
      NewInfo(r, r1, t.owner, Ended(r.members[t.owner].info, t.key), {t}, {});
      InfoEnds(r, r1, t);
    }
  }

  lemma InfoEnds(r: Room, r1: Room, t: Track)
    requires t.owner in r.members && Published(r, r1, {t}, {}) && SameHolds(r, r1)
    requires var s := SetInfo(r1, t.owner, Ended(r.members[t.owner].info, t.key));
             && s.tracks == r1.tracks && SameHolds(r1, s) && Sent(r, s, t.owner, {t}, {}) && OthersSame(r, s, t.owner)
             && s.members[t.owner].info == Ended(r.members[t.owner].info, t.key)
             && s.members[t.owner].screenPending == r.members[t.owner].screenPending
    ensures EndsTrack(r, SetInfo(r1, t.owner, Ended(r.members[t.owner].info, t.key)), t)
  {
    hide SetInfo;
  }

  lemma WithdrawOutcome(r: Room, t: Track)
    requires SubsOpen(r.members) && IsLive(r, t)
    ensures var s := Unpublish(r, Slot(t.owner, t.key), Some(t));
            && Moves(r.members, s.members, t.owner, {t}, {}) && Published(r, s, {t}, {})
            && SameHolds(r, s) && s.order == r.order && s.presenterOnly == r.presenterOnly
  {
    DropMoves(r.members, t.owner, t);
    hide DropFromOthers, SubsOpen, Moves;
  }

  /** What an arriving track is taken for: a camera under an announcement that still counts is a screen. */
  predicate Announced(r: Room, u: UserId, remote: Key, recent: bool) {
    u in r.members && remote == Cam && r.members[u].screenPending && recent
  }

  /** Is the track refused, because it is a screen and its owner may not present? */
  predicate Declined(r: Room, u: UserId, key: Key) {
    u in r.members && key == Screen && !r.members[u].info.canPresent
  }

  /** Is the track withheld, because it is the mic of somebody locked? */
  predicate Withheld(r: Room, u: UserId, key: Key) {
    key == Mic && u in r.locked
  }

  /** Track `t` arrived as announced or not, and was refused, withheld or published in place of the last one. */
  ghost predicate Arrives(r: Room, s: Room, t: Track, announced: bool) {
    var u, key := t.owner, t.key;
    && OthersSame(r, s, u) && s.locked == r.locked && s.presenters == r.presenters && u in r.members
    && var before, now := r.members[u], s.members[u];
       && (now.screenPending <==> before.screenPending && !announced)
       && (if Declined(r, u, key) then
             Published(r, s, {}, {}) && Sent(r, s, u, {}, {}) && now.info == before.info && s.parked == r.parked
           else if Withheld(r, u, key) then
             Published(r, s, {}, {}) && Sent(r, s, u, {}, {}) && now.info == before.info && s.parked == r.parked[u := t]
           else
             && Published(r, s, Current(r, u, key), {t}) && Sent(r, s, u, Current(r, u, key), {t}) && s.parked == r.parked
             && now.info.muted == before.info.muted && SameRank(before, now)
             && (now.info.videoOn <==> before.info.videoOn || key == Cam)
             && (now.info.screen <==> before.info.screen || key == Screen))
  }

  lemma ArrivalOutcome(r: Room, u: UserId, remote: Key, recent: bool, n: nat)
    requires Ok(r, n) && u in r.members
    ensures var announced := Announced(r, u, remote, recent);
            Arrives(r, OnTrack(r, u, remote, recent, n), Track(u, if announced then Screen else remote, n), announced)
  {
    hide Ok, SubsOpen, Publish, SetInfo, Arrives, Filed, Published;
    var announced := Announced(r, u, remote, recent);
    var key := if announced then Screen else remote;
    var m := r.members[u];
    var r1 := if announced then r.(members := r.members[u := m.(screenPending := false)]) else r;
    OpenSubs(r, n);
    NoLockedMic(r, u, n);
    KeysMatch(r, n);
    SameTracks(r, r1);
    assert key == Label(m, remote, recent);
    if Declined(r, u, key) {
      NothingArrives(r, r1, Track(u, key, n), announced);
    } else {
      PublishOutcome(r1, u, key, n);
      Arrived(r, r1, Publish(r1, u, key, Track(u, key, n)), Track(u, key, n), announced);
    }
  }

  lemma SameTracks(r: Room, r1: Room)
    requires SubsOpen(r.members) && Filed(r) && r1.tracks == r.tracks
    requires r1.members == r.members
             || exists u :: u in r.members && r1.members == r.members[u := r.members[u].(screenPending := false)]
    ensures SubsOpen(r1.members) && Filed(r1)
  {
  }

  lemma NothingArrives(r: Room, r1: Room, t: Track, announced: bool)
    requires t.owner in r.members && Declined(r, t.owner, t.key)
    requires announced ==> r.members[t.owner].screenPending
    requires r1 == if announced then r.(members := r.members[t.owner := r.members[t.owner].(screenPending := false)]) else r
    ensures Arrives(r, r1, t, announced)
  {
  }

  lemma Arrived(r: Room, r1: Room, r2: Room, t: Track, announced: bool)
    requires var u := t.owner;
             && u in r.members && !Declined(r, u, t.key) && (announced ==> r.members[u].screenPending)
             && r1 == (if announced then r.(members := r.members[u := r.members[u].(screenPending := false)]) else r)
             && Publishes(r1, r2, u, t.key, t)
    ensures t.owner in r2.members && Arrives(r, SetInfo(r2, t.owner, Started(r2.members[t.owner].info, t.key)), t, announced)
  {
  }

  /** The track `t` takes the place of the last one of its kind, or is withheld. */
  ghost predicate Publishes(r: Room, s: Room, u: UserId, key: Key, t: Track) {
    && s.order == r.order && s.presenterOnly == r.presenterOnly && s.presenters == r.presenters && s.locked == r.locked
    && if Withheld(r, u, key) then
         Published(r, s, {}, {}) && Moves(r.members, s.members, u, {}, {}) && s.parked == r.parked[u := t]
       else
         && Published(r, s, Current(r, u, key), {t}) && Moves(r.members, s.members, u, Current(r, u, key), {t})
         && s.parked == r.parked
  }

  /** Publishing puts a track in the place of the last one of its kind, or withholds it; an outsider publishes nothing. */
  lemma PublishOutcome(r: Room, u: UserId, key: Key, n: nat)
    requires SubsOpen(r.members) && Filed(r) && (u in r.locked ==> Slot(u, Mic) !in r.tracks)
    ensures var t := Track(u, key, n); var s := Publish(r, u, key, t); if u in r.members then Publishes(r, s, u, key, t) else s == r
  {
    var t, slot := Track(u, key, n), Slot(u, key);
    hide DropFromOthers, SendToOthers, SubsOpen, Moves;
    if u !in r.members {
    } else if Withheld(r, u, key) {
      Stay(r.members, u);
    } else if slot in r.tracks {
      var ms := DropFromOthers(r.members, u, r.tracks[slot]);
      DropMoves(r.members, u, r.tracks[slot]);
      SendMoves(ms, u, t);
      MovesChain(r.members, ms, SendToOthers(ms, u, t), u, {r.tracks[slot]}, {t});
    } else {
      SendMoves(r.members, u, t);
    }
  }

  // ---- reports ----

  /** Does a report announce a screen? Only one of somebody who may present and does not share yet. */
  predicate Announces(m: Member, st: TrackState) {
    st.screen && !m.info.screen && m.info.canPresent
  }

  /** The screen that a report takes down and the withheld mic that it brings back. */
  function Stopped(r: Room, u: UserId, st: TrackState): set<Track> {
    if RoomEffects.StopsScreen(r, u, st) then Current(r, u, Screen) else {}
  }

  function Restored(r: Room, u: UserId, st: TrackState): set<Track> {
    if RoomEffects.BringsBack(r, u, st) then {r.parked[u]} else {}
  }

  /** The mic that a restored one replaces; the others go on being sent it. */
  function Replaced(r: Room, u: UserId, st: TrackState): set<Track> {
    if RoomEffects.BringsBack(r, u, st) then Current(r, u, Mic) else {}
  }

  /** A report of toggles: what it says of mic, camera and screen, what it announces, stops and brings back. */
  ghost predicate Reports(r: Room, s: Room, u: UserId, st: TrackState) {
    && OthersSame(r, s, u) && s.locked == r.locked && s.presenters == r.presenters && u in r.members
    && s.parked == (if RoomEffects.BringsBack(r, u, st) then r.parked - {u} else r.parked)
    && Published(r, s, Stopped(r, u, st) + Replaced(r, u, st), Restored(r, u, st))
    && Sent(r, s, u, Stopped(r, u, st), Restored(r, u, st))
    && var before, now := r.members[u], s.members[u];
       && (now.screenPending <==> before.screenPending || Announces(before, st))
       && now.info.videoOn == st.videoOn
       && (now.info.screen <==> st.screen && (before.info.screen || before.info.canPresent))
       && (now.info.muted <==> st.muted || (before.info.muted && u in r.locked))
       && SameRank(before, now)
  }

  lemma ReportOutcome(r: Room, u: UserId, st: TrackState, n: nat)
    requires Ok(r, n) && u in r.members
    ensures Reports(r, OnTrackState(r, u, st), u, st)
  {
    hide Ok, Tidy, SubsOpen, OnTrackState, Filed, Reports;
    OpenSubs(r, n);
    KeysMatch(r, n);
    TidyRoom(r, n);
    ReportMoves(r, u, st);
    RoomEffects.ReportEffect(r, u, st);
    RoomEffects.ReportTracks(r, u, st, n);
    ReportFits(r, OnTrackState(r, u, st), u, st);
  }

  lemma TidyRoom(r: Room, n: nat)
    requires Ok(r, n)
    ensures Tidy(r, n)
  {
    hide Tidy, Forwards, Locks, Presenting, OneHost, Ordered, SubsOk;
  }

  lemma ReportFits(r: Room, s: Room, u: UserId, st: TrackState)
    requires u in r.members && u in s.members && Filed(r)
    requires OthersSame(r, s, u) && Sent(r, s, u, Stopped(r, u, st), Restored(r, u, st))
    requires s.members[u].screenPending <==> r.members[u].screenPending || Announces(r.members[u], st)
    requires SameRank(r.members[u], s.members[u]) && s.members[u].info.videoOn == st.videoOn
    requires s.members[u].info.screen <==> st.screen && (r.members[u].info.screen || r.members[u].info.canPresent)
    requires s.members[u].info.muted <==> st.muted || (r.members[u].info.muted && u in r.locked)
    requires var back, stops := RoomEffects.BringsBack(r, u, st), RoomEffects.StopsScreen(r, u, st);
             && (forall x: Track :: IsLive(s, x) <==>
                   (back && x == r.parked[u])
                   || (IsLive(r, x) && !(back && Slot(x.owner, x.key) == Slot(u, Mic)) && !(stops && Slot(x.owner, x.key) == Slot(u, Screen))))
             && s.parked == (if back then r.parked - {u} else r.parked)
             && s.locked == r.locked && s.presenters == r.presenters
    ensures Reports(r, s, u, st)
  {
    hide OthersSame, Sent, SameRank;
    forall x ensures IsLive(s, x) <==> x in Restored(r, u, st) || (IsLive(r, x) && x !in Stopped(r, u, st) + Replaced(r, u, st)) {
      assert IsLive(r, x) && Slot(x.owner, x.key) == Slot(u, Screen) ==> Current(r, u, Screen) == {x};
      assert IsLive(r, x) && Slot(x.owner, x.key) == Slot(u, Mic) ==> Current(r, u, Mic) == {x};
      assert x in Current(r, u, Screen) ==> Slot(x.owner, x.key) == Slot(u, Screen);
      assert x in Current(r, u, Mic) ==> Slot(x.owner, x.key) == Slot(u, Mic);
    }
  }

  lemma ReportMoves(r: Room, u: UserId, st: TrackState)
    requires SubsOpen(r.members) && u in r.members
    ensures var s := OnTrackState(r, u, st);
            && OthersSame(r, s, u) && Sent(r, s, u, Stopped(r, u, st), Restored(r, u, st))
            && (s.members[u].screenPending <==> r.members[u].screenPending || Announces(r.members[u], st))
  {
    hide SubsOpen, Announce, ScreenReport, RestoreMic, SetInfo, OthersSame, Sent, Moves, Stopped, Restored;
    var gone, come := Stopped(r, u, st), Restored(r, u, st);
    var r1, r2 := Announce(r, u, st), ScreenReport(r, u, st);
    AnnounceOutcome(r, u, st);
    ScreenStops(r, u, st);
    var r3 := if Unmutes(r, u, st) then RestoreMic(r2, u) else r2;
    MicReturns(r, r2, u, st);
    MovesChain(r1.members, r2.members, r3.members, u, gone, come);
    OwnInfo(r1, r3, u, gone, come);
    var i := r3.members[u].info.(muted := st.muted || Refused(r, u, st), videoOn := st.videoOn,
                                 screen := ScreenAfter(r.members[u].info, st));
    NewInfo(r1, r3, u, i, gone, come);
    Afterwards(r, SetInfo(r3, u, i), u, st, gone, come);
  }

  /** An announcement is recorded, and nothing else happens. */
  lemma AnnounceOutcome(r: Room, u: UserId, st: TrackState)
    requires u in r.members && SubsOpen(r.members)
    ensures var s, b := Announce(r, u, st), r.members[u].screenPending || Announces(r.members[u], st);
            s == r.(members := r.members[u := r.members[u].(screenPending := b)]) && SubsOpen(s.members)
  {
    assert r.members[u].(screenPending := r.members[u].screenPending) == r.members[u];
    assert r.members[u := r.members[u]] == r.members;
  }

  lemma Afterwards(r: Room, s: Room, u: UserId, st: TrackState, gone: set<Track>, come: set<Track>)
    requires u in r.members
    requires var r1 := Announce(r, u, st);
             && r1 == r.(members := r.members[u := r.members[u].(screenPending := r.members[u].screenPending || Announces(r.members[u], st))])
             && OthersSame(r1, s, u) && Sent(r1, s, u, gone, come)
    ensures OthersSame(r, s, u) && Sent(r, s, u, gone, come)
  {
    hide Announce;
  }

  lemma ScreenStops(r: Room, u: UserId, st: TrackState)
    requires u in r.members && SubsOpen(r.members) && SubsOpen(Announce(r, u, st).members)
    requires Announce(r, u, st) == r.(members := Announce(r, u, st).members)
    ensures var r1, r2 := Announce(r, u, st), ScreenReport(r, u, st);
            && Moves(r1.members, r2.members, u, Stopped(r, u, st), {}) && SubsOpen(r2.members)
            && r2.order == r1.order && r2.presenterOnly == r1.presenterOnly && r2.parked == r1.parked
  {
    var r1 := Announce(r, u, st);
    hide Announce, SubsOpen, Moves, DropFromOthers;
    Stay(r1.members, u);
    if Slot(u, Screen) in r.tracks { DropMoves(r1.members, u, r.tracks[Slot(u, Screen)]); }
  }

  lemma MicReturns(r: Room, r2: Room, u: UserId, st: TrackState)
    requires u in r.members && SubsOpen(r2.members) && r2.parked == r.parked
    ensures var r3 := if Unmutes(r, u, st) then RestoreMic(r2, u) else r2;
            && Moves(r2.members, r3.members, u, {}, Restored(r, u, st))
            && r3.order == r2.order && r3.presenterOnly == r2.presenterOnly
  {
    hide SubsOpen, Moves, SendToOthers;
    Stay(r2.members, u);
    if u in r.parked { SendMoves(r2.members, u, r.parked[u]); }
  }

  // ---- host controls ----

  /** Only the info of `u` changed among members, to `i`. */
  ghost predicate OnlyInfo(r: Room, s: Room, u: UserId, i: Info) {
    && OthersSame(r, s, u) && u in r.members
    && s.members[u].info == i && s.members[u].screenPending == r.members[u].screenPending
  }

  /** A mute: the published mic is withheld and taken from everybody, the user shows as muted, and locked if so asked. */
  ghost predicate Mutes(r: Room, s: Room, u: UserId, lock: bool) {
    && u in r.members && OnlyInfo(r, s, u, r.members[u].info.(muted := true, locked := lock))
    && Published(r, s, Current(r, u, Mic), {}) && Sent(r, s, u, Current(r, u, Mic), {})
    && s.parked == (if Slot(u, Mic) in r.tracks then r.parked[u := r.tracks[Slot(u, Mic)]] else r.parked)
    && s.locked == (if lock then r.locked + {u} else r.locked) && s.presenters == r.presenters
  }

  lemma MuteOutcome(r: Room, u: UserId, lock: bool, n: nat)
    requires Ok(r, n) && u in r.members
    ensures Mutes(r, Mute(r, u, lock), u, lock)
  {
    hide Ok, SubsOpen, ForceMuteMic, Mutes, Filed;
    OpenSubs(r, n);
    KeysMatch(r, n);
    var i := r.members[u].info.(muted := true, locked := lock);
    var r1 := SetInfo(r, u, i);
    InfoOpen(r, u, i);
    ForceMuteOutcome(r1, u);
    MuteFits(r, r1, ForceMuteMic(r1, u), Mute(r, u, lock), u, lock);
  }

  lemma InfoOpen(r: Room, u: UserId, i: Info)
    requires SubsOpen(r.members) && Filed(r)
    ensures SubsOpen(SetInfo(r, u, i).members) && Filed(SetInfo(r, u, i))
  {
  }

  lemma ForceMuteOutcome(r: Room, u: UserId)
    requires SubsOpen(r.members) && Filed(r)
    ensures var s := ForceMuteMic(r, u);
            && Moves(r.members, s.members, u, Current(r, u, Mic), {}) && Published(r, s, Current(r, u, Mic), {})
            && s.parked == (if Slot(u, Mic) in r.tracks then r.parked[u := r.tracks[Slot(u, Mic)]] else r.parked)
            && s.locked == r.locked && s.presenters == r.presenters && s.presenterOnly == r.presenterOnly && s.order == r.order
  {
    hide DropFromOthers, SubsOpen, Moves;
    Stay(r.members, u);
    if Slot(u, Mic) in r.tracks { DropMoves(r.members, u, r.tracks[Slot(u, Mic)]); }
  }

  lemma MuteFits(r: Room, r1: Room, f: Room, s: Room, u: UserId, lock: bool)
    requires u in r.members && r1 == SetInfo(r, u, r.members[u].info.(muted := true, locked := lock))
    requires Moves(r1.members, f.members, u, Current(r1, u, Mic), {}) && Published(r1, f, Current(r1, u, Mic), {})
    requires f.parked == (if Slot(u, Mic) in r.tracks then r.parked[u := r.tracks[Slot(u, Mic)]] else r.parked)
    requires f.locked == r.locked && f.presenters == r.presenters && f.presenterOnly == r.presenterOnly && f.order == r.order
    requires s == f.(locked := if lock then f.locked + {u} else f.locked)
    ensures Mutes(r, s, u, lock)
  {
  }

  /** Nobody is sent anything else. */
  ghost predicate SameTraffic(r: Room, s: Room, u: UserId) {
    Published(r, s, {}, {}) && Sent(r, s, u, {}, {}) && s.parked == r.parked
  }

  ghost predicate Unlocks(r: Room, s: Room, u: UserId) {
    && u in r.members && OnlyInfo(r, s, u, r.members[u].info.(locked := false)) && SameTraffic(r, s, u)
    && s.locked == r.locked - {u} && s.presenters == r.presenters
  }

  lemma UnlockOutcome(r: Room, u: UserId)
    requires u in r.members
    ensures Unlocks(r, Unlock(r, u), u)
  {
  }

  /** A grant or its withdrawal, and what it makes of the flag. */
  ghost predicate Grants(r: Room, s: Room, u: UserId, allowed: bool) {
    && u in r.members && SameTraffic(r, s, u) && s.locked == r.locked
    && OnlyInfo(r, s, u, r.members[u].info.(canPresent := r.members[u].info.host || !r.presenterOnly || allowed))
    && forall v :: v in s.presenters <==> if v == u then allowed else v in r.presenters
  }

  lemma PresenterOutcome(r: Room, u: UserId, allowed: bool)
    requires u in r.members
    ensures Grants(r, SetPresenter(r, u, allowed), u, allowed)
  {
  }

  /** Flags changed, and nothing but flags. */
  ghost predicate OnlyFlags(r: Room, s: Room) {
    s == r.(members := s.members, presenterOnly := s.presenterOnly) && s.members.Keys == r.members.Keys
    && forall v :: v in r.members ==>
         s.members[v] == r.members[v].(info := r.members[v].info.(host := s.members[v].info.host, canPresent := s.members[v].info.canPresent))
  }

  /** Who has claimed the host role is the only host; nobody's right to present then differs from the rule by the claim. */
  ghost predicate Claims(r: Room, s: Room, u: UserId) {
    && OnlyFlags(r, s) && s.presenterOnly == r.presenterOnly && u in r.members
    && (forall v :: v in r.members ==> (s.members[v].info.host <==> v == u))
    && (forall v :: v in r.members && (r.members[v].info.host != (v == u)) ==>
          (s.members[v].info.canPresent <==> v == u || !r.presenterOnly || v in r.presenters))
    && (forall v :: v in r.members && (r.members[v].info.host == (v == u)) ==> s.members[v] == r.members[v])
  }

  lemma ClaimOutcome(r: Room, u: UserId, n: nat)
    requires Ok(r, n)
    ensures var s := ClaimHost(r, u); if u in r.members then Claims(r, s, u) else s == r
  {
    ClaimHostAt(r, u);
    hide Tidy, Forwards, SubsOk, Locks, Presenting, Ordered, ClaimHost;
    if IsHost(r, u) {
      forall v | v in r.members && r.members[v].info.host ensures v == u { assert IsHost(r, v); }
    }
  }

  /** Presenter-only mode: everybody's flag follows the rule from now on. */
  ghost predicate SetsMode(r: Room, s: Room, enabled: bool) {
    && OnlyFlags(r, s) && s.presenterOnly == enabled
    && forall v :: v in r.members ==>
         && s.members[v].info.host == r.members[v].info.host
         && (s.members[v].info.canPresent <==> r.members[v].info.host || !enabled || v in r.presenters)
  }

  lemma ModeOutcome(r: Room, enabled: bool)
    ensures SetsMode(r, SetPresenterOnly(r, enabled), enabled)
  {
    SetPresenterOnlyAt(r, enabled);
    hide SetPresenterOnly;
  }

  // ---- coming and going ----

  /** The list without its one entry `u`. */
  ghost predicate TakesOut(before: seq<UserId>, after: seq<UserId>, u: UserId) {
    exists k :: 0 <= k < |before| && before[k] == u && after == before[..k] + before[k + 1..]
  }

  /** `u` is gone with everything of theirs; if it was the host, the next in order is, and nobody else's info changed. */
  ghost predicate Leaves(r: Room, s: Room, u: UserId) {
    && u in r.members && s.members.Keys == r.members.Keys - {u} && TakesOut(r.order, s.order, u)
    && s.presenterOnly == r.presenterOnly && s.locked == r.locked - {u} && s.presenters == r.presenters - {u}
    && s.parked == r.parked - {u}
    && Published(r, s, PublishedBy(r, u), {})
    && forall v :: v in s.members ==>
         && s.members[v].sub.senders == r.members[v].sub.senders - PublishedBy(r, u)
         && s.members[v].screenPending == r.members[v].screenPending
         && s.members[v].info == r.members[v].info.(host := s.members[v].info.host)
         && (s.members[v].info.host <==> if r.members[u].info.host then s.order != [] && v == s.order[0] else r.members[v].info.host)
  }

  lemma {:induction false} WithoutNobody(s: seq<UserId>, u: UserId)
    requires u !in s
    ensures Without(s, u) == s
  {
    if s != [] {
      assert s[|s| - 1] in s && u !in s[..|s| - 1];
      WithoutNobody(s[..|s| - 1], u);
    }
  }

  lemma {:induction false} WithoutOne(s: seq<UserId>, k: nat)
    requires NoDuplicates(s) && k < |s|
    ensures Without(s, s[k]) == s[..k] + s[k + 1..]
  {
    var front := s[..|s| - 1];
    if k == |s| - 1 {
      assert s[k] !in front;
      WithoutNobody(front, s[k]);
    } else {
      assert NoDuplicates(front) && front[k] == s[k] && s[|s| - 1] != s[k];
      WithoutOne(front, k);
      assert s[..k] + s[k + 1..] == front[..k] + front[k + 1..] + [s[|s| - 1]];
    }
  }

  lemma OrderTakesOut(r: Room, u: UserId, n: nat)
    requires Ok(r, n) && u in r.members
    ensures TakesOut(r.order, Without(r.order, u), u) && (forall v :: v in Without(r.order, u) <==> v in r.members && v != u)
  {
    hide Tidy, Forwards, SubsOk, Locks, Presenting, OneHost, Without;
    var k :| 0 <= k < |r.order| && r.order[k] == u;
    WithoutOne(r.order, k);
    RoomMembership.WithoutFacts(r.order, u);
  }

  lemma LeaveOutcome(r: Room, u: UserId, orders: map<UserId, seq<Track>>, n: nat)
    requires Ok(r, n) && u in r.members && DropOrders(r, u, orders)
    ensures Leaves(r, Leave(r, u, orders), u)
  {
    hide Ok, TakesOut, DropOrders, Without, Leaves, Promote, RoomMembership.Rest, RoomMembership.Departs, SubsOk, NoHostBut, TheirInfos, Filed;
    OrderTakesOut(r, u, n);
    KeysMatch(r, n);
    RestOutcome(r, u, orders, n);
    OneHostLeft(r, u, n);
    var rest, order := RoomMembership.Rest(r, u, orders), Without(r.order, u);
    assert Leave(r, u, orders) == Departed(r, u, if r.members[u].info.host then Promote(rest, order) else rest) by {
      AllSubsOk(r, n);
      RoomMembership.LeaveShape(r, u, orders);
    }
    LeaveFits(r, u, rest, order);
  }

  /** The members left behind: infos as before, and nothing of `u` is sent to them. */
  ghost predicate TheirInfos(r: Room, rest: map<UserId, Member>, u: UserId) {
    && rest.Keys == r.members.Keys - {u}
    && forall v :: v in rest ==>
         && rest[v].info == r.members[v].info && rest[v].screenPending == r.members[v].screenPending
         && rest[v].sub.senders == r.members[v].sub.senders - PublishedBy(r, u)
  }

  ghost predicate NoHostBut(r: Room, u: UserId) {
    u in r.members && r.members[u].info.host ==> forall v :: v in r.members && r.members[v].info.host ==> v == u
  }

  lemma RestOutcome(r: Room, u: UserId, orders: map<UserId, seq<Track>>, n: nat)
    requires Ok(r, n) && DropOrders(r, u, orders)
    ensures TheirInfos(r, RoomMembership.Rest(r, u, orders), u)
  {
    hide Tidy, Forwards, Locks, Presenting, OneHost, Ordered, DropOrders, Subscriber.Inv, Subscriber.RemoveAll, PublishedBy;
    RoomMembership.RestFacts(r, u, orders);
  }

  lemma OneHostLeft(r: Room, u: UserId, n: nat)
    requires Ok(r, n)
    ensures NoHostBut(r, u)
  {
    hide Tidy, Forwards, Locks, Presenting, SubsOk, Ordered;
    if u in r.members && r.members[u].info.host {
      forall v | v in r.members && r.members[v].info.host ensures v == u { assert IsHost(r, v) && IsHost(r, u); }
    }
  }

  lemma LeaveFits(r: Room, u: UserId, rest: map<UserId, Member>, order: seq<UserId>)
    requires u in r.members && TheirInfos(r, rest, u) && NoHostBut(r, u) && Filed(r)
    requires order == Without(r.order, u) && TakesOut(r.order, order, u) && forall v :: v in order <==> v in r.members && v != u
    ensures Leaves(r, Departed(r, u, if r.members[u].info.host then Promote(rest, order) else rest), u)
  {
    hide TakesOut, Without;
    var s := Departed(r, u, if r.members[u].info.host then Promote(rest, order) else rest);
    DepartedTracks(r, u, s.members);
    hide Departed, Published, PublishedBy, Filed;
  }

  lemma DepartedTracks(r: Room, u: UserId, ms: map<UserId, Member>)
    requires Filed(r)
    ensures var s := Departed(r, u, ms);
            && Published(r, s, PublishedBy(r, u), {}) && s.order == Without(r.order, u) && s.members == ms
            && s.presenterOnly == r.presenterOnly && s.locked == r.locked - {u} && s.presenters == r.presenters - {u}
            && s.parked == r.parked - {u}
  {
    hide Without;
  }

  /** `u` is new, last in order and sent whatever the others publish; nothing else changed. */
  ghost predicate Enters(r: Room, s: Room, u: UserId, video: bool) {
    && u !in r.members
    && s == r.(order := r.order + [u], members := s.members) && s.members.Keys == r.members.Keys + {u}
    && (forall v :: v in r.members ==> s.members[v] == r.members[v])
    && var m := s.members[u];
       && (forall t :: t in m.sub.senders <==> IsLive(r, t)) && !m.sub.closed && !m.screenPending
       && (m.info.host <==> r.members == map[]) && m.info.videoOn == video
       && !m.info.muted && !m.info.locked && !m.info.screen
       && (m.info.canPresent <==> m.info.host || !r.presenterOnly || u in r.presenters)
  }

  lemma EnterOutcome(r: Room, u: UserId, video: bool, ts: seq<Track>, n: nat)
    requires Ok(r, n) && u !in r.members && Enumerates(ts, PublishedByOthers(r, u))
    ensures Enters(r, Enter(r, u, video, ts), u, video)
  {
    Subscriber.AddAllKeeps(Subscriber.FRESH, ts);
    AllLive(r, u, n);
    hide Ok, Subscriber.AddAll, Subscriber.Inv, PublishedByOthers, IsLive;
  }

  lemma AllLive(r: Room, u: UserId, n: nat)
    requires Ok(r, n) && u !in r.members
    ensures forall t :: t in PublishedByOthers(r, u) <==> IsLive(r, t)
  {
    hide Forwards, SubsOk, Locks, Presenting, OneHost, Ordered;
  }

  // ---- members ----

  lemma OwnInfo(r: Room, r1: Room, u: UserId, gone: set<Track>, come: set<Track>)
    requires u in r.members && Moves(r.members, r1.members, u, gone, come)
    ensures u in r1.members && r1.members[u].info == r.members[u].info && r1.members[u].screenPending == r.members[u].screenPending
  {
  }

  /** Tracks move and then one info changes. */
  lemma NewInfo(r: Room, r1: Room, u: UserId, i: Info, gone: set<Track>, come: set<Track>)
    requires u in r.members && Moves(r.members, r1.members, u, gone, come) && r1.order == r.order && r1.presenterOnly == r.presenterOnly
    ensures var s := SetInfo(r1, u, i);
            && s.tracks == r1.tracks && SameHolds(r1, s)
            && Sent(r, s, u, gone, come) && OthersSame(r, s, u)
            && s.members[u].info == i && s.members[u].screenPending == r.members[u].screenPending
  {
  }

  /** The same people with the same infos; all but `u` are sent `come` now and `gone` no longer. */
  ghost predicate Moves(ms: map<UserId, Member>, ns: map<UserId, Member>, u: UserId, gone: set<Track>, come: set<Track>) {
    && ns.Keys == ms.Keys
    && forall v :: v in ms ==>
         && ns[v].info == ms[v].info && ns[v].screenPending == ms[v].screenPending
         && ns[v].sub.senders == if v == u then ms[v].sub.senders else ms[v].sub.senders - gone + come
  }

  lemma Stay(ms: map<UserId, Member>, u: UserId)
    ensures Moves(ms, ms, u, {}, {})
  {
  }

  lemma MovesChain(a: map<UserId, Member>, b: map<UserId, Member>, c: map<UserId, Member>, u: UserId, gone: set<Track>, come: set<Track>)
    requires Moves(a, b, u, gone, {}) && Moves(b, c, u, {}, come)
    ensures Moves(a, c, u, gone, come)
  {
  }

  ghost predicate SubsOpen(ms: map<UserId, Member>) {
    forall v :: v in ms ==> !ms[v].sub.closed
  }

  /** Tracks are filed under their owner and kind. */
  ghost predicate Filed(r: Room) {
    forall x :: x in r.tracks ==> r.tracks[x].owner == x.user && r.tracks[x].key == x.key
  }

  lemma OpenSubs(r: Room, n: nat)
    requires Ok(r, n)
    ensures SubsOpen(r.members)
  {
    hide Tidy, Forwards, Locks, Presenting, OneHost, Ordered, Subscriber.Inv;
  }

  lemma AllSubsOk(r: Room, n: nat)
    requires Ok(r, n)
    ensures SubsOk(r)
  {
    hide Tidy, Forwards, Locks, Presenting, OneHost, Ordered, SubsOk;
  }

  lemma KeysMatch(r: Room, n: nat)
    requires Ok(r, n)
    ensures Filed(r)
  {
    hide Forwards, Locks, Presenting, OneHost, Ordered, SubsOk;
  }

  lemma OwnerInside(r: Room, t: Track, n: nat)
    requires Ok(r, n) && IsLive(r, t)
    ensures t.owner in r.members
  {
    hide Forwards, Locks, Presenting, OneHost, Ordered, SubsOk;
  }

  lemma NoLockedMic(r: Room, u: UserId, n: nat)
    requires Ok(r, n) && u in r.members
    ensures u in r.locked ==> Slot(u, Mic) !in r.tracks
  {
    hide Forwards, Tidy, Presenting, OneHost, Ordered, SubsOk;
  }

  lemma RemoveSends(s: Subscriber.Sub, t: Track)
    requires !s.closed
    ensures var d := Subscriber.Remove(s, t); d.senders == s.senders - {t} && !d.closed
  {
  }

  lemma AddSends(s: Subscriber.Sub, t: Track)
    requires !s.closed
    ensures var d := Subscriber.Add(s, t); d.senders == s.senders + {t} && !d.closed
  {
  }

  lemma DropMoves(ms: map<UserId, Member>, u: UserId, t: Track)
    requires SubsOpen(ms)
    ensures Moves(ms, DropFromOthers(ms, u, t), u, {t}, {}) && SubsOpen(DropFromOthers(ms, u, t))
  {
    forall v | v in ms
      ensures var d := Subscriber.Remove(ms[v].sub, t); d.senders == ms[v].sub.senders - {t} && !d.closed
    {
      RemoveSends(ms[v].sub, t);
    }
    hide Subscriber.Remove;
  }

  lemma SendMoves(ms: map<UserId, Member>, u: UserId, t: Track)
    requires SubsOpen(ms)
    ensures Moves(ms, SendToOthers(ms, u, t), u, {}, {t}) && SubsOpen(SendToOthers(ms, u, t))
  {
    forall v | v in ms
      ensures var d := Subscriber.Add(ms[v].sub, t); d.senders == ms[v].sub.senders + {t} && !d.closed
    {
      AddSends(ms[v].sub, t);
    }
    hide Subscriber.Add;
  }
}
