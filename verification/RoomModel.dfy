/**
 One conference room as a value: join order, members with their subscriber halves, published and
 parked tracks, host locks and presenter rights. Each function is the effect of one room operation.
 Where the server ranges over a map, the order it happens to take is a parameter.
 */
module RoomModel {
  import opened Media
  import Subscriber

  datatype Info = Info(muted: bool, videoOn: bool, screen: bool, host: bool, locked: bool, canPresent: bool)

  datatype Member = Member(info: Info, sub: Subscriber.Sub, screenPending: bool)

  datatype Slot = Slot(user: UserId, key: Key)

  /** `parked` holds the mics withheld by a host mute; no other kind of track is ever withheld. */
  datatype Room = Room(
    order: seq<UserId>,
    members: map<UserId, Member>,
    tracks: map<Slot, Track>,
    parked: map<UserId, Track>,
    locked: set<UserId>,
    presenterOnly: bool,
    presenters: set<UserId>)

  datatype TrackState = TrackState(muted: bool, videoOn: bool, screen: bool)

  const EMPTY := Room([], map[], map[], map[], {}, false, {})

  // ---- operations ----

  predicate MayPresent(r: Room, u: UserId, isHost: bool) {
    isHost || !r.presenterOnly || u in r.presenters
  }

  function SetInfo(r: Room, u: UserId, i: Info): Room {
    if u in r.members then r.(members := r.members[u := r.members[u].(info := i)]) else r
  }

  /** Every member but `u` stops being sent `t`. */
  function DropFromOthers(ms: map<UserId, Member>, u: UserId, t: Track): map<UserId, Member> {
    map v | v in ms :: if v == u then ms[v] else ms[v].(sub := Subscriber.Remove(ms[v].sub, t))
  }

  /** Every member but `u` starts being sent `t`. */
  function SendToOthers(ms: map<UserId, Member>, u: UserId, t: Track): map<UserId, Member> {
    map v | v in ms :: if v == u then ms[v] else ms[v].(sub := Subscriber.Add(ms[v].sub, t))
  }

  function Publish(r: Room, u: UserId, key: Key, t: Track): Room {
    var slot := Slot(u, key);
    if u !in r.members then r
    else if key == Mic && u in r.locked then
      var r1 := r.(parked := r.parked[u := t]);
      if slot in r.tracks
      then r1.(tracks := r.tracks - {slot}, members := DropFromOthers(r.members, u, r.tracks[slot]))
      else r1
    else
      var ms := if slot in r.tracks then DropFromOthers(r.members, u, r.tracks[slot]) else r.members;
      r.(tracks := r.tracks[slot := t], members := SendToOthers(ms, u, t))
  }

  predicate CanUnpublish(r: Room, slot: Slot, expected: Option<Track>) {
    slot in r.tracks && (expected.Some? ==> expected.value == r.tracks[slot])
  }

  function Unpublish(r: Room, slot: Slot, expected: Option<Track>): Room {
    if !CanUnpublish(r, slot, expected) then r
    else r.(tracks := r.tracks - {slot}, members := DropFromOthers(r.members, slot.user, r.tracks[slot]))
  }

  function ForceMuteMic(r: Room, u: UserId): Room {
    var slot := Slot(u, Mic);
    if slot !in r.tracks then r
    else r.(tracks := r.tracks - {slot},
            parked := r.parked[u := r.tracks[slot]],
            members := DropFromOthers(r.members, u, r.tracks[slot]))
  }

  function RestoreMic(r: Room, u: UserId): Room {
    if u !in r.parked then r
    else r.(parked := r.parked - {u},
            tracks := r.tracks[Slot(u, Mic) := r.parked[u]],
            members := SendToOthers(r.members, u, r.parked[u]))
  }

  function SetPresenterOnly(r: Room, enabled: bool): Room {
    var r1 := r.(presenterOnly := enabled);
    r1.(members := map v | v in r.members ::
          var m := r.members[v]; m.(info := m.info.(canPresent := MayPresent(r1, v, m.info.host))))
  }

  function SetPresenter(r: Room, u: UserId, allowed: bool): Room {
    if u !in r.members then r
    else
      var r1 := r.(presenters := if allowed then r.presenters + {u} else r.presenters - {u});
      var i := r.members[u].info;
      SetInfo(r1, u, i.(canPresent := MayPresent(r1, u, i.host)))
  }

  function ClaimHost(r: Room, u: UserId): Room {
    if u !in r.members || r.members[u].info.host then r
    else r.(members := map v | v in r.members ::
              var m := r.members[v];
              if m.info.host == (v == u) then m
              else m.(info := m.info.(host := v == u, canPresent := MayPresent(r, v, v == u))))
  }

  lemma SetPresenterOnlyAt(r: Room, enabled: bool)
    ensures var s := SetPresenterOnly(r, enabled);
            && s == r.(presenterOnly := enabled, members := s.members) && s.members.Keys == r.members.Keys
            && forall v :: v in r.members ==>
                 var i := r.members[v].info;
                 s.members[v] == r.members[v].(info := i.(canPresent := i.host || !enabled || v in r.presenters))
  {
  }

  lemma SetPresenterOnlyTwice(r: Room, enabled: bool)
    ensures SetPresenterOnly(r.(presenterOnly := enabled), enabled) == SetPresenterOnly(r, enabled)
  {
  }

  lemma ClaimHostAt(r: Room, u: UserId)
    ensures var s := ClaimHost(r, u);
            if u !in r.members || r.members[u].info.host then s == r
            else
              && s == r.(members := s.members) && s.members.Keys == r.members.Keys
              && forall v :: v in r.members ==>
                   var m := r.members[v];
                   s.members[v] == if m.info.host == (v == u) then m
                                   else m.(info := m.info.(host := v == u, canPresent := MayPresent(r, v, v == u)))
  {
  }

  function Mute(r: Room, u: UserId, lock: bool): Room {
    if u !in r.members then r
    else
      var r1 := ForceMuteMic(SetInfo(r, u, r.members[u].info.(muted := true, locked := lock)), u);
      if lock then r1.(locked := r1.locked + {u}) else r1
  }

  function Unlock(r: Room, u: UserId): Room {
    if u !in r.members then r
    else SetInfo(r.(locked := r.locked - {u}), u, r.members[u].info.(locked := false))
  }

  /** The label a new track gets: a camera track published under a still valid announcement is a screen. */
  function Label(m: Member, remote: Key, recent: bool): Key {
    if remote == Cam && m.screenPending && recent then Screen else remote
  }

  /** A camera or screen that starts shows in its owner's info; a mic does not. */
  function Started(i: Info, key: Key): Info {
    match key
    case Mic => i
    case Cam => i.(videoOn := true)
    case Screen => i.(screen := true)
  }

  function Ended(i: Info, key: Key): Info {
    match key
    case Mic => i.(muted := true)
    case Cam => i.(videoOn := false)
    case Screen => i.(screen := false)
  }

  /**
   A new track arrives from `u`. `remote` is the kind its browser gave it, `recent` tells whether a
   pending screen announcement is still within its time limit.
   */
  function OnTrack(r: Room, u: UserId, remote: Key, recent: bool, serial: nat): Room {
    if u !in r.members then r
    else
      var m := r.members[u];
      var key := Label(m, remote, recent);
      var r1 := if key != remote then r.(members := r.members[u := m.(screenPending := false)]) else r;
      if key == Screen && !m.info.canPresent then r1
      else
        var r2 := Publish(r1, u, key, Track(u, key, serial));
        SetInfo(r2, u, Started(r2.members[u].info, key))
  }

  /** The stream behind track `t` ended. */
  function TrackEnded(r: Room, t: Track): Room {
    var slot := Slot(t.owner, t.key);
    if !CanUnpublish(r, slot, Some(t)) || t.owner !in r.members then r
    else
      var r1 := Unpublish(r, slot, Some(t));
      SetInfo(r1, t.owner, Ended(r1.members[t.owner].info, t.key))
  }

  function Announce(r: Room, u: UserId, st: TrackState): Room {
    if u in r.members && st.screen && !r.members[u].info.screen && r.members[u].info.canPresent
    then r.(members := r.members[u := r.members[u].(screenPending := true)])
    else r
  }

  /** What a report may say about screen sharing: a member who may not present cannot start one. */
  function ScreenAfter(i: Info, st: TrackState): bool {
    st.screen && (i.screen || i.canPresent)
  }

  /** Does a report ask for an unmute that a host lock refuses? */
  predicate Refused(r: Room, u: UserId, st: TrackState) {
    u in r.members && !st.muted && r.members[u].info.muted && u in r.locked
  }

  /** Does a report take the self-unmute path that restores a parked mic? */
  predicate Unmutes(r: Room, u: UserId, st: TrackState) {
    u in r.members && !st.muted && r.members[u].info.muted && u !in r.locked
  }

  /** The screen half of a report. */
  function ScreenReport(r: Room, u: UserId, st: TrackState): Room {
    var r1 := Announce(r, u, st);
    if u in r.members && r.members[u].info.screen && !st.screen then Unpublish(r1, Slot(u, Screen), None) else r1
  }

  /** A client reports its mute, camera and screen toggles. */
  function OnTrackState(r: Room, u: UserId, st: TrackState): Room {
    if u !in r.members then r
    else
      var r1 := ScreenReport(r, u, st);
      var r2 := if Unmutes(r, u, st) then RestoreMic(r1, u) else r1;
      if u !in r2.members then r2
      else SetInfo(r2, u, r2.members[u].info.(muted := st.muted || Refused(r, u, st),
                                              videoOn := st.videoOn,
                                              screen := ScreenAfter(r.members[u].info, st)))
  }

  function Answer(r: Room, u: UserId): Room {
    if u !in r.members then r
    else r.(members := r.members[u := r.members[u].(sub := Subscriber.OnAnswer(r.members[u].sub))])
  }

  function Resume(r: Room, u: UserId): Room {
    if u !in r.members then r
    else r.(members := r.members[u := r.members[u].(sub := Subscriber.Resend(r.members[u].sub))])
  }

  // ---- joining and leaving ----

  function PublishedBy(r: Room, u: UserId): set<Track> {
    set s | s in r.tracks && s.user == u :: r.tracks[s]
  }

  function PublishedByOthers(r: Room, u: UserId): set<Track> {
    set s | s in r.tracks && s.user != u :: r.tracks[s]
  }

  predicate Enumerates(ts: seq<Track>, s: set<Track>) {
    (set t | t in ts) == s
  }

  lemma EnumeratesOneMore(ts: seq<Track>, t: Track, s: set<Track>)
    requires Enumerates(ts, s)
    ensures Enumerates(ts + [t], s + {t})
  {
    assert forall x :: x in ts + [t] <==> x in ts || x == t;
  }

  function OrderFor(orders: map<UserId, seq<Track>>, v: UserId): seq<Track> {
    if v in orders then orders[v] else []
  }

  /** For each remaining member, an order in which to take back the tracks of the leaving user. */
  predicate DropOrders(r: Room, u: UserId, orders: map<UserId, seq<Track>>) {
    forall v :: v in r.members && v != u ==> Enumerates(OrderFor(orders, v), PublishedBy(r, u))
  }

  function Without(order: seq<UserId>, u: UserId): seq<UserId> {
    if order == [] then []
    else
      var front, last := order[..|order| - 1], order[|order| - 1];
      if last == u then Without(front, u) else Without(front, u) + [last]
  }

  /** The host role moves to the first in `order` when the host has left. */
  function Promote(ms: map<UserId, Member>, order: seq<UserId>): map<UserId, Member> {
    if order != [] && order[0] in ms
    then ms[order[0] := ms[order[0]].(info := ms[order[0]].info.(host := true))]
    else ms
  }

  /** The room once `u` has left, with `rest` its remaining members. */
  function Departed(r: Room, u: UserId, rest: map<UserId, Member>): Room {
    Room(Without(r.order, u), rest, map s | s in r.tracks && s.user != u :: r.tracks[s],
         r.parked - {u}, r.locked - {u}, r.presenterOnly, r.presenters - {u})
  }

  function Leave(r: Room, u: UserId, orders: map<UserId, seq<Track>>): Room {
    if u !in r.members then r
    else
      var order := Without(r.order, u);
      var rest := map v | v in r.members && v != u ::
        r.members[v].(sub := Subscriber.RemoveAll(r.members[v].sub, OrderFor(orders, v)));
      Departed(r, u, if r.members[u].info.host then Promote(rest, order) else rest)
  }

  /** A newcomer: host when the room is empty, subscribed to everything published, in the order `ts`. */
  function Enter(r: Room, u: UserId, video: bool, ts: seq<Track>): Room {
    var host := r.members == map[];
    var info := Info(false, video, false, host, false, MayPresent(r, u, host));
    r.(order := r.order + [u],
       members := r.members[u := Member(info, Subscriber.AddAll(Subscriber.FRESH, ts), false)])
  }
}
