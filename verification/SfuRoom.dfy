/**
 The room and its participants as the server keeps them: objects whose fields the operations update
 in place. Every method is tied to the value model by the `View` of its object.
 */
module SfuRoom {
  import opened Media
  import RoomModel
  import Subscriber

  type Slot = RoomModel.Slot

  type Members = map<UserId, RoomModel.Member>

  function WithFlags(m: RoomModel.Member, host: bool, canPresent: bool): RoomModel.Member {
    m.(info := m.info.(host := host, canPresent := canPresent))
  }

  /** A loop over members is under way: those in `rest` are as they were, the others as they should be. */
  ghost predicate Halfway(was: Members, goal: Members, now: Members, rest: set<UserId>) {
    && now.Keys == was.Keys == goal.Keys
    && forall v :: v in now ==> now[v] == if v in rest then was[v] else goal[v]
  }

  lemma HalfwayStart(was: Members, goal: Members)
    requires was.Keys == goal.Keys
    ensures Halfway(was, goal, was, was.Keys)
  {
  }

  lemma HalfwayAt(was: Members, goal: Members, now: Members, rest: set<UserId>, v: UserId)
    requires Halfway(was, goal, now, rest) && v in rest && v in now
    ensures v in was && v in goal && now[v] == was[v]
    ensures Halfway(was, goal, now[v := goal[v]], rest - {v})
    ensures now[v] == goal[v] ==> Halfway(was, goal, now, rest - {v})
  {
  }

  lemma HalfwayDone(was: Members, goal: Members, now: Members)
    requires Halfway(was, goal, now, {})
    ensures now == goal
  {
    forall v | v in now ensures v in goal && now[v] == goal[v] {}
  }

  /** Members outside `rest` have had the tracks `ts` taken back, each in the order noted for it. */
  ghost predicate TakenBack(was: Members, now: Members, orders: map<UserId, seq<Track>>, rest: set<UserId>, ts: set<Track>) {
    && now.Keys == was.Keys
    && forall v :: v in now ==>
         if v in rest then now[v] == was[v]
         else v in orders && RoomModel.Enumerates(orders[v], ts)
              && now[v] == was[v].(sub := Subscriber.RemoveAll(was[v].sub, orders[v]))
  }

  lemma TakenBackStep(was: Members, now: Members, orders: map<UserId, seq<Track>>, rest: set<UserId>, ts: set<Track>,
                      v: UserId, order: seq<Track>)
    requires TakenBack(was, now, orders, rest, ts) && v in rest && v in now && RoomModel.Enumerates(order, ts)
    ensures TakenBack(was, now[v := now[v].(sub := Subscriber.RemoveAll(now[v].sub, order))], orders[v := order],
                      rest - {v}, ts)
  {
    hide Subscriber.RemoveAll, RoomModel.Enumerates;
  }

  /** Promoting first and taking tracks back afterwards is leaving. */
  lemma LeaveByHand(r: RoomModel.Room, u: UserId, was: Members, now: Members, orders: map<UserId, seq<Track>>, ts: set<Track>)
    requires u in r.members && ts == RoomModel.PublishedBy(r, u)
    requires was == (var rest := map v | v in r.members && v != u :: r.members[v];
                     if r.members[u].info.host then RoomModel.Promote(rest, RoomModel.Without(r.order, u)) else rest)
    requires TakenBack(was, now, orders, {}, ts)
    ensures RoomModel.DropOrders(r, u, orders)
    ensures RoomModel.Leave(r, u, orders).members == now
  {
    hide Subscriber.RemoveAll, RoomModel.Without, RoomModel.Enumerates;
    var s := RoomModel.Leave(r, u, orders).members;
    assert s.Keys == now.Keys;
    forall v | v in now ensures v in s && s[v] == now[v] {}
  }

  lemma FewerValues(m: map<UserId, Participant>, u: UserId)
    ensures (m - {u}).Values <= m.Values
  {
  }

  lemma OneMoreValue(m: map<UserId, Participant>, u: UserId, p: Participant)
    ensures m[u := p].Values <= m.Values + {p}
  {
  }

  class Participant {
    const userId: UserId
    var info: RoomModel.Info
    var senders: set<Track>
    var subPending: bool
    var subNeedsRenegotiate: bool
    var sub: Subscriber.Peer
    var closed: bool
    var screenPending: bool
    ghost var wire: seq<Subscriber.Wire>

    constructor (userId: UserId, info: RoomModel.Info)
      ensures this.userId == userId
      ensures View() == RoomModel.Member(info, Subscriber.FRESH, false)
    {
      this.userId, this.info := userId, info;
      senders, subPending, subNeedsRenegotiate, closed, screenPending := {}, false, false, false, false;
      sub := Subscriber.Peer(false, None, {});
      wire := [];
    }

    ghost function Half(): Subscriber.Sub
      reads this
    {
      Subscriber.Sub(closed, senders, subPending, subNeedsRenegotiate, sub, wire)
    }

    ghost function View(): RoomModel.Member
      reads this
    {
      RoomModel.Member(info, Half(), screenPending)
    }

    /** Offer the current senders, or note that another offer is due once the open one is answered. */
    method Renegotiate()
      modifies this
      ensures View() == old(View()).(sub := Subscriber.Renegotiate(old(Half())))
    {
      if closed { return; }
      if subPending {
        subNeedsRenegotiate := true;
        return;
      }
      sub := sub.(unanswered := true, local := Some(senders));
      subPending := true;
      wire := wire + [Subscriber.Offer(senders)];
    }

    method AddSender(t: Track)
      modifies this
      ensures View() == old(View()).(sub := Subscriber.Add(old(Half()), t))
    {
      if closed || t in senders { return; }
      senders := senders + {t};
      Renegotiate();
    }

    method RemoveSender(t: Track)
      modifies this
      ensures View() == old(View()).(sub := Subscriber.Remove(old(Half()), t))
    {
      if closed || t !in senders { return; }
      senders := senders - {t};
      Renegotiate();
    }

    /** The peer connection rejects an answer to nothing. */
    method OnSubAnswer()
      modifies this
      ensures View() == old(View()).(sub := Subscriber.OnAnswer(old(Half())))
    {
      if closed || !sub.unanswered || sub.local.None? { return; }
      sub := sub.(unanswered := false, remote := sub.local.value);
      wire := wire + [Subscriber.Answer];
      subPending := false;
      if subNeedsRenegotiate {
        subNeedsRenegotiate := false;
        Renegotiate();
      }
    }

    method ResendSubscriberOffer()
      modifies this
      ensures View() == old(View()).(sub := Subscriber.Resend(old(Half())))
    {
      if closed || !subPending || sub.local.None? { return; }
      wire := wire + [Subscriber.Resent(sub.local.value)];
    }

    /** Take back a set of tracks, in whatever order the iteration happens to take. */
    method RemoveSenders(ts: set<Track>) returns (ghost order: seq<Track>)
      modifies this
      ensures RoomModel.Enumerates(order, ts)
      ensures View() == old(View()).(sub := Subscriber.RemoveAll(old(Half()), order))
    {
      order := [];
      var rest := ts;
      while rest != {}
        invariant rest <= ts && RoomModel.Enumerates(order, ts - rest)
        invariant View() == old(View()).(sub := Subscriber.RemoveAll(old(Half()), order))
      {
        var t :| t in rest;
        RemoveSender(t);
        assert (order + [t])[..|order|] == order;
        RoomModel.EnumeratesOneMore(order, t, ts - rest);
        assert ts - (rest - {t}) == ts - rest + {t};
        order := order + [t];
        rest := rest - {t};
      }
    }

    method AddSenders(ts: set<Track>) returns (ghost order: seq<Track>)
      modifies this
      ensures RoomModel.Enumerates(order, ts)
      ensures View() == old(View()).(sub := Subscriber.AddAll(old(Half()), order))
    {
      order := [];
      var rest := ts;
      while rest != {}
        invariant rest <= ts && RoomModel.Enumerates(order, ts - rest)
        invariant View() == old(View()).(sub := Subscriber.AddAll(old(Half()), order))
      {
        var t :| t in rest;
        AddSender(t);
        assert (order + [t])[..|order|] == order;
        RoomModel.EnumeratesOneMore(order, t, ts - rest);
        assert ts - (rest - {t}) == ts - rest + {t};
        order := order + [t];
        rest := rest - {t};
      }
    }

    method Close()
      modifies this`closed
      ensures closed
    {
      closed := true;
    }
  }

  class Room {
    const id: RoomId
    var order: seq<UserId>
    var participants: map<UserId, Participant>
    var tracks: map<Slot, Track>
    var mutedTracks: map<UserId, Track>
    var locked: set<UserId>
    var presenterOnly: bool
    var presenters: set<UserId>

    constructor (id: RoomId)
      ensures this.id == id && participants == map[] && Valid() && View() == RoomModel.EMPTY && Repr() == {this}
    {
      this.id := id;
      order, participants, tracks, mutedTracks := [], map[], map[], map[];
      locked, presenterOnly, presenters := {}, false, {};
    }

    /** Participants are keyed by their own user; so no object serves two users. */
    ghost predicate Valid()
      reads `participants, participants.Values
    {
      forall u :: u in participants ==> participants[u].userId == u
    }

    ghost function Members(): map<UserId, RoomModel.Member>
      reads `participants, participants.Values
    {
      map u | u in participants :: participants[u].View()
    }

    ghost function View(): RoomModel.Room
      reads this, participants.Values
    {
      RoomModel.Room(order, Members(), tracks, mutedTracks, locked, presenterOnly, presenters)
    }

    /** The room and its participants. */
    ghost function Repr(): set<object>
      reads `participants
    {
      {this as object} + set p | p in participants.Values :: p as object
    }

    /** A room nobody touched looks the same. */
    twostate lemma Untouched()
      requires forall o :: o in old(Repr()) ==> unchanged(o)
      ensures Repr() == old(Repr())
      ensures View() == old(View()) && (old(Valid()) ==> Valid())
    {
      assert this in old(Repr());
      forall u | u in participants ensures participants[u].View() == old(participants[u].View()) {
        assert participants[u] in participants.Values;
        assert (participants[u] as object) in old(Repr());
      }
      assert Members() == old(Members());
    }

    lemma MembersKeys()
      ensures Members().Keys == participants.Keys
    {
    }

    /** Stop sending `t` to everybody but `u`. */
    method DropFromOthers(u: UserId, t: Track)
      requires Valid()
      modifies participants.Values
      ensures Valid() && View() == old(View()).(members := RoomModel.DropFromOthers(old(Members()), u, t))
    {
      hide Subscriber.Add, Subscriber.Remove;
      var rest := participants.Keys - {u};
      while rest != {}
        invariant rest <= participants.Keys - {u} && Valid()
        invariant forall v :: v in participants ==>
          participants[v].View() ==
            if v == u || v in rest then old(participants[v].View())
            else old(participants[v].View()).(sub := Subscriber.Remove(old(participants[v].Half()), t))
      {
        SomeUser(rest);
        var v :| v in rest;
        participants[v].RemoveSender(t);
        rest := rest - {v};
      }
      assert Members() == RoomModel.DropFromOthers(old(Members()), u, t);
    }

    /** Start sending `t` to everybody but `u`. */
    method SendToOthers(u: UserId, t: Track)
      requires Valid()
      modifies participants.Values
      ensures Valid() && View() == old(View()).(members := RoomModel.SendToOthers(old(Members()), u, t))
    {
      hide Subscriber.Add, Subscriber.Remove;
      var rest := participants.Keys - {u};
      while rest != {}
        invariant rest <= participants.Keys - {u} && Valid()
        invariant forall v :: v in participants ==>
          participants[v].View() ==
            if v == u || v in rest then old(participants[v].View())
            else old(participants[v].View()).(sub := Subscriber.Add(old(participants[v].Half()), t))
      {
        SomeUser(rest);
        var v :| v in rest;
        participants[v].AddSender(t);
        rest := rest - {v};
      }
      assert Members() == RoomModel.SendToOthers(old(Members()), u, t);
    }

    /** Overwrite the info and the announcement flag of one member. */
    method SetMember(u: UserId, i: RoomModel.Info, pending: bool)
      requires Valid() && u in participants
      modifies participants.Values
      ensures Valid()
      ensures Members() == old(Members())[u := old(Members())[u].(info := i, screenPending := pending)]
      ensures View() == old(View()).(members := Members())
    {
      participants[u].info := i;
      participants[u].screenPending := pending;
      forall v | v in participants && v != u ensures participants[v].View() == old(participants[v].View()) {
        assert participants[v].userId == v;
      }
    }

    /** The info of one member, as other participants see it. */
    method InfoSnapshot(u: UserId) returns (i: RoomModel.Info)
      requires u in participants
      ensures u in Members() && i == Members()[u].info
    {
      i := participants[u].info;
    }

    /** Overwrite the role and the presenting flag of one member. */
    method SetFlags(u: UserId, host: bool, canPresent: bool)
      requires Valid() && u in participants
      modifies participants.Values
      ensures Valid() && u in old(Members())
      ensures Members() == old(Members())[u := WithFlags(old(Members())[u], host, canPresent)]
    {
      SetMember(u, participants[u].info.(host := host, canPresent := canPresent), participants[u].screenPending);
    }

    method UpdateInfo(u: UserId, i: RoomModel.Info)
      requires Valid()
      modifies participants.Values
      ensures Valid() && View() == RoomModel.SetInfo(old(View()), u, i)
    {
      if u in participants {
        SetMember(u, i, participants[u].screenPending);
      }
    }

    /** Withhold a mic its host-locked owner publishes. */
    method Park(u: UserId, t: Track)
      requires Valid() && u in participants && u in locked
      modifies this`tracks, this`mutedTracks, participants.Values
      ensures Valid() && View() == RoomModel.Publish(old(View()), u, Mic, t)
    {
      hide RoomModel.DropFromOthers, RoomModel.SendToOthers;
      var slot := RoomModel.Slot(u, Mic);
      mutedTracks := mutedTracks[u := t];
      if slot in tracks {
        var previous := tracks[slot];
        tracks := tracks - {slot};
        DropFromOthers(u, previous);
      }
    }

    /** Replace what is in a slot, for everybody but its owner. */
    method Forward(u: UserId, key: Key, t: Track)
      requires Valid() && u in participants && !(key == Mic && u in locked)
      modifies this`tracks, participants.Values
      ensures Valid() && View() == RoomModel.Publish(old(View()), u, key, t)
    {
      hide RoomModel.DropFromOthers, RoomModel.SendToOthers;
      var slot := RoomModel.Slot(u, key);
      if slot in tracks {
        var previous := tracks[slot];
        tracks := tracks[slot := t];
        DropFromOthers(u, previous);
      } else {
        tracks := tracks[slot := t];
      }
      SendToOthers(u, t);
    }

    /** A newly published track; one of a host-locked mic is parked instead of forwarded. */
    method Publish(p: Participant, key: Key, t: Track)
      requires Valid()
      modifies this`tracks, this`mutedTracks, participants.Values
      ensures Valid()
      ensures View() == if p.userId in participants && participants[p.userId] == p && !old(p.closed)
                        then RoomModel.Publish(old(View()), p.userId, key, t) else old(View())
    {
      hide RoomModel.Publish;
      if p.userId !in participants || participants[p.userId] != p || p.closed { return; }
      if key == Mic && p.userId in locked {
        Park(p.userId, t);
      } else {
        Forward(p.userId, key, t);
      }
    }

    /** Stop forwarding one track; with `expected` only if it is still the one published. */
    method Unpublish(slot: Slot, expected: Option<Track>) returns (done: bool)
      requires Valid()
      modifies this`tracks, participants.Values
      ensures Valid() && done == RoomModel.CanUnpublish(old(View()), slot, expected)
      ensures View() == RoomModel.Unpublish(old(View()), slot, expected)
    {
      hide RoomModel.DropFromOthers, RoomModel.SendToOthers;
      if slot !in tracks || (expected.Some? && expected.value != tracks[slot]) { return false; }
      var t := tracks[slot];
      tracks := tracks - {slot};
      DropFromOthers(slot.user, t);
      return true;
    }

    method ForceMuteMic(u: UserId)
      requires Valid()
      modifies this`tracks, this`mutedTracks, participants.Values
      ensures Valid() && View() == RoomModel.ForceMuteMic(old(View()), u)
    {
      hide RoomModel.DropFromOthers, RoomModel.SendToOthers;
      var slot := RoomModel.Slot(u, Mic);
      if slot !in tracks { return; }
      var t := tracks[slot];
      tracks := tracks - {slot};
      mutedTracks := mutedTracks[u := t];
      DropFromOthers(u, t);
    }

    method RestoreMic(u: UserId)
      requires Valid()
      modifies this`tracks, this`mutedTracks, participants.Values
      ensures Valid() && View() == RoomModel.RestoreMic(old(View()), u)
    {
      hide RoomModel.DropFromOthers, RoomModel.SendToOthers;
      if u !in mutedTracks { return; }
      var t := mutedTracks[u];
      mutedTracks := mutedTracks - {u};
      tracks := tracks[RoomModel.Slot(u, Mic) := t];
      SendToOthers(u, t);
    }

    /** A browser's track arrives: label it, publish it, and show it in the owner's info. */
    method OnTrack(u: UserId, remote: Key, recent: bool, serial: nat)
      requires Valid() && u in participants && !participants[u].closed
      modifies this`tracks, this`mutedTracks, participants.Values
      ensures Valid() && View() == RoomModel.OnTrack(old(View()), u, remote, recent, serial)
    {
      hide RoomModel.Publish, Subscriber.Inv;
      var p := participants[u];
      var key := remote;
      if key == Cam && p.screenPending && recent {
        SetMember(u, p.info, false);
        key := Screen;
      }
      if key == Screen && !p.info.canPresent { return; }
      Publish(p, key, Track(u, key, serial));
      UpdateInfo(u, RoomModel.Started(p.info, key));
    }

    /** The stream behind `t` ended. */
    method TrackEnded(t: Track)
      requires Valid() && t.owner in participants
      modifies this`tracks, participants.Values
      ensures Valid() && View() == RoomModel.TrackEnded(old(View()), t)
    {
      hide RoomModel.DropFromOthers;
      var done := Unpublish(RoomModel.Slot(t.owner, t.key), Some(t));
      if done {
        UpdateInfo(t.owner, RoomModel.Ended(participants[t.owner].info, t.key));
      }
    }

    /** The screen half of a report; tells whether the member counts as sharing afterwards. */
    method ReportScreen(u: UserId, st: RoomModel.TrackState) returns (screen: bool)
      requires Valid() && u in participants
      modifies this`tracks, participants.Values
      ensures Valid() && View() == RoomModel.ScreenReport(old(View()), u, st)
      ensures screen == RoomModel.ScreenAfter(old(participants[u].info), st)
    {
      hide RoomModel.Unpublish;
      var info := participants[u].info;
      screen := st.screen;
      if screen && !info.screen {
        if !info.canPresent {
          screen := false;
        } else {
          SetMember(u, info, true);
        }
      }
      if !screen && info.screen {
        var _ := Unpublish(RoomModel.Slot(u, Screen), None);
      }
    }

    /** A client reports its toggles. */
    method OnTrackState(u: UserId, st: RoomModel.TrackState)
      requires Valid() && u in participants
      modifies this`tracks, this`mutedTracks, participants.Values
      ensures Valid() && View() == RoomModel.OnTrackState(old(View()), u, st)
    {
      hide RoomModel.RestoreMic, RoomModel.ScreenReport, RoomModel.ScreenAfter;
      var info := participants[u].info;
      var muted := st.muted;
      var screen := ReportScreen(u, st);
      if !muted && info.muted {
        if u in locked {
          muted := true;
        } else {
          RestoreMic(u);
        }
      }
      UpdateInfo(u, participants[u].info.(muted := muted, videoOn := st.videoOn, screen := screen));
    }

    /** The client answers the open offer. */
    method Answer(u: UserId)
      requires Valid() && u in participants
      modifies participants.Values
      ensures Valid() && View() == RoomModel.Answer(old(View()), u)
    {
      hide Subscriber.OnAnswer;
      participants[u].OnSubAnswer();
      forall v | v in participants && v != u ensures participants[v].View() == old(participants[v].View()) {
        assert participants[v].userId == v;
      }
      assert Members() == RoomModel.Answer(old(View()), u).members;
    }

    /** A reconnecting client is sent the open offer again. */
    method Resume(u: UserId)
      requires Valid() && u in participants
      modifies participants.Values
      ensures Valid() && View() == RoomModel.Resume(old(View()), u)
    {
      hide Subscriber.Resend;
      participants[u].ResendSubscriberOffer();
      forall v | v in participants && v != u ensures participants[v].View() == old(participants[v].View()) {
        assert participants[v].userId == v;
      }
      assert Members() == RoomModel.Resume(old(View()), u).members;
    }

    method SetLocked(u: UserId, lock: bool)
      requires Valid()
      modifies this`locked
      ensures Valid() && View() == old(View()).(locked := if lock then old(locked) + {u} else old(locked) - {u})
    {
      locked := if lock then locked + {u} else locked - {u};
    }

    /** Force-mute a member, optionally locking the mute. */
    method Mute(u: UserId, lock: bool)
      requires Valid() && u in participants
      modifies this`tracks, this`mutedTracks, this`locked, participants.Values
      ensures Valid() && View() == RoomModel.Mute(old(View()), u, lock)
    {
      hide RoomModel.ForceMuteMic;
      UpdateInfo(u, participants[u].info.(muted := true, locked := lock));
      ForceMuteMic(u);
      if lock {
        SetLocked(u, true);
      }
    }

    method Unlock(u: UserId)
      requires Valid() && u in participants
      modifies this`locked, participants.Values
      ensures Valid() && View() == RoomModel.Unlock(old(View()), u)
    {
      SetLocked(u, false);
      UpdateInfo(u, participants[u].info.(locked := false));
    }

    /** Recompute every member's presenting flag. */
    method RecomputePresenting()
      requires Valid()
      modifies participants.Values
      ensures Valid() && View() == RoomModel.SetPresenterOnly(old(View()), presenterOnly)
    {
      hide RoomModel.SetPresenterOnly, Members, Valid, Halfway;
      RoomModel.SetPresenterOnlyAt(View(), presenterOnly);
      MembersKeys();
      ghost var was, goal := Members(), RoomModel.SetPresenterOnly(View(), presenterOnly).members;
      HalfwayStart(was, goal);
      var rest := participants.Keys;
      while rest != {}
        invariant rest <= participants.Keys && Valid() && Halfway(was, goal, Members(), rest)
      {
        SomeUser(rest);
        var v :| v in rest;
        var i := InfoSnapshot(v);
        HalfwayAt(was, goal, Members(), rest, v);
        SetFlags(v, i.host, i.host || !presenterOnly || v in presenters);
        rest := rest - {v};
      }
      HalfwayDone(was, goal, Members());
    }

    /** Toggle the restriction and recompute everybody's flag. */
    method SetPresenterOnly(enabled: bool)
      requires Valid()
      modifies this`presenterOnly, participants.Values
      ensures Valid() && View() == RoomModel.SetPresenterOnly(old(View()), enabled)
    {
      hide RoomModel.SetPresenterOnly;
      RoomModel.SetPresenterOnlyTwice(View(), enabled);
      presenterOnly := enabled;
      RecomputePresenting();
    }

    method SetPresenter(u: UserId, allowed: bool)
      requires Valid() && u in participants
      modifies this`presenters, participants.Values
      ensures Valid() && View() == RoomModel.SetPresenter(old(View()), u, allowed)
    {
      presenters := if allowed then presenters + {u} else presenters - {u};
      var i := participants[u].info;
      UpdateInfo(u, i.(canPresent := i.host || !presenterOnly || u in presenters));
    }

    /** Make `u` the host and demote whoever held the role. */
    method ClaimHost(u: UserId)
      requires Valid()
      modifies participants.Values
      ensures Valid() && View() == RoomModel.ClaimHost(old(View()), u)
    {
      hide RoomModel.ClaimHost, Members, Valid, Halfway;
      MembersKeys();
      RoomModel.ClaimHostAt(View(), u);
      if u !in participants { return; }
      var mine := InfoSnapshot(u);
      if mine.host { return; }
      ghost var was, goal := Members(), RoomModel.ClaimHost(View(), u).members;
      HalfwayStart(was, goal);
      var rest := participants.Keys;
      while rest != {}
        invariant rest <= participants.Keys && Valid() && Halfway(was, goal, Members(), rest)
      {
        SomeUser(rest);
        var v :| v in rest;
        var i := InfoSnapshot(v);
        HalfwayAt(was, goal, Members(), rest, v);
        var isHost := v == u;
        if i.host != isHost {
          SetFlags(v, isHost, isHost || !presenterOnly || v in presenters);
        }
        rest := rest - {v};
      }
      HalfwayDone(was, goal, Members());
    }

    method Insert(p: Participant)
      requires Valid() && p.userId !in participants
      modifies this`order, this`participants
      ensures Valid() && participants == old(participants)[p.userId := p]
      ensures View() == old(View()).(order := old(order) + [p.userId], members := old(Members())[p.userId := p.View()])
    {
      participants := participants[p.userId := p];
      order := order + [p.userId];
      assert Members() == old(Members())[p.userId := p.View()];
    }

    /** A newcomer joins the list and is at once sent everything already published. */
    method Enter(u: UserId, video: bool) returns (ghost ts: seq<Track>)
      requires Valid() && u !in participants
      modifies this`order, this`participants
      ensures Valid() && participants.Keys == old(participants.Keys) + {u}
      ensures fresh(participants[u]) && participants == old(participants)[u := participants[u]]
      ensures Repr() <= old(Repr()) + {participants[u]}
      ensures RoomModel.Enumerates(ts, RoomModel.PublishedByOthers(old(View()), u))
      ensures View() == RoomModel.Enter(old(View()), u, video, ts)
    {
      hide RoomModel.Enumerates, Subscriber.AddAll, Members, Valid;
      MembersKeys();
      var host := participants == map[];
      assert host <==> Members() == map[] by { NoKeys(); }
      var p := new Participant(u, RoomModel.Info(false, video, false, host, false, host || !presenterOnly || u in presenters));
      ts := p.AddSenders(set s | s in tracks && s.user != u :: tracks[s]);
      Insert(p);
      OneMoreValue(old(participants), u, p);
    }

    lemma NoKeys()
      ensures participants == map[] <==> Members() == map[]
    {
      assert participants == map[] <==> participants.Keys == {};
      assert Members() == map[] <==> Members().Keys == {};
    }

    /** Rebuild the join order without `u`. */
    method OrderWithout(u: UserId) returns (rest: seq<UserId>)
      ensures rest == RoomModel.Without(order, u)
    {
      rest := [];
      for i := 0 to |order|
        invariant rest == RoomModel.Without(order[..i], u)
      {
        assert order[..i + 1][..i] == order[..i];
        if order[i] != u {
          rest := rest + [order[i]];
        }
      }
      assert order[..|order|] == order;
    }

    /** Take the tracks `ts` back from every participant. */
    method TakeBack(ts: set<Track>) returns (ghost orders: map<UserId, seq<Track>>)
      requires Valid()
      modifies participants.Values
      ensures Valid() && TakenBack(old(Members()), Members(), orders, {}, ts)
      ensures View() == old(View()).(members := Members())
    {
      hide RoomModel.Enumerates, Subscriber.RemoveAll;
      orders := map[];
      ghost var was := Members();
      var rest := participants.Keys;
      while rest != {}
        invariant rest <= participants.Keys && Valid() && TakenBack(was, Members(), orders, rest, ts)
      {
        hide TakenBack;
        SomeUser(rest);
        var v :| v in rest;
        MembersKeys();
        ghost var now := Members();
        ghost var order := TakeBackFrom(v, ts);
        TakenBackStep(was, now, orders, rest, ts, v, order);
        orders := orders[v := order];
        rest := rest - {v};
      }
    }

    method TakeBackFrom(u: UserId, ts: set<Track>) returns (ghost order: seq<Track>)
      requires Valid() && u in participants
      modifies participants.Values
      ensures Valid() && RoomModel.Enumerates(order, ts)
      ensures u in old(Members())
      ensures Members() == old(Members())[u := old(Members())[u].(sub := Subscriber.RemoveAll(old(Members())[u].sub, order))]
    {
      hide RoomModel.Enumerates, Subscriber.RemoveAll;
      order := participants[u].RemoveSenders(ts);
      forall v | v in participants && v != u ensures participants[v].View() == old(participants[v].View()) {
        assert participants[v].userId == v;
      }
    }

    /** Take `u` out of the tables. */
    method Forget(u: UserId) returns (p: Participant, published: set<Track>)
      requires Valid() && u in participants
      modifies this
      ensures Valid() && p == old(participants[u]) && participants == old(participants) - {u}
      ensures forall v :: v in participants ==> participants[v] != p
      ensures published == RoomModel.PublishedBy(old(View()), u)
      ensures View() == RoomModel.Departed(old(View()), u, map v | v in old(Members()) && v != u :: old(Members())[v])
    {
      hide RoomModel.Without, Members, Valid;
      published := set s | s in tracks && s.user == u :: tracks[s];
      order := OrderWithout(u);
      p := DropEntry(u);
      tracks := map s | s in tracks && s.user != u :: tracks[s];
      mutedTracks, locked, presenters := mutedTracks - {u}, locked - {u}, presenters - {u};
    }

    method DropEntry(u: UserId) returns (p: Participant)
      requires Valid() && u in participants
      modifies this`participants
      ensures Valid() && p == old(participants[u]) && participants == old(participants) - {u}
      ensures forall v :: v in participants ==> participants[v] != p
      ensures Members() == map v | v in old(Members()) && v != u :: old(Members())[v]
    {
      p := participants[u];
      participants := participants - {u};
    }

    /** The host role moves to the first in join order. */
    method PromoteNext()
      requires Valid()
      modifies participants.Values
      ensures Valid() && View() == old(View()).(members := RoomModel.Promote(old(Members()), order))
    {
      if |order| > 0 && order[0] in participants {
        var next := order[0];
        SetMember(next, participants[next].info.(host := true), participants[next].screenPending);
      }
    }

    /** A participant goes: out of the tables, closed, and its tracks taken back from the others. */
    method Leave(u: UserId) returns (ghost orders: map<UserId, seq<Track>>)
      requires Valid() && u in participants
      modifies this, participants.Values
      ensures Valid() && participants == old(participants) - {u} && old(participants[u]).closed
      ensures Repr() <= old(Repr())
      ensures RoomModel.DropOrders(old(View()), u, orders)
      ensures View() == RoomModel.Leave(old(View()), u, orders)
    {
      hide RoomModel.Without, RoomModel.Promote, RoomModel.DropOrders, TakenBack, Members, Valid, RoomModel.PublishedBy;
      MembersKeys();
      var mine := InfoSnapshot(u);
      var p, published := Forget(u);
      if mine.host {
        PromoteNext();
      }
      CloseDetached(p);
      ghost var was := Members();
      orders := TakeBack(published);
      LeaveByHand(old(View()), u, was, Members(), orders, published);
      FewerValues(old(participants), u);
    }

    /** Close a participant that is no longer in the room. */
    method CloseDetached(p: Participant)
      requires Valid() && forall v :: v in participants ==> participants[v] != p
      modifies p`closed
      ensures Valid() && p.closed && View() == old(View()) && Members() == old(Members())
    {
      p.Close();
      forall v | v in participants ensures participants[v].View() == old(participants[v].View()) {}
      assert Members() == old(Members());
    }
  }
}
