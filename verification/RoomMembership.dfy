/** Entering and leaving a room: the invariant, host succession and the presenting flag of a new host. */
module RoomMembership {
  import opened Media
  import opened RoomModel
  import opened RoomInvariants
  import Subscriber

  // ---- join order ----

  lemma {:induction false} WithoutFacts(s: seq<UserId>, u: UserId)
    ensures forall v :: v in Without(s, u) <==> v in s && v != u
    ensures NoDuplicates(s) ==> NoDuplicates(Without(s, u))
  {
    if s != [] {
      var front, last := s[..|s| - 1], s[|s| - 1];
      WithoutFacts(front, u);
      assert s == front + [last];
      if NoDuplicates(s) {
        assert NoDuplicates(front);
        assert last !in front;
      }
    }
  }

  /** Leaving keeps the relative order of everybody else. */
  lemma {:induction false} WithoutIsSubsequence(s: seq<UserId>, u: UserId, i: nat, j: nat)
    requires i < j < |s| && s[i] != u && s[j] != u && NoDuplicates(s)
    ensures exists a, b :: 0 <= a < b < |Without(s, u)| && Without(s, u)[a] == s[i] && Without(s, u)[b] == s[j]
  {
    var front, last := s[..|s| - 1], s[|s| - 1];
    assert s == front + [last];
    if j < |front| {
      WithoutIsSubsequence(front, u, i, j);
      var a, b :| 0 <= a < b < |Without(front, u)| && Without(front, u)[a] == s[i] && Without(front, u)[b] == s[j];
      assert Without(s, u)[a] == s[i] && Without(s, u)[b] == s[j];
    } else {
      WithoutFacts(front, u);
      assert s[i] in Without(front, u);
      var a :| 0 <= a < |Without(front, u)| && Without(front, u)[a] == s[i];
      var b := |Without(front, u)|;
      assert Without(s, u)[a] == s[i] && Without(s, u)[b] == s[j];
    }
  }

  // ---- leaving ----

  /** The members left behind, each without the tracks of `u`. */
  function Rest(r: Room, u: UserId, orders: map<UserId, seq<Track>>): map<UserId, Member> {
    map v | v in r.members && v != u ::
      r.members[v].(sub := Subscriber.RemoveAll(r.members[v].sub, OrderFor(orders, v)))
  }

  lemma RestFacts(r: Room, u: UserId, orders: map<UserId, seq<Track>>)
    requires SubsOk(r) && DropOrders(r, u, orders)
    ensures var rest := Rest(r, u, orders);
            && rest.Keys == r.members.Keys - {u}
            && forall v :: v in rest ==>
                 && rest[v].info == r.members[v].info
                 && !rest[v].sub.closed && Subscriber.Inv(rest[v].sub)
                 && rest[v].sub.senders == r.members[v].sub.senders - PublishedBy(r, u)
  {
    forall v | v in r.members && v != u
      ensures var s := Subscriber.RemoveAll(r.members[v].sub, OrderFor(orders, v));
              && Subscriber.Inv(s) && !s.closed
              && s.senders == r.members[v].sub.senders - PublishedBy(r, u)
    {
      Subscriber.RemoveAllKeeps(r.members[v].sub, OrderFor(orders, v));
    }
  }

  /** `d` is `r` after `u` has left, with what `u` published withdrawn from everyone. */
  ghost predicate Departs(r: Room, d: Room, u: UserId) {
    && d == Departed(r, u, d.members)
    && d.members.Keys == r.members.Keys - {u}
    && forall v :: v in d.members ==>
         && d.members[v].info == r.members[v].info
         && !d.members[v].sub.closed && Subscriber.Inv(d.members[v].sub)
         && d.members[v].sub.senders == r.members[v].sub.senders - PublishedBy(r, u)
  }

  lemma DepartedMedia(r: Room, d: Room, u: UserId, n: nat)
    requires MediaOk(r, n) && Departs(r, d, u)
    ensures MediaOk(d, n) && (MicsExact(r) ==> MicsExact(d))
  {
    hide Subscriber.Inv, Forwards, MicsExact, Without;
    assert forall t :: IsLive(d, t) <==> IsLive(r, t) && t.owner != u;
    assert forall t :: t in PublishedBy(r, u) <==> IsLive(r, t) && t.owner == u;
    DepartedForwards(r, d, u, n);
  }

  lemma DepartedForwards(r: Room, d: Room, u: UserId, n: nat)
    requires Forwards(r, n) && Departs(r, d, u)
    requires forall t :: IsLive(d, t) <==> IsLive(r, t) && t.owner != u
    requires forall t :: t in PublishedBy(r, u) <==> IsLive(r, t) && t.owner == u
    ensures Forwards(d, n) && (MicsExact(r) ==> MicsExact(d))
  {
    hide Subscriber.Inv, IsLive, PublishedBy, Departed;
    forall v | v in d.members
      ensures forall t :: IsLive(d, t) && t.owner != v ==> t in d.members[v].sub.senders
      ensures forall t :: t in d.members[v].sub.senders ==>
                t.owner != v && t.serial < n && (t.key != Mic ==> IsLive(d, t))
    {
      assert v in r.members;
    }
    if MicsExact(r) {
      forall v, t | v in d.members && t in d.members[v].sub.senders && t.key == Mic
        ensures IsLive(d, t)
      {
        assert v in r.members && t in r.members[v].sub.senders;
      }
    }
  }

  lemma DepartedRoles(r: Room, d: Room, u: UserId)
    requires Departs(r, d, u) && Locks(r) && Presenting(r) && OneHost(r) && Ordered(r)
    ensures Locks(d) && Presenting(d) && Ordered(d)
    ensures forall h :: IsHost(d, h) <==> IsHost(r, h) && h != u
  {
    hide Subscriber.Inv, PublishedBy;
    WithoutFacts(r.order, u);
  }

  /** The host role moves to the first in join order. */
  lemma PromoteKeeps(d: Room, n: nat)
    requires MediaOk(d, n) && Locks(d) && Presenting(d) && Ordered(d)
    requires forall h :: !IsHost(d, h)
    ensures var s := d.(members := Promote(d.members, d.order));
            && Ok(s, n) && (MicsExact(s) <==> MicsExact(d))
            && (d.order != [] ==> IsHost(s, d.order[0]))
  {
    hide Forwards, SubsOk, MicsExact;
    var s := d.(members := Promote(d.members, d.order));
    if d.order == [] {
      assert d.members == map[] by {
        assert forall u :: u in d.members ==> u in d.order;
      }
      assert s == d;
    } else {
      assert d.order[0] in d.order;
      assert IsHost(s, d.order[0]);
      PromotedRoles(d, s);
    }
    SameForwardingKeeps(d, s, n);
  }

  lemma PromotedRoles(d: Room, s: Room)
    requires Locks(d) && Presenting(d) && Ordered(d) && d.order != [] && d.order[0] in d.members
    requires forall h :: !IsHost(d, h)
    requires s == d.(members := Promote(d.members, d.order))
    ensures Locks(s) && Presenting(s) && Ordered(s) && OneHost(s)
  {
    assert IsHost(s, d.order[0]);
    assert forall h :: IsHost(s, h) ==> h == d.order[0] || IsHost(d, h);
  }

  lemma LeaveShape(r: Room, u: UserId, orders: map<UserId, seq<Track>>)
    requires u in r.members && SubsOk(r) && DropOrders(r, u, orders)
    ensures var d := Departed(r, u, Rest(r, u, orders));
            && Departs(r, d, u)
            && Leave(r, u, orders) ==
                 if r.members[u].info.host then d.(members := Promote(d.members, d.order)) else d
  {
    hide Subscriber.Inv, Subscriber.RemoveAll, Without, Promote, DropOrders, SubsOk, PublishedBy;
    RestFacts(r, u, orders);
  }

  /**
   Leaving keeps the invariant. A leaving host is succeeded by the first of the others in join
   order; if anybody else leaves the host stays who it was.
   */
  lemma LeaveKeeps(r: Room, u: UserId, orders: map<UserId, seq<Track>>, n: nat)
    requires Ok(r, n) && u in r.members && DropOrders(r, u, orders)
    ensures var s := Leave(r, u, orders);
            && Ok(s, n) && (MicsExact(r) ==> MicsExact(s))
            && s.members.Keys == r.members.Keys - {u}
            && s.order == Without(r.order, u)
            && (IsHost(r, u) && s.order != [] ==> IsHost(s, s.order[0]))
            && (!IsHost(r, u) ==> forall h :: IsHost(s, h) <==> IsHost(r, h))
  {
    hide Leave, Rest, Departed, Departs, Promote, MediaOk, MicsExact, Locks, Presenting, Ordered, DropOrders, Without;
    LeaveShape(r, u, orders);
    var d := Departed(r, u, Rest(r, u, orders));
    assert MediaOk(r, n) by { OkIsMedia(r, n); }
    DepartedMedia(r, d, u, n);
    DepartedRoles(r, d, u);
    DepartsKeys(r, d, u);
    if r.members[u].info.host {
      assert IsHost(r, u);
      PromoteKeeps(d, n);
      PromoteOrder(d);
    } else {
      OkFromParts(r, d, u, n);
    }
  }

  lemma OkIsMedia(r: Room, n: nat)
    requires Ok(r, n)
    ensures MediaOk(r, n)
  {
  }

  lemma DepartsKeys(r: Room, d: Room, u: UserId)
    requires Departs(r, d, u)
    ensures d.members.Keys == r.members.Keys - {u} && d.order == Without(r.order, u)
  {
  }

  lemma PromoteOrder(d: Room)
    ensures Promote(d.members, d.order).Keys == d.members.Keys
  {
  }

  lemma OkFromParts(r: Room, d: Room, u: UserId, n: nat)
    requires Ok(r, n) && !IsHost(r, u)
    requires MediaOk(d, n) && Locks(d) && Presenting(d) && Ordered(d)
    requires forall h :: IsHost(d, h) <==> IsHost(r, h) && h != u
    requires d.members.Keys == r.members.Keys - {u}
    ensures Ok(d, n) && forall h :: IsHost(d, h) <==> IsHost(r, h)
  {
    hide Forwards, SubsOk, Tidy, Locks, Presenting, Ordered;
    if d.members != map[] {
      assert r.members != map[];
      var h :| IsHost(r, h);
      assert IsHost(d, h);
    }
  }

  /**
   The presenting flag of a new host is the one it had as an ordinary member, so the promise that a
   host can always present holds after a promotion exactly when the room was open or the successor
   had been granted presenting.
   */
  lemma PromotedMayPresent(r: Room, u: UserId, orders: map<UserId, seq<Track>>, n: nat)
    requires Ok(r, n) && IsHost(r, u) && DropOrders(r, u, orders) && Without(r.order, u) != []
    ensures var s := Leave(r, u, orders); var h := Without(r.order, u)[0];
            && h in r.members && h != u && IsHost(s, h)
            && (s.members[h].info.canPresent <==> !r.presenterOnly || h in r.presenters)
  {
    LeaveKeeps(r, u, orders, n);
    WithoutFacts(r.order, u);
    var h := Without(r.order, u)[0];
    assert h in Without(r.order, u);
    hide Forwards, Tidy, Subscriber.RemoveAll, Without, Locks;
    assert !r.members[h].info.host by {
      assert IsHost(r, u) && h != u;
      assert IsHost(r, h) ==> h == u;
    }
    assert Leave(r, u, orders).members[h].info.canPresent == r.members[h].info.canPresent;
  }

  // ---- entering ----

  lemma EnterMedia(r: Room, u: UserId, video: bool, ts: seq<Track>, n: nat)
    requires MediaOk(r, n) && u !in r.members && Enumerates(ts, PublishedByOthers(r, u))
    ensures MediaOk(Enter(r, u, video, ts), n)
    ensures MicsExact(r) ==> MicsExact(Enter(r, u, video, ts))
  {
    hide Subscriber.Inv, Subscriber.AddAll, Forwards, MicsExact;
    var s := Enter(r, u, video, ts);
    FreshOk();
    Subscriber.AddAllKeeps(Subscriber.FRESH, ts);
    assert forall t :: IsLive(s, t) <==> IsLive(r, t);
    AllByOthers(r, u, n);
    EnterForwards(r, s, u, n);
  }

  lemma FreshOk()
    ensures Subscriber.Inv(Subscriber.FRESH)
  {
  }

  lemma AllByOthers(r: Room, u: UserId, n: nat)
    requires Tidy(r, n) && u !in r.members
    ensures forall t :: t in PublishedByOthers(r, u) <==> IsLive(r, t)
  {
  }

  lemma EnterForwards(r: Room, s: Room, u: UserId, n: nat)
    requires Forwards(r, n) && Tidy(r, n) && u !in r.members
    requires s.members.Keys == r.members.Keys + {u}
    requires forall v :: v in r.members ==> s.members[v] == r.members[v]
    requires forall t :: IsLive(s, t) <==> IsLive(r, t)
    requires forall t :: t in s.members[u].sub.senders <==> IsLive(r, t)
    ensures Forwards(s, n) && (MicsExact(r) ==> MicsExact(s))
  {
    assert forall t :: IsLive(r, t) ==> t.owner in r.members && t.serial < n;
    hide IsLive, Tidy;
    forall v | v in s.members
      ensures forall t :: IsLive(s, t) && t.owner != v ==> t in s.members[v].sub.senders
      ensures forall t :: t in s.members[v].sub.senders ==>
                t.owner != v && t.serial < n && (t.key != Mic ==> IsLive(s, t))
    {
      assert v in r.members || v == u;
    }
  }

  lemma EnterRoles(r: Room, u: UserId, video: bool, ts: seq<Track>)
    requires u !in r.members && u !in r.presenters && u !in r.locked
    requires Locks(r) && Presenting(r) && OneHost(r) && Ordered(r)
    ensures var s := Enter(r, u, video, ts); Locks(s) && Presenting(s) && OneHost(s) && Ordered(s)
    ensures IsHost(Enter(r, u, video, ts), u) <==> r.members == map[]
    ensures forall v :: v != u ==> (IsHost(Enter(r, u, video, ts), v) <==> IsHost(r, v))
  {
    hide Subscriber.AddAll;
    var s := Enter(r, u, video, ts);
    if r.members == map[] {
      assert IsHost(s, u);
    } else {
      var h :| IsHost(r, h);
      assert IsHost(s, h);
      assert forall g :: IsHost(s, g) <==> IsHost(r, g);
    }
  }

  lemma EnterKeeps(r: Room, u: UserId, video: bool, ts: seq<Track>, n: nat)
    requires Ok(r, n) && u !in r.members && Enumerates(ts, PublishedByOthers(r, u))
    ensures var s := Enter(r, u, video, ts);
            && Ok(s, n) && (MicsExact(r) ==> MicsExact(s))
            && s.members.Keys == r.members.Keys + {u} && s.order == r.order + [u]
            && (IsHost(s, u) <==> r.members == map[]) && forall v :: v != u ==> (IsHost(s, v) <==> IsHost(r, v))
  {
    hide Forwards, SubsOk, MicsExact, Presenting, OneHost, Ordered, Locks, Enumerates;
    EnterMedia(r, u, video, ts, n);
    EnterRoles(r, u, video, ts);
  }

  lemma EmptyOk(n: nat)
    ensures Ok(EMPTY, n) && MicsExact(EMPTY)
  {
  }
}
