/**
 What every room operation keeps: forwarding, roles, host locks, join order and the state of
 each subscriber. RestoreMic is the one operation that can leave a track behind; when it does is
 stated exactly in RestoreMicExact.
 */
module RoomInvariants {
  import opened Media
  import opened RoomModel
  import Subscriber

  /** `t` is what its owner currently publishes under its key. */
  predicate IsLive(r: Room, t: Track) {
    Slot(t.owner, t.key) in r.tracks && r.tracks[Slot(t.owner, t.key)] == t
  }

  /** Bookkeeping: every table speaks of members only, and tracks carry their owner, key and a used serial. */
  ghost predicate Tidy(r: Room, n: nat) {
    && (forall s :: s in r.tracks ==> s.user in r.members && r.tracks[s].owner == s.user
                                      && r.tracks[s].key == s.key && r.tracks[s].serial < n)
    && (forall u :: u in r.parked ==> u in r.members && r.parked[u].owner == u && r.parked[u].key == Mic
                                      && r.parked[u].serial < n && !IsLive(r, r.parked[u]))
    && r.locked <= r.members.Keys
    && r.presenters <= r.members.Keys
  }

  /**
   Forwarding: a member is sent everything the others publish, nothing of its own, and every
   camera and screen it is sent is one that is published now.
   */
  ghost predicate Forwards(r: Room, n: nat) {
    forall v :: v in r.members ==>
      && (forall t :: IsLive(r, t) && t.owner != v ==> t in r.members[v].sub.senders)
      && (forall t :: t in r.members[v].sub.senders ==>
            t.owner != v && t.serial < n && (t.key != Mic ==> IsLive(r, t)))
  }

  /** Every mic a member is sent is one that is published now. */
  ghost predicate MicsExact(r: Room) {
    forall v, t :: v in r.members && t in r.members[v].sub.senders && t.key == Mic ==> IsLive(r, t)
  }

  ghost predicate SubsOk(r: Room) {
    forall v :: v in r.members ==> !r.members[v].sub.closed && Subscriber.Inv(r.members[v].sub)
  }

  /** While a user is locked none of its mics is published and it shows as muted. */
  ghost predicate Locks(r: Room) {
    && (forall u :: u in r.locked && u in r.members ==> Slot(u, Mic) !in r.tracks && r.members[u].info.muted)
    && (forall u :: u in r.members && r.members[u].info.locked ==> u in r.locked)
  }

  /** A member who may present by its flag may present by the rule; for all but the host the two agree. */
  ghost predicate Presenting(r: Room) {
    forall v :: v in r.members ==>
      && (r.members[v].info.canPresent ==> MayPresent(r, v, r.members[v].info.host))
      && (!r.members[v].info.host ==> r.members[v].info.canPresent == MayPresent(r, v, false))
  }

  ghost predicate IsHost(r: Room, h: UserId) {
    h in r.members && r.members[h].info.host
  }

  ghost predicate OneHost(r: Room) {
    && (r.members != map[] ==> exists h :: IsHost(r, h))
    && (forall g, h :: IsHost(r, g) && IsHost(r, h) ==> g == h)
  }

  predicate NoDuplicates(s: seq<UserId>) {
    forall i, j :: 0 <= i < j < |s| ==> s[i] != s[j]
  }

  ghost predicate Ordered(r: Room) {
    && NoDuplicates(r.order)
    && (forall u :: u in r.order <==> u in r.members)
  }

  ghost predicate Ok(r: Room, n: nat) {
    && Tidy(r, n) && Forwards(r, n) && SubsOk(r) && Locks(r)
    && Presenting(r) && OneHost(r) && Ordered(r)
  }

  // ---- frames: what an operation that leaves some part alone keeps ----

  /** `s` has the members, roles and order of `r`; only subscribers, tracks and other flags may differ. */
  ghost predicate SameRoles(r: Room, s: Room) {
    && s.members.Keys == r.members.Keys
    && s.order == r.order && s.presenterOnly == r.presenterOnly && s.presenters == r.presenters
    && (forall v :: v in r.members ==> s.members[v].info.host == r.members[v].info.host
                                       && s.members[v].info.canPresent == r.members[v].info.canPresent)
  }

  lemma SameRolesKeeps(r: Room, s: Room)
    requires SameRoles(r, s) && Presenting(r) && OneHost(r) && Ordered(r)
    ensures Presenting(s) && OneHost(s) && Ordered(s)
  {
    forall h ensures IsHost(r, h) <==> IsHost(s, h) {}
    if r.members != map[] {
      var h :| IsHost(r, h);
      assert IsHost(s, h);
    }
    assert s.members == map[] <==> s.members.Keys == {};
    assert r.members == map[] <==> r.members.Keys == {};
  }

  /** `s` forwards what `r` forwards: same members, subscribers and tables; only infos may differ. */
  ghost predicate SameForwarding(r: Room, s: Room) {
    && s.members.Keys == r.members.Keys
    && s.tracks == r.tracks && s.parked == r.parked
    && (forall v :: v in r.members ==> s.members[v].sub == r.members[v].sub)
  }

  lemma SameForwardingKeeps(r: Room, s: Room, n: nat)
    requires SameForwarding(r, s) && Tidy(r, n) && Forwards(r, n) && SubsOk(r)
    requires s.locked <= s.members.Keys && s.presenters <= s.members.Keys
    ensures Tidy(s, n) && Forwards(s, n) && SubsOk(s)
    ensures MicsExact(s) <==> MicsExact(r)
  {
    forall t ensures IsLive(r, t) <==> IsLive(s, t) {}
  }

  // ---- fan-out ----

  /** Every member but `u` lost the tracks `gone` and got the tracks `come`; nothing else about members changed. */
  ghost predicate Fanned(ms: map<UserId, Member>, ms': map<UserId, Member>, u: UserId, gone: set<Track>, come: set<Track>) {
    && ms'.Keys == ms.Keys
    && forall v :: v in ms ==>
      && ms'[v].info == ms[v].info
      && !ms'[v].sub.closed && Subscriber.Inv(ms'[v].sub)
      && ms'[v].sub.senders == if v == u then ms[v].sub.senders else ms[v].sub.senders - gone + come
  }

  lemma DropFans(ms: map<UserId, Member>, u: UserId, t: Track)
    requires forall v :: v in ms ==> !ms[v].sub.closed && Subscriber.Inv(ms[v].sub)
    ensures Fanned(ms, DropFromOthers(ms, u, t), u, {t}, {})
  {
    forall v | v in ms
      ensures var s := Subscriber.Remove(ms[v].sub, t);
              Subscriber.Inv(s) && !s.closed && s.senders == ms[v].sub.senders - {t}
    {
      Subscriber.StepKeeps(ms[v].sub, Subscriber.Removed(t));
    }
  }

  lemma SendFans(ms: map<UserId, Member>, u: UserId, t: Track)
    requires forall v :: v in ms ==> !ms[v].sub.closed && Subscriber.Inv(ms[v].sub)
    ensures Fanned(ms, SendToOthers(ms, u, t), u, {}, {t})
  {
    forall v | v in ms
      ensures var s := Subscriber.Add(ms[v].sub, t);
              Subscriber.Inv(s) && !s.closed && s.senders == ms[v].sub.senders + {t}
    {
      Subscriber.StepKeeps(ms[v].sub, Subscriber.Added(t));
    }
  }

  /** Forwarding follows the tables: the others lose what `u` withdraws and get what `u` publishes. */
  lemma FannedForwards(r: Room, s: Room, u: UserId, gone: set<Track>, come: set<Track>, n: nat)
    requires Forwards(r, n) && Fanned(r.members, s.members, u, gone, come)
    requires forall t :: IsLive(s, t) <==> (IsLive(r, t) && t !in gone) || t in come
    requires forall t :: t in gone || t in come ==> t.owner == u
    requires forall t :: t in come ==> t.serial < n
    ensures Forwards(s, n)
    ensures MicsExact(r) ==> MicsExact(s)
  {
    forall v | v in s.members
      ensures forall t :: IsLive(s, t) && t.owner != v ==> t in s.members[v].sub.senders
      ensures forall t :: t in s.members[v].sub.senders ==>
                t.owner != v && t.serial < n && (t.key != Mic ==> IsLive(s, t))
    {
      assert v in r.members;
    }
    if MicsExact(r) {
      forall v, t | v in s.members && t in s.members[v].sub.senders && t.key == Mic
        ensures IsLive(s, t)
      {
        assert v in r.members;
        assert t in r.members[v].sub.senders || t in come;
      }
    }
  }

  /** The tables, subscribers and forwarding, leaving roles and locks aside. */
  ghost predicate MediaOk(r: Room, n: nat) {
    Tidy(r, n) && Forwards(r, n) && SubsOk(r)
  }

  lemma FannedRoles(r: Room, s: Room, u: UserId, gone: set<Track>, come: set<Track>)
    requires Fanned(r.members, s.members, u, gone, come)
    requires s.order == r.order && s.presenterOnly == r.presenterOnly && s.presenters == r.presenters
    ensures SameRoles(r, s) && SubsOk(s)
  {
  }

  lemma TidyWithout(r: Room, s: Room, slot: Slot, n: nat)
    requires Tidy(r, n) && slot in r.tracks
    requires s.members.Keys == r.members.Keys && s.tracks == r.tracks - {slot}
    requires s.parked == r.parked && s.locked == r.locked && s.presenters == r.presenters
    ensures Tidy(s, n)
    ensures forall t :: IsLive(s, t) <==> IsLive(r, t) && t != r.tracks[slot]
  {
  }

  lemma TidyWith(r: Room, s: Room, t: Track, n: nat)
    requires Tidy(r, n) && t.owner in r.members && t.serial < n && Slot(t.owner, t.key) !in r.tracks
    requires forall u :: u in r.parked ==> r.parked[u] != t
    requires s.members.Keys == r.members.Keys && s.tracks == r.tracks[Slot(t.owner, t.key) := t]
    requires s.parked == r.parked && s.locked == r.locked && s.presenters == r.presenters
    ensures Tidy(s, n)
    ensures forall x :: IsLive(s, x) <==> IsLive(r, x) || x == t
  {
  }

  /** Taking slot `slot` out of forwarding. */
  function Withdraw(r: Room, slot: Slot): Room
    requires slot in r.tracks
  {
    r.(tracks := r.tracks - {slot}, members := DropFromOthers(r.members, slot.user, r.tracks[slot]))
  }

  lemma WithdrawKeeps(r: Room, slot: Slot, n: nat)
    requires slot in r.tracks && MediaOk(r, n)
    ensures var s := Withdraw(r, slot);
            && MediaOk(s, n) && SameRoles(r, s)
            && Fanned(r.members, s.members, slot.user, {r.tracks[slot]}, {})
            && s.tracks == r.tracks - {slot} && s.parked == r.parked && s.locked == r.locked
            && (MicsExact(r) ==> MicsExact(s))
  {
    var t := r.tracks[slot];
    var s := Withdraw(r, slot);
    DropFans(r.members, slot.user, t);
    TidyWithout(r, s, slot, n);
    FannedForwards(r, s, slot.user, {t}, {}, n);
    FannedRoles(r, s, slot.user, {t}, {});
  }

  /** Putting a track into an empty slot and sending it to the others. */
  function Install(r: Room, t: Track): Room {
    r.(tracks := r.tracks[Slot(t.owner, t.key) := t], members := SendToOthers(r.members, t.owner, t))
  }

  lemma InstallFans(r: Room, t: Track, n: nat)
    requires MediaOk(r, n) && t.owner in r.members
    ensures Fanned(r.members, Install(r, t).members, t.owner, {}, {t})
  {
    hide Tidy, Forwards;
    SendFans(r.members, t.owner, t);
  }

  lemma InstallTables(r: Room, t: Track)
    ensures var s := Install(r, t);
            && s == r.(members := s.members, tracks := r.tracks[Slot(t.owner, t.key) := t])
            && (Slot(t.owner, t.key) !in r.tracks ==>
                  forall x :: IsLive(s, x) <==> IsLive(r, x) || x == t)
  {
    hide SendToOthers;
  }

  lemma InstallKeeps(r: Room, t: Track, n: nat)
    requires MediaOk(r, n)
    requires t.owner in r.members && t.serial < n && Slot(t.owner, t.key) !in r.tracks
    requires forall u :: u in r.parked ==> r.parked[u] != t
    ensures var s := Install(r, t);
            && MediaOk(s, n) && SameRoles(r, s)
            && Fanned(r.members, s.members, t.owner, {}, {t})
            && s.tracks == r.tracks[Slot(t.owner, t.key) := t] && s.parked == r.parked && s.locked == r.locked
            && (MicsExact(r) ==> MicsExact(s))
  {
    var s := Install(r, t);
    InstallFans(r, t, n);
    TidyWith(r, s, t, n);
    InstallTables(r, t);
    hide Install, Fanned, Tidy, SendToOthers, SameRoles;
    FannedForwards(r, s, t.owner, {}, {t}, n);
    FannedRoles(r, s, t.owner, {}, {t});
  }
}
