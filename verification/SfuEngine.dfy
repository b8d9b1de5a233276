/**
 The engine as the server keeps it: the room table and the membership index, changed in place.
 Every method is tied to one operation of the value model, and keeps the engine consistent.
 */
module SfuEngine {
  import opened Media
  import opened SfuRoom
  import RoomModel
  import EngineModel
  import EngineInvariants
  import RoomInvariants
  import Subscriber

  class Engine {
    const max: int
    var rooms: map<RoomId, Room>
    var users: map<UserId, Room>
    var serial: nat
    var events: seq<EngineModel.Event>

    constructor (max: int)
      ensures Ready() && View() == EngineModel.New(max) && Objects() == {}
    {
      this.max, rooms, users, serial, events := max, map[], map[], 0, [];
    }

    /** Every object the engine reaches. */
    ghost function Objects(): set<object>
      reads `rooms, rooms.Values
    {
      set id, o | id in rooms && o in rooms[id].Repr() :: o
    }

    /** Rooms are keyed by their ids and share no object. */
    ghost predicate Forest()
      reads `rooms, rooms.Values, Objects()
    {
      && (forall id :: id in rooms ==> rooms[id].Repr() <= Objects() && rooms[id].id == id && rooms[id].Valid())
      && (forall i, j :: i in rooms && j in rooms && i != j ==> rooms[i].Repr() !! rooms[j].Repr())
    }

    /** The index points at registered rooms. */
    ghost predicate Indexed()
      reads `rooms, `users
    {
      forall u :: u in users ==> users[u].id in rooms && rooms[users[u].id] == users[u]
    }

    ghost function Rooms(): map<RoomId, RoomModel.Room>
      reads `rooms, rooms.Values, Objects()
    {
      map id | id in rooms :: (assert rooms[id].Repr() <= Objects(); rooms[id].View())
    }

    ghost function Index(): map<UserId, RoomId>
      reads `users
    {
      map u | u in users :: users[u].id
    }

    ghost function View(): EngineModel.Engine
      reads this, rooms.Values, Objects()
    {
      EngineModel.Engine(max, Rooms(), Index(), serial, events)
    }

    ghost predicate Ready()
      reads this, rooms.Values, Objects()
    {
      Forest() && Indexed() && EngineInvariants.Inv(View())
    }

    /** Only `room` changed, and any participant it gained is new. */
    twostate lemma OnlyRoom(room: Room)
      requires old(Forest()) && rooms == old(rooms) && room.Valid()
      requires old(room.id in rooms && rooms[room.id] == room)
      requires unchanged(old(Objects()) - old(room.Repr()))
      requires forall o :: o in room.Repr() ==> o in old(room.Repr()) || o !in old(Objects())
      ensures Forest() && Rooms() == old(Rooms())[room.id := room.View()]
      ensures Objects() <= old(Objects()) + room.Repr()
      ensures old(Rooms())[room.id] == old(room.View())
    {
      hide Room.View, Room.Valid, Room.Repr;
      forall id | id in rooms && id != room.id
        ensures rooms[id].Valid() && rooms[id].View() == old(rooms[id].View()) && rooms[id].Repr() == old(rooms[id].Repr())
      {
        assert old(rooms[id].Repr()) <= old(Objects());
        rooms[id].Untouched();
      }
      assert forall id :: id in rooms ==> rooms[id].Repr() <= Objects();
      assert forall id :: id in rooms && id != room.id ==> rooms[id].Repr() !! room.Repr();
    }

    /** The room a user is in: by the index, or failing that by asking every room. */
    method RoomForUser(u: UserId) returns (room: Room?)
      requires Forest() && Indexed()
      ensures u in users ==> room == users[u]
      ensures u !in users && room != null ==> room.id in rooms && rooms[room.id] == room && u in room.participants
      ensures u !in users && room == null ==> forall id :: id in rooms ==> u !in rooms[id].participants
    {
      if u in users { return users[u]; }
      var rest := rooms.Keys;
      while rest != {}
        invariant rest <= rooms.Keys
        invariant forall id :: id in rooms && id !in rest ==> u !in rooms[id].participants
      {
        var id :| id in rest;
        if u in rooms[id].participants { return rooms[id]; }
        rest := rest - {id};
      }
      return null;
    }

    /** In a consistent engine the index alone decides. */
    lemma IndexDecides(u: UserId)
      requires Ready()
      ensures u in users ==> u in users[u].participants && users[u].id in rooms && rooms[users[u].id] == users[u]
      ensures u !in users ==> forall id :: id in rooms ==> u !in rooms[id].participants
      ensures EngineModel.InRoom(View(), u) <==> u in users
      ensures u in users ==> View().users[u] == users[u].id && EngineModel.RoomOf(View(), u) == users[u].View()
    {
      hide EngineInvariants.RoomsOk;
      var e := View();
      assert u in users ==> EngineModel.IsMember(e, e.users[u], u);
      forall id | id in rooms && u in rooms[id].participants ensures u in users {
        assert EngineModel.IsMember(e, id, u);
      }
    }

    /** The room of `u`, with what its methods and the frame lemma ask for. */
    method Lookup(u: UserId) returns (room: Room?)
      requires Ready()
      ensures room != null <==> EngineModel.InRoom(View(), u)
      ensures room != null ==> Registered(room) && u in room.participants && u in users && users[u] == room
      ensures room != null ==> View().users[u] == room.id && EngineModel.RoomOf(View(), u) == room.View()
    {
      IndexDecides(u);
      room := RoomForUser(u);
      assert room != null ==> room.Repr() <= Objects();
    }

    ghost predicate Registered(room: Room)
      reads `rooms, rooms.Values, room, Objects()
    {
      room.id in rooms && rooms[room.id] == room && room.Repr() <= Objects() && room.Valid()
    }

    lemma Exist()
      ensures forall o :: o in Objects() ==> allocated(o) && o != this && (o is Room || o is Participant)
      ensures View().serial == serial && View().max == max && View().events == events
    {
    }

    /** May `asker` use the host controls on `target`? Then this is the room both are in. */
    method RequireHost(asker: UserId, target: UserId, admin: bool) returns (room: Room?)
      requires Ready()
      ensures room != null <==> EngineModel.Controls(View(), asker, target, admin)
      ensures room != null ==> Registered(room) && target in room.participants && target in users && users[target] == room
      ensures room != null ==> View().users[target] == room.id && EngineModel.RoomOf(View(), target) == room.View()
    {
      hide EngineInvariants.Inv, Forest, Room.Repr, Indexed, Room.Valid, Ready, View;
      Exist();
      var mine := Lookup(asker);
      if mine == null { return null; }
      var info := mine.InfoSnapshot(asker);
      if !(info.host || admin) { return null; }
      room := Lookup(target);
      if room != null && room.id != mine.id { return null; }
    }

    /** The room of `asker`, if they may control it as a whole. */
    method HostedBy(asker: UserId, admin: bool) returns (room: Room?)
      requires Ready()
      ensures room != null <==> EngineModel.InRoom(View(), asker) && (EngineModel.InfoOf(View(), asker).host || admin)
      ensures room != null ==> Registered(room) && View().users[asker] == room.id && EngineModel.RoomOf(View(), asker) == room.View()
    {
      hide EngineInvariants.Inv, Forest, Room.Repr, Indexed, Room.Valid, Ready, View;
      Exist();
      room := Lookup(asker);
      if room != null && !(room.participants[asker].info.host || admin) { return null; }
    }

    /** Room `id` became `r`, and `n` serials were used. */
    static function Moved(e: EngineModel.Engine, id: RoomId, r: RoomModel.Room, n: int): EngineModel.Engine
      requires n >= 0
    {
      if n == 0 then EngineModel.WithRoom(e, id, r) else EngineModel.WithRoom(e, id, r).(serial := e.serial + n)
    }

    /** What is left to show once a room operation has been done in place. */
    twostate lemma Done(room: Room, new op: EngineModel.Op)
      requires old(Ready()) && old(Registered(room)) && room.Valid() && serial >= old(serial)
      requires rooms == old(rooms) && users == old(users) && events == old(events)
      requires unchanged(old(Objects()) - old(room.Repr())) && room.Repr() == old(room.Repr())
      requires EngineModel.Enabled(old(View()), op)
      requires EngineModel.Step(old(View()), op) == Moved(old(View()), room.id, room.View(), serial - old(serial))
      ensures Ready() && View() == EngineModel.Step(old(View()), op)
    {
      hide EngineInvariants.Inv, EngineModel.Step, Room.View, Room.Valid, Room.Repr;
      OnlyRoom(room);
      EngineInvariants.StepKeeps(old(View()), op);
    }

    /** Force-mute a participant, optionally until unlocked. */
    method MuteRequest(asker: UserId, target: UserId, admin: bool, lock: bool) returns (ok: bool)
      requires Ready()
      modifies Objects()
      ensures Ready() && View() == EngineModel.Step(old(View()), EngineModel.MuteOp(asker, target, admin, lock))
      ensures ok == EngineModel.Controls(old(View()), asker, target, admin)
    {
      hide Ready, View, Room.View, Room.Valid, Objects, RoomModel.Mute;
      Exist();
      var room := RequireHost(asker, target, admin);
      ok := room != null;
      if ok {
        room.Mute(target, lock);
        Done(room, EngineModel.MuteOp(asker, target, admin, lock));
      }
    }

    /** Release a locked mute; the mic stays off until its owner unmutes. */
    method UnlockRequest(asker: UserId, target: UserId, admin: bool) returns (ok: bool)
      requires Ready()
      modifies Objects()
      ensures Ready() && View() == EngineModel.Step(old(View()), EngineModel.UnlockOp(asker, target, admin))
      ensures ok == EngineModel.Controls(old(View()), asker, target, admin)
    {
      hide Ready, View, Room.View, Room.Valid, Objects, RoomModel.Unlock;
      Exist();
      var room := RequireHost(asker, target, admin);
      ok := room != null;
      if ok {
        room.Unlock(target);
        Done(room, EngineModel.UnlockOp(asker, target, admin));
      }
    }

    /** Grant or revoke one participant's exception to presenter-only mode. */
    method SetPresenter(asker: UserId, target: UserId, allowed: bool, admin: bool) returns (ok: bool)
      requires Ready()
      modifies Objects()
      ensures Ready() && View() == EngineModel.Step(old(View()), EngineModel.PresenterOp(asker, target, allowed, admin))
      ensures ok == EngineModel.Controls(old(View()), asker, target, admin)
    {
      hide Ready, View, Room.View, Room.Valid, Objects, RoomModel.SetPresenter;
      Exist();
      var room := RequireHost(asker, target, admin);
      ok := room != null;
      if ok {
        room.SetPresenter(target, allowed);
        Done(room, EngineModel.PresenterOp(asker, target, allowed, admin));
      }
    }

    /** Toggle presenter-only mode. */
    method SetPresenterOnly(asker: UserId, enabled: bool, admin: bool) returns (ok: bool)
      requires Ready()
      modifies Objects()
      ensures Ready() && View() == EngineModel.Step(old(View()), EngineModel.PresenterOnlyOp(asker, enabled, admin))
      ensures ok == (EngineModel.InRoom(old(View()), asker) && (EngineModel.InfoOf(old(View()), asker).host || admin))
    {
      hide Ready, View, Room.View, Room.Valid, Objects, RoomModel.SetPresenterOnly;
      Exist();
      var room := HostedBy(asker, admin);
      ok := room != null;
      if ok {
        room.SetPresenterOnly(enabled);
        Done(room, EngineModel.PresenterOnlyOp(asker, enabled, admin));
      }
    }

    /** A client reports its toggles. */
    method HandleTrackState(u: UserId, st: RoomModel.TrackState)
      requires Ready()
      modifies Objects()
      ensures Ready() && View() == EngineModel.Step(old(View()), EngineModel.TrackStateOp(u, st))
    {
      hide Ready, View, Room.View, Room.Valid, Objects, RoomModel.OnTrackState;
      Exist();
      var room := Lookup(u);
      if room != null {
        room.OnTrackState(u, st);
        Done(room, EngineModel.TrackStateOp(u, st));
      }
    }

    /** The stream behind a track ended. */
    method TrackEnded(t: Track)
      requires Ready()
      modifies Objects()
      ensures Ready() && View() == EngineModel.Step(old(View()), EngineModel.TrackEndedOp(t))
    {
      hide Ready, View, Room.View, Room.Valid, Objects, RoomModel.TrackEnded;
      Exist();
      var room := Lookup(t.owner);
      if room != null {
        room.TrackEnded(t);
        Done(room, EngineModel.TrackEndedOp(t));
      }
    }

    /** A client answers the open offer. */
    method HandleSubAnswer(u: UserId)
      requires Ready()
      modifies Objects()
      ensures Ready() && View() == EngineModel.Step(old(View()), EngineModel.AnswerOp(u))
    {
      hide Ready, View, Room.View, Room.Valid, Objects, RoomModel.Answer;
      Exist();
      var room := Lookup(u);
      if room != null {
        room.Answer(u);
        Done(room, EngineModel.AnswerOp(u));
      }
    }

    /** The room owner takes the host role over. */
    method ClaimHost(id: RoomId, u: UserId)
      requires Ready()
      modifies Objects()
      ensures Ready() && View() == EngineModel.Step(old(View()), EngineModel.ClaimHostOp(id, u))
    {
      hide Ready, View, Room.View, Room.Valid, Objects, RoomModel.ClaimHost;
      Exist();
      ById(id);
      if id in rooms {
        var room := rooms[id];
        room.ClaimHost(u);
        Done(room, EngineModel.ClaimHostOp(id, u));
      }
    }

    lemma ById(id: RoomId)
      requires Ready()
      ensures id in rooms <==> id in View().rooms
      ensures id in rooms ==> Registered(rooms[id]) && rooms[id].id == id && View().rooms[id] == rooms[id].View()
    {
    }

    /** A track arrives; it gets an identity of its own. */
    method OnTrack(u: UserId, remote: Key, recent: bool)
      requires Ready()
      modifies `serial, Objects()
      ensures Ready() && View() == EngineModel.Step(old(View()), EngineModel.OnTrackOp(u, remote, recent))
    {
      hide Ready, View, Room.View, Room.Valid, Objects, RoomModel.OnTrack;
      Exist();
      var room := Lookup(u);
      if room != null {
        StillOpen(room, u);
        room.OnTrack(u, remote, recent, serial);
        serial := serial + 1;
        Done(room, EngineModel.OnTrackOp(u, remote, recent));
      }
    }

    /** A participant still listed in its room has not been closed. */
    lemma StillOpen(room: Room, u: UserId)
      requires Ready() && Registered(room) && u in room.participants
      ensures !room.participants[u].closed
    {
      hide RoomInvariants.Tidy, RoomInvariants.Forwards, RoomInvariants.Locks, RoomInvariants.Presenting,
        RoomInvariants.OneHost, RoomInvariants.Ordered, Subscriber.Inv, EngineInvariants.Index;
      EngineInvariants.RoomOk(View(), room.id);
      assert !room.View().members[u].sub.closed;
    }

    // ---- removal ----

    /** A room was dropped from the table. */
    twostate lemma Dropped(id: RoomId)
      requires old(Forest()) && rooms == old(rooms) - {id} && unchanged(old(Objects()))
      ensures Forest() && Rooms() == old(Rooms()) - {id} && Objects() <= old(Objects())
    {
      hide Room.View, Room.Valid, Room.Repr;
      forall i | i in rooms
        ensures rooms[i].Valid() && rooms[i].View() == old(rooms[i].View()) && rooms[i].Repr() == old(rooms[i].Repr())
      {
        assert old(rooms[i].Repr()) <= old(Objects());
        rooms[i].Untouched();
      }
      assert forall i :: i in rooms ==> rooms[i].Repr() <= Objects();
    }

    method ReleaseUser(u: UserId, room: Room)
      modifies `users
      ensures users == if u in old(users) && old(users)[u] == room then old(users) - {u} else old(users)
    {
      if u in users && users[u] == room {
        users := users - {u};
      }
    }

    lemma NoMembers(room: Room)
      requires room.id in rooms && rooms[room.id] == room
      ensures room.participants == map[] <==> Rooms()[room.id].members == map[]
    {
      room.NoKeys();
    }

    method IsEmptyThenDelete(room: Room) returns (done: bool)
      requires Forest()
      modifies `rooms
      ensures Forest() && Objects() <= old(Objects())
      ensures done <==> old(room.id in rooms && rooms[room.id] == room && Rooms()[room.id].members == map[])
      ensures Rooms() == if done then old(Rooms()) - {room.id} else old(Rooms())
      ensures rooms == if done then old(rooms) - {room.id} else old(rooms)
    {
      hide Forest, Objects, Room.View;
      Exist();
      if room.id !in rooms || rooms[room.id] != room { return false; }
      NoMembers(room);
      if room.participants != map[] { return false; }
      rooms := rooms - {room.id};
      Dropped(room.id);
      return true;
    }

    lemma Facts(room: Room, u: UserId)
      requires Ready() && Registered(room)
      ensures Forest() && Indexed()
      ensures var e := View();
              && e == EngineModel.Engine(max, Rooms(), Index(), serial, events)
              && room.id in e.rooms && e.rooms[room.id] == room.View()
              && (EngineModel.IsMember(e, room.id, u) <==> u in room.participants)
              && (u in room.participants ==> u in users && users[u] == room)
    {
      hide EngineInvariants.RoomsOk, Forest;
      assert EngineModel.IsMember(View(), room.id, u) <==> u in room.participants;
    }

    static lemma RemovalFields(e: EngineModel.Engine, id: RoomId, u: UserId, orders: EngineModel.Orders)
      requires EngineModel.IsMember(e, id, u) ==> u in e.users && e.users[u] == id
      ensures !EngineModel.IsMember(e, id, u) ==> EngineModel.RemoveFrom(e, id, u, orders) == e
      ensures EngineModel.IsMember(e, id, u) ==>
              var r, e' := RoomModel.Leave(e.rooms[id], u, orders), EngineModel.RemoveFrom(e, id, u, orders);
              && e'.max == e.max && e'.serial == e.serial && e'.users == e.users - {u}
              && (if r.members == map[]
                  then e'.rooms == e.rooms[id := r] - {id} && e'.events == e.events + [EngineModel.Left(id, u)] + [EngineModel.Closed(id)]
                  else e'.rooms == e.rooms[id := r] && e'.events == e.events + [EngineModel.Left(id, u)])
    {
      hide RoomModel.Leave;
    }

    /** What is left to show once a participant is gone, its user released and an empty room closed. */
    twostate lemma Removed(new id: RoomId, new u: UserId, new orders: EngineModel.Orders)
      requires old(Ready()) && Forest() && users == old(users) - {u} && serial == old(serial)
      requires EngineModel.IsMember(old(View()), id, u) && EngineModel.OrdersFit(old(View()), id, u, orders)
      requires Rooms() == EngineModel.RemoveFrom(old(View()), id, u, orders).rooms
      requires events == EngineModel.RemoveFrom(old(View()), id, u, orders).events
      requires forall i :: i in rooms ==> i in old(rooms) && rooms[i] == old(rooms[i])
      ensures Ready() && View() == EngineModel.RemoveFrom(old(View()), id, u, orders)
    {
      hide Forest, Rooms, Objects, Indexed, EngineInvariants.Inv, EngineModel.RemoveFrom, EngineModel.OrdersFit,
        EngineModel.IsMember, RoomModel.Leave, Room.View, Room.Valid, Room.Repr;
      Agreed(old(View()), id, u);
      EngineInvariants.RemoveFromKeeps(old(View()), id, u, orders);
      RemovalFields(old(View()), id, u, orders);
      assert Index() == old(Index()) - {u};
      StillIndexed();
    }

    static lemma Agreed(e: EngineModel.Engine, id: RoomId, u: UserId)
      requires EngineInvariants.Inv(e) && EngineModel.IsMember(e, id, u)
      ensures u in e.users && e.users[u] == id
    {
      hide EngineInvariants.RoomsOk;
    }

    /** When the views are consistent, so are the references. */
    twostate lemma StillIndexed()
      requires old(Indexed()) && EngineInvariants.Inv(View())
      requires forall v :: v in users ==> v in old(users) && users[v] == old(users[v])
      requires forall i :: i in rooms ==> i in old(rooms) && rooms[i] == old(rooms[i])
      ensures Indexed()
    {
      hide Room.View, EngineInvariants.RoomsOk;
      forall v | v in users ensures users[v].id in rooms {
        assert v in View().users && EngineModel.IsMember(View(), View().users[v], v);
      }
    }

    /**
     The room forgets a participant, the index forgets the user if it still points here, and the
     room is closed behind the last one.
     */
    method Remove(room: Room, u: UserId) returns (ghost orders: EngineModel.Orders)
      requires Ready() && Registered(room)
      modifies `rooms, `users, `events, Objects()
      ensures Ready() && Objects() <= old(Objects())
      ensures EngineModel.OrdersFit(old(View()), room.id, u, orders)
      ensures View() == EngineModel.RemoveFrom(old(View()), room.id, u, orders)
    {
      hide Ready, View, Forest, Indexed, Rooms, Objects, Room.View, Room.Valid, EngineModel.RemoveFrom, EngineModel.IsMember,
        RoomModel.Leave, RoomModel.DropOrders;
      orders := map[];
      Facts(room, u);
      Exist();
      if u !in room.participants {
        RemovalFields(View(), room.id, u, orders);
        return;
      }
      orders := room.Leave(u);
      OnlyRoom(room);
      Exist();
      ReleaseUser(u, room);
      events := events + [EngineModel.Left(room.id, u)];
      var done := IsEmptyThenDelete(room);
      if done {
        events := events + [EngineModel.Closed(room.id)];
      }
      RemovalFields(old(View()), room.id, u, orders);
      Removed(room.id, u, orders);
    }

    method Leave(u: UserId) returns (ghost orders: EngineModel.Orders)
      requires Ready()
      modifies `rooms, `users, `events, Objects()
      ensures Ready() && Objects() <= old(Objects())
      ensures EngineModel.Enabled(old(View()), EngineModel.LeaveOp(u, orders))
      ensures View() == EngineModel.Step(old(View()), EngineModel.LeaveOp(u, orders))
    {
      hide Ready, View, Forest, Indexed, Objects, Room.View, Room.Valid, EngineModel.RemoveFrom;
      orders := map[];
      IndexDecides(u);
      Consistent(u);
      Exist();
      var room := Lookup(u);
      if room != null {
        orders := Remove(room, u);
      }
    }

    lemma Consistent(u: UserId)
      requires Ready()
      ensures u in View().users ==> EngineModel.InRoom(View(), u)
    {
    }

    /** Targeted eviction: nothing happens to somebody who is in another room. */
    method LeaveRoom(id: RoomId, u: UserId) returns (done: bool, ghost orders: EngineModel.Orders)
      requires Ready()
      modifies `rooms, `users, `events, Objects()
      ensures Ready() && Objects() <= old(Objects())
      ensures EngineModel.Enabled(old(View()), EngineModel.LeaveRoomOp(id, u, orders))
      ensures View() == EngineModel.Step(old(View()), EngineModel.LeaveRoomOp(id, u, orders))
      ensures done == EngineModel.IsMember(old(View()), id, u)
    {
      hide Ready, View, Forest, Indexed, Objects, Room.View, Room.Valid;
      orders, done := map[], false;
      ById(id);
      Exist();
      if id in rooms {
        Facts(rooms[id], u);
        done := u in rooms[id].participants;
        if done {
          orders := Remove(rooms[id], u);
        }
      }
    }

    /** Remove a participant on the host's behalf. */
    method KickRequest(asker: UserId, target: UserId, admin: bool) returns (ok: bool, ghost orders: EngineModel.Orders)
      requires Ready()
      modifies `rooms, `users, `events, Objects()
      ensures Ready() && Objects() <= old(Objects())
      ensures EngineModel.Enabled(old(View()), EngineModel.KickOp(asker, target, admin, orders))
      ensures View() == EngineModel.Step(old(View()), EngineModel.KickOp(asker, target, admin, orders))
      ensures ok == EngineModel.Controls(old(View()), asker, target, admin)
    {
      hide Ready, View, Forest, Indexed, Objects, Room.View, Room.Valid, EngineModel.RemoveFrom, EngineModel.OrdersFit;
      orders := map[];
      if target in View().users {
        orders := SomeOrders(View(), View().users[target], target);
      }
      Exist();
      var room := RequireHost(asker, target, admin);
      ok := room != null;
      if ok {
        orders := Remove(room, target);
      }
    }

    // ---- joining ----

    static lemma SomeOrders(e: EngineModel.Engine, id: RoomId, u: UserId) returns (orders: EngineModel.Orders)
      ensures EngineModel.OrdersFit(e, id, u, orders)
    {
      orders := map[];
      if EngineModel.IsMember(e, id, u) {
        var ts := Listing(RoomModel.PublishedBy(e.rooms[id], u));
        orders := map v | v in e.rooms[id].members :: ts;
      }
    }

    static lemma Listing(s: set<Track>) returns (ts: seq<Track>)
      ensures RoomModel.Enumerates(ts, s)
    {
      ts := [];
      if s != {} {
        var t :| t in s;
        ts := Listing(s - {t});
        RoomModel.EnumeratesOneMore(ts, t, s - {t});
        ts := ts + [t];
        assert s - {t} + {t} == s;
      }
    }

    /** The room called `id`, made if there is none. */
    method Open(id: RoomId) returns (room: Room, created: bool)
      requires Forest()
      modifies `rooms
      ensures Forest() && id in rooms && rooms[id] == room && Registered(room) && room.id == id
      ensures !created ==> rooms == old(rooms)
      ensures created == (id !in old(rooms)) && rooms == old(rooms)[id := room] && (created ==> fresh(room) && room.participants == map[])
      ensures fresh(Objects() - old(Objects())) && room.View() == if created then RoomModel.EMPTY else old(Rooms())[id]
      ensures Rooms() == old(Rooms())[id := room.View()] && (old(Indexed()) ==> Indexed())
    {
      hide Room.View, Room.Valid, Room.Repr;
      Exist();
      created := id !in rooms;
      if created {
        room := new Room(id);
        rooms := rooms[id := room];
        Added(id);
      } else {
        room := rooms[id];
      }
    }

    /** Rooms are as they were when no object was touched. */
    twostate lemma AllUntouched()
      requires old(Forest()) && unchanged(old(Objects()))
      ensures forall i :: i in old(rooms) ==>
                var r := old(rooms[i]);
                r.Valid() && r.View() == old(r.View()) && r.Repr() == old(r.Repr()) && old(r.Repr()) <= old(Objects())
    {
      hide Room.View, Room.Valid, Room.Repr;
      forall i | i in old(rooms)
        ensures var r := old(rooms[i]); r.Valid() && r.View() == old(r.View()) && r.Repr() == old(r.Repr())
      {
        assert old(rooms[i].Repr()) <= old(Objects());
        old(rooms[i]).Untouched();
      }
    }

    /** A new room was registered. */
    twostate lemma Added(id: RoomId)
      requires old(Forest()) && id !in old(rooms) && id in rooms && rooms == old(rooms)[id := rooms[id]]
      requires rooms[id].Repr() == {rooms[id]} && rooms[id] !in old(Objects()) && rooms[id].id == id && rooms[id].Valid()
      requires unchanged(old(Objects()))
      ensures Forest() && Rooms() == old(Rooms())[id := rooms[id].View()]
      ensures Objects() == old(Objects()) + {rooms[id]}
    {
      hide Room.View, Room.Valid, Room.Repr;
      StillThere(id);
      assert Objects() == old(Objects()) + {rooms[id]} by { hide Forest; OneMoreObject(id); }
    }

    twostate lemma OneMoreObject(id: RoomId)
      requires id !in old(rooms) && id in rooms && rooms == old(rooms)[id := rooms[id]]
      requires rooms[id].Repr() == {rooms[id]}
      requires forall i :: i in old(rooms) ==> rooms[i].Repr() == old(rooms[i].Repr())
      ensures Objects() == old(Objects()) + {rooms[id]}
    {
      hide Room.Repr;
    }

    twostate lemma StillThere(id: RoomId)
      requires old(Forest()) && id !in old(rooms) && id in rooms && rooms == old(rooms)[id := rooms[id]]
      requires unchanged(old(Objects()))
      ensures forall i :: i in old(rooms) ==>
                && rooms[i].Valid() && rooms[i].View() == old(rooms[i].View())
                && rooms[i].Repr() == old(rooms[i].Repr()) && old(rooms[i].Repr()) <= old(Objects())
    {
      hide Room.View, Room.Valid, Room.Repr, Objects;
      AllUntouched();
      forall i | i in old(rooms) ensures rooms[i] == old(rooms[i]) {}
    }

    /** What one pass of the join loop amounts to when it ends the loop. */
    static function Once(e: EngineModel.Engine, id: RoomId, u: UserId, video: bool, ts: seq<Track>): (EngineModel.Engine, EngineModel.Joining) {
      if EngineModel.IsElsewhere(e, id, u) then (e, EngineModel.Elsewhere)
      else if EngineModel.IsMember(e, id, u) then (EngineModel.WithRoom(e, id, RoomModel.Resume(e.rooms[id], u)), EngineModel.Resumed)
      else EngineModel.Admit(e, id, u, video, ts)
    }

    static lemma OnceFields(e: EngineModel.Engine, id: RoomId, u: UserId, video: bool, ts: seq<Track>)
      ensures EngineModel.IsElsewhere(e, id, u) ==> Once(e, id, u, video, ts) == (e, EngineModel.Elsewhere)
      ensures !EngineModel.IsElsewhere(e, id, u) && EngineModel.IsMember(e, id, u) ==>
                Once(e, id, u, video, ts) == (EngineModel.WithRoom(e, id, RoomModel.Resume(e.rooms[id], u)), EngineModel.Resumed)
      ensures !EngineModel.IsElsewhere(e, id, u) && !EngineModel.IsMember(e, id, u) ==>
                Once(e, id, u, video, ts) == EngineModel.Admit(e, id, u, video, ts)
    {
      hide EngineModel.Admit, RoomModel.Resume;
    }

    /** A room made for nothing is taken back. */
    method Withdraw(room: Room, created: bool)
      modifies `rooms
      ensures rooms == if created then old(rooms) - {room.id} else old(rooms)
    {
      if created {
        rooms := rooms - {room.id};
      }
    }

    /** A newcomer enters: participant, index entry, join order and events. */
    method Settle(room: Room, u: UserId, video: bool, created: bool) returns (ghost ts: seq<Track>)
      requires Forest() && Registered(room) && u !in room.participants
      modifies `users, `events, Objects()
      ensures Forest() && fresh(Objects() - old(Objects()))
      ensures RoomModel.Enumerates(ts, RoomModel.PublishedByOthers(old(room.View()), u))
      ensures Rooms() == old(Rooms())[room.id := RoomModel.Enter(old(room.View()), u, video, ts)]
      ensures Index() == old(Index())[u := room.id] && (old(Indexed()) ==> Indexed())
      ensures events == old(events) + (if created then [EngineModel.Created(room.id, u)] else []) + [EngineModel.Joined(room.id, u)]
    {
      hide *;
      Exist();
      ts := Admit(room, u, video);
      Exist();
      Reserve(room, u);
      if created {
        events := events + [EngineModel.Created(room.id, u)];
      }
      events := events + [EngineModel.Joined(room.id, u)];
    }

    /** Make and list the participant. */
    method Admit(room: Room, u: UserId, video: bool) returns (ghost ts: seq<Track>)
      requires Forest() && Registered(room) && u !in room.participants
      modifies Objects()
      ensures Forest() && fresh(Objects() - old(Objects())) && room.id in rooms && rooms[room.id] == room
      ensures RoomModel.Enumerates(ts, RoomModel.PublishedByOthers(old(room.View()), u))
      ensures Rooms() == old(Rooms())[room.id := RoomModel.Enter(old(room.View()), u, video, ts)]
    {
      hide Forest, Objects, Rooms, Room.View, Room.Valid, RoomModel.Enter, RoomModel.Enumerates;
      Exist();
      ts := room.Enter(u, video);
      OnlyRoom(room);
    }

    /** The index entry. */
    method Reserve(room: Room, u: UserId)
      requires room.id in rooms && rooms[room.id] == room
      modifies `users
      ensures Index() == old(Index())[u := room.id] && (old(Indexed()) ==> Indexed())
    {
      users := users[u := room];
    }

    lemma Places(room: Room)
      ensures |room.View().members| == |room.participants|
    {
      assert room.Members().Keys == room.participants.Keys;
      assert |room.Members().Keys| == |room.Members()| && |room.participants.Keys| == |room.participants|;
    }

    static lemma AdmitFields(e: EngineModel.Engine, id: RoomId, u: UserId, video: bool, ts: seq<Track>)
      ensures var r, e' := EngineModel.RoomOrNew(e, id), EngineModel.Admit(e, id, u, video, ts).0;
              && EngineModel.Admit(e, id, u, video, ts).1 == (if |r.members| >= e.max then EngineModel.Full else EngineModel.Admitted)
              && e'.max == e.max && e'.serial == e.serial
              && if |r.members| >= e.max then e' == e
                 else
                   && e'.rooms == e.rooms[id := RoomModel.Enter(r, u, video, ts)] && e'.users == e.users[u := id]
                   && e'.events == e.events + (if id in e.rooms then [] else [EngineModel.Created(id, u)]) + [EngineModel.Joined(id, u)]
    {
      hide RoomModel.Enter;
    }

    /** Where `u` and room `id` stand, in terms of the view. */
    lemma Located(id: RoomId, u: UserId)
      requires Ready()
      ensures Forest() && Indexed()
      ensures EngineModel.IsElsewhere(View(), id, u) <==> u in users && (id !in rooms || users[u] != rooms[id])
      ensures EngineModel.IsMember(View(), id, u) <==> id in rooms && u in rooms[id].participants
      ensures EngineModel.IsMember(View(), id, u) ==> u in users && users[u] == rooms[id]
      ensures u in View().users <==> u in users
      ensures u in users ==> EngineModel.IsElsewhere(View(), id, u) || EngineModel.IsMember(View(), id, u)
      ensures View() == EngineModel.Engine(max, Rooms(), Index(), serial, events)
      ensures id in rooms <==> id in Rooms()
      ensures id in rooms ==> Rooms()[id] == rooms[id].View()
      ensures EngineModel.RoomOrNew(View(), id) == if id in rooms then rooms[id].View() else RoomModel.EMPTY
    {
      hide EngineInvariants.RoomsOk, Room.View, Room.Valid;
      if id in rooms {
        assert rooms[id].Repr() <= Objects();
        Facts(rooms[id], u);
      }
    }

    /** A user who is already in the room: resumed, or dropped as stale so that the join starts again. */
    method Existing(room: Room, u: UserId, video: bool, keep: bool) returns (ghost orders: EngineModel.Orders)
      requires Ready() && Registered(room) && u in room.participants
      modifies `rooms, `users, `events, Objects()
      ensures Ready() && Objects() <= old(Objects())
      ensures EngineModel.OrdersFit(old(View()), room.id, u, orders)
      ensures View() == if keep then EngineModel.WithRoom(old(View()), room.id, RoomModel.Resume(old(View()).rooms[room.id], u))
                        else EngineModel.RemoveFrom(old(View()), room.id, u, orders)
    {
      hide Ready, View, Forest, Objects, Room.View, Room.Valid, EngineModel.RemoveFrom, EngineModel.OrdersFit, RoomModel.Enumerates;
      Exist();
      Facts(room, u);
      if keep {
        orders := SomeOrders(View(), room.id, u);
        ghost var ts := Listing(RoomModel.PublishedByOthers(EngineModel.RoomOrNew(View(), room.id), u));
        room.Resume(u);
        Done(room, EngineModel.JoinOp(room.id, u, video, true, true, orders, ts));
      } else {
        orders := Remove(room, u);
      }
    }

    /** Room `room` has been opened for a user who is in no room; otherwise the engine is as `e` says. */
    ghost predicate Opened(e: EngineModel.Engine, room: Room, u: UserId, created: bool)
      reads this, rooms.Values, Objects(), room, room.participants.Values
    {
      && Forest() && Indexed() && Registered(room) && EngineInvariants.Inv(e) && u !in e.users
      && created == (room.id !in e.rooms) && room.View() == EngineModel.RoomOrNew(e, room.id)
      && e.(rooms := e.rooms[room.id := room.View()]) == View()
    }

    /** A user who is in no room enters this one. */
    method Newcomer(room: Room, u: UserId, video: bool, created: bool, ghost e: EngineModel.Engine) returns (ghost ts: seq<Track>)
      requires Opened(e, room, u, created) && |room.View().members| < max
      modifies `users, `events, Objects()
      ensures Ready() && fresh(Objects() - old(Objects()))
      ensures RoomModel.Enumerates(ts, RoomModel.PublishedByOthers(EngineModel.RoomOrNew(e, room.id), u))
      ensures (View(), EngineModel.Admitted) == Once(e, room.id, u, video, ts)
    {
      hide *;
      Exist();
      NotListed(e, room, u, created);
      ts := Settle(room, u, video, created);
      Welcomed(e, room.id, u, video, ts);
    }

    /** A user who is in no room enters this one if there is a place; otherwise a new room is taken back. */
    method Admission(room: Room, u: UserId, video: bool, created: bool, ghost e: EngineModel.Engine)
      returns (result: EngineModel.Joining, ghost ts: seq<Track>)
      requires Opened(e, room, u, created)
      modifies `rooms, `users, `events, Objects()
      ensures Ready() && fresh(Objects() - old(Objects()))
      ensures RoomModel.Enumerates(ts, RoomModel.PublishedByOthers(EngineModel.RoomOrNew(e, room.id), u))
      ensures (View(), result) == Once(e, room.id, u, video, ts)
    {
      hide *;
      NotListed(e, room, u, created);
      Places(room);
      if |room.participants| >= max {
        ts := Listing(RoomModel.PublishedByOthers(EngineModel.RoomOrNew(e, room.id), u));
        TurnedAway(e, room.id, u, video, ts);
        Exist();
        Withdraw(room, created);
        if created {
          Dropped(room.id);
        }
        AsBefore(e);
        result := EngineModel.Full;
      } else {
        ts := Newcomer(room, u, video, created, e);
        result := EngineModel.Admitted;
      }
    }

    lemma AsBefore(e: EngineModel.Engine)
      requires Forest() && EngineInvariants.Inv(e) && max == e.max && serial == e.serial && events == e.events
      requires Rooms() == e.rooms && Index() == e.users
      requires forall u :: u in users && users[u].id in rooms ==> rooms[users[u].id] == users[u]
      ensures Ready() && View() == e
    {
      hide Forest, Room.View, EngineInvariants.RoomsOk;
      forall u | u in users ensures users[u].id in rooms {
        assert u in e.users && EngineModel.IsMember(e, e.users[u], u);
      }
    }

    lemma JustOpened(e: EngineModel.Engine, room: Room, u: UserId, created: bool)
      requires Forest() && Indexed() && Registered(room) && EngineInvariants.Inv(e)
      requires created == (room.id !in e.rooms) && room.View() == if created then RoomModel.EMPTY else e.rooms[room.id]
      requires Rooms() == e.rooms[room.id := room.View()] && Index() == e.users
      requires max == e.max && serial == e.serial && events == e.events
      ensures u !in e.users ==> Opened(e, room, u, created)
    {
      hide Forest, Indexed, Registered, EngineInvariants.Inv, Rooms, Index;
    }

    lemma NotListed(e: EngineModel.Engine, room: Room, u: UserId, created: bool)
      requires Opened(e, room, u, created)
      ensures u !in room.participants && Forest() && Indexed() && Registered(room) && EngineInvariants.Inv(e) && u !in e.users
      ensures room.id in rooms
      ensures created == (room.id !in e.rooms) && room.View() == EngineModel.RoomOrNew(e, room.id)
      ensures e.max == max && e.serial == serial && e.events == events && e.users == Index()
      ensures e.rooms[room.id := room.View()] == Rooms()
      ensures e.rooms == (if created then Rooms() - {room.id} else Rooms())
      ensures forall v :: v in users ==> users[v].id in rooms && rooms[users[v].id] == users[v]
    {
      hide Forest, EngineInvariants.RoomsOk;
      assert room.View().members.Keys == room.participants.Keys;
      assert u in room.participants && room.id in e.rooms ==> EngineModel.IsMember(e, room.id, u);
    }

    /** What is left to show once a newcomer has settled. */
    lemma Welcomed(e: EngineModel.Engine, id: RoomId, u: UserId, video: bool, ts: seq<Track>)
      requires Forest() && Indexed() && EngineInvariants.Inv(e) && u !in e.users && id in rooms
      requires var r := EngineModel.RoomOrNew(e, id);
               && RoomModel.Enumerates(ts, RoomModel.PublishedByOthers(r, u)) && |r.members| < max
               && Rooms() == e.rooms[id := r][id := RoomModel.Enter(r, u, video, ts)]
      requires Index() == e.users[u := id] && serial == e.serial && max == e.max
      requires events == e.events + (if id in e.rooms then [] else [EngineModel.Created(id, u)]) + [EngineModel.Joined(id, u)]
      ensures Ready() && (View(), EngineModel.Admitted) == Once(e, id, u, video, ts)
    {
      hide Forest, Objects, Indexed, Room.View, Room.Valid, EngineInvariants.Inv, EngineModel.Admit, EngineModel.RoomOrNew,
        EngineModel.IsMember, RoomModel.Enumerates, RoomModel.Enter, RoomModel.PublishedByOthers, Once;
      Outside(e, id, u);
      EngineInvariants.AdmitKeeps(e, id, u, video, ts);
      AdmitFields(e, id, u, video, ts);
      OnceFields(e, id, u, video, ts);
      ghost var r, s := EngineModel.RoomOrNew(e, id), RoomModel.Enter(EngineModel.RoomOrNew(e, id), u, video, ts);
      assert e.rooms[id := r][id := s] == e.rooms[id := s];
    }

    static lemma Outside(e: EngineModel.Engine, id: RoomId, u: UserId)
      requires EngineInvariants.Inv(e) && u !in e.users
      ensures !EngineModel.IsElsewhere(e, id, u) && !EngineModel.IsMember(e, id, u)
    {
      hide EngineInvariants.RoomsOk;
    }

    static lemma TurnedAway(e: EngineModel.Engine, id: RoomId, u: UserId, video: bool, ts: seq<Track>)
      requires EngineInvariants.Inv(e) && u !in e.users && |EngineModel.RoomOrNew(e, id).members| >= e.max
      ensures Once(e, id, u, video, ts) == (e, EngineModel.Full)
    {
      hide EngineInvariants.Inv;
      Outside(e, id, u);
    }

    /** One pass of the join loop; a stale participant of the same user is dropped and the pass repeated. */
    method Attempt(id: RoomId, u: UserId, video: bool, resume: bool, alive: bool)
      returns (again: bool, result: EngineModel.Joining, ghost orders: EngineModel.Orders, ghost ts: seq<Track>)
      requires Ready()
      modifies `rooms, `users, `events, Objects()
      ensures Ready() && fresh(Objects() - old(Objects()))
      ensures var e := old(View());
              again <==> !EngineModel.IsElsewhere(e, id, u) && EngineModel.IsMember(e, id, u) && !(resume && alive)
      ensures again ==> EngineModel.OrdersFit(old(View()), id, u, orders)
      ensures again ==> View() == EngineModel.RemoveFrom(old(View()), id, u, orders)
      ensures RoomModel.Enumerates(ts, RoomModel.PublishedByOthers(EngineModel.RoomOrNew(old(View()), id), u))
      ensures !again ==> (View(), result) == Once(old(View()), id, u, video, ts)
    {
      hide *;
      ts := Listing(RoomModel.PublishedByOthers(EngineModel.RoomOrNew(View(), id), u));
      again, result, orders := false, EngineModel.Elsewhere, map[];
      Located(id, u);
      OnceFields(View(), id, u, video, ts);
      Exist();
      Consists();
      ghost var e := View();
      var room, created := Open(id);
      JustOpened(e, room, u, created);
      if u in users && users[u] != room {
        Withdraw(room, created);
        assert rooms == old(rooms) && Objects() == old(Objects());
      } else if u in room.participants {
        assert rooms == old(rooms) && Objects() == old(Objects());
        again := !(resume && alive);
        result := EngineModel.Resumed;
        orders := Existing(room, u, video, resume && alive);
      } else {
        ghost var known := Objects();
        label Opened:
        result, ts := Admission(room, u, video, created, e);
        forall o | o in Objects() && o !in old(Objects()) ensures fresh(o) {
          assert o in known ==> fresh(o);
          assert o !in known ==> fresh@Opened(o);
        }
      }
    }

    /** A join that ends on the first pass, and one that first drops a stale participant. */
    static lemma JoinByHand(e: EngineModel.Engine, id: RoomId, u: UserId, video: bool, resume: bool, alive: bool,
                            orders: EngineModel.Orders, ts: seq<Track>)
      requires EngineInvariants.Inv(e) && EngineModel.OrdersFit(e, id, u, orders)
      ensures var stale := !EngineModel.IsElsewhere(e, id, u) && EngineModel.IsMember(e, id, u) && !(resume && alive);
              var e1 := if stale then EngineModel.RemoveFrom(e, id, u, orders) else e;
              && EngineInvariants.Inv(e1)
              && (stale ==> EngineModel.RoomOrNew(e, id) == e.rooms[id] && u !in e1.users && !EngineModel.IsMember(e1, id, u))
              && RoomModel.PublishedByOthers(EngineModel.RoomOrNew(e1, id), u) == RoomModel.PublishedByOthers(EngineModel.RoomOrNew(e, id), u)
              && Once(e1, id, u, video, ts) == EngineModel.Join(e, id, u, video, resume, alive, orders, ts)
    {
      hide EngineInvariants.Inv, EngineModel.RemoveFrom, EngineModel.OrdersFit, EngineModel.Admit, RoomModel.Resume,
        RoomModel.PublishedByOthers;
      if EngineModel.IsMember(e, id, u) {
        EngineInvariants.RemoveFromKeeps(e, id, u, orders);
        EngineInvariants.OthersStay(e, id, u, orders);
        JustReleased(e, id, u, orders);
      }
    }

    static lemma JustReleased(e: EngineModel.Engine, id: RoomId, u: UserId, orders: EngineModel.Orders)
      requires EngineInvariants.Inv(e) && EngineModel.OrdersFit(e, id, u, orders) && EngineModel.IsMember(e, id, u)
      ensures u !in EngineModel.RemoveFrom(e, id, u, orders).users
    {
      hide EngineInvariants.Inv, EngineModel.RemoveFrom, EngineModel.OrdersFit;
      EngineInvariants.RemoveFromKeeps(e, id, u, orders);
    }

    /** Join a room, first dropping a stale participant of the same user; the loop runs at most twice. */
    method Join(id: RoomId, u: UserId, video: bool, resume: bool, alive: bool)
      returns (result: EngineModel.Joining, ghost orders: EngineModel.Orders, ghost ts: seq<Track>)
      requires Ready()
      modifies `rooms, `users, `events, Objects()
      ensures Ready() && fresh(Objects() - old(Objects()))
      ensures EngineModel.Enabled(old(View()), EngineModel.JoinOp(id, u, video, resume, alive, orders, ts))
      ensures (View(), result) == EngineModel.Join(old(View()), id, u, video, resume, alive, orders, ts)
    {
      hide *;
      ghost var e := View();
      ghost var fit := SomeOrders(e, id, u);
      Exist();
      Consists();
      var again;
      again, result, orders, ts := Attempt(id, u, video, resume, alive);
      orders := if again then orders else fit;
      JoinByHand(e, id, u, video, resume, alive, orders, ts);
      while again
        invariant Ready() && fresh(Objects() - old(Objects()))
        invariant EngineModel.OrdersFit(e, id, u, orders)
        invariant again ==> !EngineModel.IsElsewhere(e, id, u) && EngineModel.IsMember(e, id, u) && !(resume && alive)
        invariant again ==> View() == EngineModel.RemoveFrom(e, id, u, orders)
        invariant !again ==> RoomModel.Enumerates(ts, RoomModel.PublishedByOthers(EngineModel.RoomOrNew(e, id), u))
        invariant !again ==> (View(), result) == EngineModel.Join(e, id, u, video, resume, alive, orders, ts)
        decreases again
      {
        Exist();
        ghost var unused, known := orders, Objects();
        label Again:
        again, result, unused, ts := Attempt(id, u, video, resume, alive);
        forall o | o in Objects() && o !in old(Objects()) ensures fresh(o) {
          assert o in known ==> fresh(o);
          assert o !in known ==> fresh@Again(o);
        }
        JoinByHand(e, id, u, video, resume, alive, orders, ts);
      }
      MayJoin(e, id, u, video, resume, alive, orders, ts);
    }

    lemma Consists()
      requires Ready()
      ensures EngineInvariants.Inv(View())
    {
    }

    static lemma MayJoin(e: EngineModel.Engine, id: RoomId, u: UserId, video: bool, resume: bool, alive: bool,
                         orders: EngineModel.Orders, ts: seq<Track>)
      requires EngineModel.OrdersFit(e, id, u, orders)
      requires RoomModel.Enumerates(ts, RoomModel.PublishedByOthers(EngineModel.RoomOrNew(e, id), u))
      ensures EngineModel.Enabled(e, EngineModel.JoinOp(id, u, video, resume, alive, orders, ts))
    {
    }

    // ---- closing a room ----

    /** The members of a room in join order. */
    method RoomUserIDs(id: RoomId) returns (list: seq<UserId>)
      requires Ready()
      ensures forall i, j :: 0 <= i < j < |list| ==> list[i] != list[j]
      ensures forall u :: u in list <==> EngineModel.IsMember(View(), id, u)
      ensures list == EngineModel.RoomOrNew(View(), id).order
    {
      hide Ready, View, Forest, Indexed, Objects, Room.View, Room.Valid;
      list := [];
      ById(id);
      if id !in rooms { return; }
      var room := rooms[id];
      OrderLists(room);
      for i := 0 to |room.order|
        invariant list == room.order[..i]
      {
        if room.order[i] in room.participants {
          list := list + [room.order[i]];
        }
      }
    }

    lemma OrderLists(room: Room)
      requires Ready() && Registered(room)
      ensures forall i, j :: 0 <= i < j < |room.order| ==> room.order[i] != room.order[j]
      ensures forall u :: u in room.order <==> u in room.participants
      ensures EngineModel.RoomOrNew(View(), room.id).order == room.order
      ensures forall i :: 0 <= i < |room.order| ==> room.order[i] in room.participants
      ensures forall u :: EngineModel.IsMember(View(), room.id, u) <==> u in room.participants
    {
      hide RoomInvariants.Tidy, RoomInvariants.Forwards, RoomInvariants.Locks, RoomInvariants.Presenting,
        RoomInvariants.OneHost, RoomInvariants.SubsOk, EngineInvariants.Inv, EngineModel.IsMember, Forest, Objects;
      Consists();
      Facts(room, 0);
      EngineInvariants.RoomOk(View(), room.id);
      assert room.View().members.Keys == room.participants.Keys;
      forall u ensures EngineModel.IsMember(View(), room.id, u) <==> u in room.participants { Facts(room, u); }
    }

    /** Every member is made to leave, which closes the room. */
    method CloseRoom(id: RoomId) returns (ghost ops: seq<EngineModel.Op>)
      requires Ready()
      modifies `rooms, `users, `events, Objects()
      ensures Ready() && Objects() <= old(Objects())
      ensures EngineModel.Possible(old(View()), ops) && View() == EngineModel.Run(old(View()), ops)
      ensures EngineModel.LeavesOf(EngineModel.RoomOrNew(old(View()), id).order, ops)
      ensures id !in View().rooms
      ensures forall i :: i in old(View()).rooms && i != id ==> i in View().rooms && View().rooms[i] == old(View()).rooms[i]
    {
      hide Ready, View, Objects, Forest, EngineInvariants.Inv, EngineModel.Enabled, EngineModel.Step;
      ops := [];
      Exist();
      Consists();
      var list := RoomUserIDs(id);
      ghost var e := View();
      for i := 0 to |list|
        invariant Ready() && Objects() <= old(Objects()) && EngineInvariants.Inv(View())
        invariant EngineModel.Possible(e, ops) && View() == EngineModel.Run(e, ops)
        invariant |ops| == i && forall j :: 0 <= j < i ==> ops[j].LeaveOp? && ops[j].user == list[j]
        invariant EngineInvariants.Except(e, View(), id)
        invariant forall u :: EngineModel.IsMember(View(), id, u) <==> u in list[i..]
      {
        ghost var now := View();
        Exist();
        ghost var orders := Leave(list[i]);
        assert list[i..] == [list[i]] + list[i + 1..];
        EngineInvariants.LeavesAlone(now, id, list[i], orders);
        EngineInvariants.OneMore(e, ops, EngineModel.LeaveOp(list[i], orders));
        ops := ops + [EngineModel.LeaveOp(list[i], orders)];
      }
      EngineInvariants.NobodyLeft(View(), id);
    }
  }
}
