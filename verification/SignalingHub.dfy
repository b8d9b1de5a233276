/**
 The hub as the server keeps it: connections, delayed departures and their tokens, over the engine and
 the call manager, all changed in place. Every method is tied to one operation of the value model.
 */
module SignalingHub {
  import opened Media
  import SfuEngine
  import RoomModel
  import P2PManager
  import HubModel
  import LeaveTimers
  import EngineModel
  import EngineInvariants
  import CallModel

  class Client {
    const id: nat
    const user: UserId
    const deviceID: string
    var finishing: bool

    constructor (id: nat, user: UserId, deviceID: string)
      ensures View() == HubModel.Conn(user, deviceID, false) && this.id == id && this.user == user
    {
      this.id, this.user, this.deviceID, finishing := id, user, deviceID, false;
    }

    ghost function View(): HubModel.Conn
      reads this
    {
      HubModel.Conn(user, deviceID, finishing)
    }

    /** Say goodbye once; whatever the client sends afterwards is ignored. */
    method Finish()
      modifies this
      ensures View() == old(View()).(finishing := true)
    {
      if finishing { return; }
      finishing := true;
    }
  }

  /** The hub's departure timers; which timers run and which callbacks wait is the runtime's business. */
  class Departures {
    var roomLeaveTimers: map<UserId, LeaveTimers.Timer>
    var roomLeaveTokens: map<UserId, nat>
    ghost var running: set<LeaveTimers.Timer>
    ghost var queue: seq<LeaveTimers.Timer>
    var serials: nat

    constructor ()
      ensures View() == LeaveTimers.IDLE
    {
      roomLeaveTimers, roomLeaveTokens, running, queue, serials := map[], map[], {}, [], 0;
    }

    ghost function View(): LeaveTimers.Clock
      reads this
    {
      LeaveTimers.Clock(roomLeaveTimers, roomLeaveTokens, running, queue, serials)
    }

    method Stop(u: UserId)
      modifies `running
      ensures View() == LeaveTimers.Stop(old(View()), u)
    {
      if u in roomLeaveTimers {
        running := running - {roomLeaveTimers[u]};
      }
    }

    method ScheduleRoomLeave(u: UserId)
      modifies this
      ensures View() == LeaveTimers.Schedule(old(View()), u)
    {
      Stop(u);
      var token := 1;
      if u in roomLeaveTokens {
        token := roomLeaveTokens[u] + 1;
      }
      var t := LeaveTimers.Timer(u, token, serials);
      roomLeaveTokens := roomLeaveTokens[u := token];
      roomLeaveTimers := roomLeaveTimers[u := t];
      running := running + {t};
      serials := serials + 1;
    }

    method CancelRoomLeave(u: UserId)
      modifies this
      ensures View() == LeaveTimers.Cancel(old(View()), u)
    {
      if u in roomLeaveTimers {
        Stop(u);
        roomLeaveTimers := roomLeaveTimers - {u};
      }
      var token := 0;
      if u in roomLeaveTokens {
        token := roomLeaveTokens[u];
      }
      roomLeaveTokens := roomLeaveTokens[u := token + 1];
    }

    /** A waiting callback got the lock: is its departure still due? */
    method Due(u: UserId, token: nat, ghost k: nat) returns (due: bool)
      requires k < |queue| && queue[k].user == u && queue[k].token == token
      modifies this
      ensures due == LeaveTimers.Counts(old(View()), old(queue)[k])
      ensures View() == LeaveTimers.Take(old(View()), k)
    {
      queue := queue[..k] + queue[k + 1..];
      var current := if u in roomLeaveTokens then roomLeaveTokens[u] else 0;
      if current != token { return false; }
      roomLeaveTimers := roomLeaveTimers - {u};
      roomLeaveTokens := roomLeaveTokens - {u};
      return true;
    }
  }

  class Hub {
    const engine: SfuEngine.Engine
    const p2p: P2PManager.Manager
    const departures: Departures
    var clients: map<UserId, Client>
    var next: nat
    ghost var conns: map<nat, Client>

    constructor (engine: SfuEngine.Engine, p2p: P2PManager.Manager)
      requires engine.Ready() && p2p.Valid()
      ensures Valid() && this.engine == engine && this.p2p == p2p && clients == map[]
      ensures View() == HubModel.Hub(map[], map[], 0, LeaveTimers.IDLE, engine.View(), p2p.View())
    {
      this.engine, this.p2p := engine, p2p;
      departures := new Departures();
      clients, next, conns := map[], 0, map[];
    }

    /** Connections are known by their identity, and clients are connections. */
    ghost predicate Valid()
      reads this, engine, engine.rooms.Values, engine.Objects(), p2p, p2p.calls.Values
    {
      && engine.Ready() && p2p.Valid()
      && (forall u :: u in clients ==> clients[u].id in conns && conns[clients[u].id] == clients[u] && clients[u].user == u)
      && (forall n :: n in conns ==> conns[n].id == n && n < next)
    }

    ghost function Clients(): map<UserId, nat>
      reads `clients
    {
      map u | u in clients :: clients[u].id
    }

    ghost function Conns(): map<nat, HubModel.Conn>
      reads `conns, conns.Values
    {
      map n | n in conns :: conns[n].View()
    }

    ghost function View(): HubModel.Hub
      reads this, departures, conns.Values, engine, engine.rooms.Values, engine.Objects(), p2p, p2p.db, p2p.calls.Values
    {
      HubModel.Hub(Clients(), Conns(), next, departures.View(), engine.View(), p2p.View())
    }

    // ---- one part at a time ----

    method FinishClient(c: Client)
      requires Valid() && c.id in conns && conns[c.id] == c
      modifies c
      ensures Valid() && View() == old(View()).(conns := HubModel.Finish(old(View()).conns, c.id))
    {
      hide SfuEngine.Engine.Ready, SfuEngine.Engine.View, SfuEngine.Engine.Objects, P2PManager.Manager.View,
        P2PManager.Manager.Valid, Departures.View;
      engine.Exist();
      c.Finish();
      assert Conns() == HubModel.Finish(old(Conns()), c.id);
    }

    method LeaveRooms(u: UserId) returns (ghost orders: EngineModel.Orders)
      requires Valid()
      modifies engine`rooms, engine`users, engine`events, engine.Objects()
      ensures Valid() && HubModel.Fits(old(View()).engine, u, orders)
      ensures View() == HubModel.Leave(old(View()), u, orders)
      ensures engine.Objects() <= old(engine.Objects())
    {
      hide SfuEngine.Engine.Ready, SfuEngine.Engine.View, SfuEngine.Engine.Objects, P2PManager.Manager.View,
        P2PManager.Manager.Valid, Departures.View, EngineModel.Step, EngineModel.Enabled;
      engine.Exist();
      orders := engine.Leave(u);
    }

    method Cancel(u: UserId)
      requires Valid()
      modifies departures
      ensures Valid() && View() == HubModel.Cancelled(old(View()), u)
    {
      hide SfuEngine.Engine.Ready, SfuEngine.Engine.View, SfuEngine.Engine.Objects, P2PManager.Manager.View,
        P2PManager.Manager.Valid, Departures.View, EngineModel.Step, EngineModel.Enabled, LeaveTimers.Cancel;
      engine.Exist();
      departures.CancelRoomLeave(u);
    }

    method Schedule(u: UserId)
      requires Valid()
      modifies departures
      ensures Valid() && View() == old(View()).(clock := LeaveTimers.Schedule(old(View()).clock, u))
    {
      hide SfuEngine.Engine.Ready, SfuEngine.Engine.View, SfuEngine.Engine.Objects, P2PManager.Manager.View,
        P2PManager.Manager.Valid, Departures.View, EngineModel.Step, EngineModel.Enabled, LeaveTimers.Schedule;
      engine.Exist();
      departures.ScheduleRoomLeave(u);
    }

    method Disconnect(u: UserId)
      requires Valid()
      modifies p2p, p2p.db, p2p.calls.Values
      ensures Valid() && View() == old(View()).(p2p := CallModel.Disconnect(old(View()).p2p, u))
    {
      hide SfuEngine.Engine.Ready, SfuEngine.Engine.View, SfuEngine.Engine.Objects, P2PManager.Manager.View,
        P2PManager.Manager.Valid, Departures.View, EngineModel.Step, EngineModel.Enabled, CallModel.Disconnect;
      engine.Exist();
      p2p.OnDisconnect(u);
    }

    method Drop(u: UserId)
      requires Valid()
      modifies p2p
      ensures Valid() && View() == old(View()).(p2p := CallModel.Drop(old(View()).p2p, u))
    {
      hide SfuEngine.Engine.Ready, SfuEngine.Engine.View, SfuEngine.Engine.Objects, P2PManager.Manager.View,
        P2PManager.Manager.Valid, Departures.View, EngineModel.Step, EngineModel.Enabled, CallModel.Drop;
      engine.Exist();
      p2p.ScheduleDisconnect(u);
    }

    /** The server signs a user out: the room and the call are left at once. */
    method KickUser(u: UserId) returns (ghost orders: EngineModel.Orders)
      requires Valid()
      modifies conns.Values, departures, engine`rooms, engine`users, engine`events, engine.Objects(), p2p, p2p.db, p2p.calls.Values
      ensures Valid() && HubModel.Fits(old(View()).engine, u, orders)
      ensures View() == HubModel.KickUser(old(View()), u, orders)
    {
      hide *;
      Reads();
      engine.Exist();
      if u in clients {
        FinishClient(clients[u]);
      }
      Cancel(u);
      orders := LeaveRooms(u);
      Disconnect(u);
      KickParts(old(View()), u, orders);
    }

    static lemma KickParts(h: HubModel.Hub, u: UserId, orders: EngineModel.Orders)
      ensures var h1 := if u in h.clients then h.(conns := HubModel.Finish(h.conns, h.clients[u])) else h;
              var h2 := HubModel.Leave(HubModel.Cancelled(h1, u), u, orders);
              && HubModel.KickUser(h, u, orders) == h2.(p2p := CallModel.Disconnect(h2.p2p, u))
              && HubModel.Cancelled(h1, u).engine == h.engine
    {
      hide LeaveTimers.Cancel, EngineModel.Step, CallModel.Disconnect;
    }

    lemma Reads()
      requires Valid()
      ensures View().clients == Clients() && Clients().Keys == clients.Keys
      ensures forall u :: u in clients ==> Clients()[u] == clients[u].id && clients[u].id < next
      ensures View().next == next && View().conns == Conns() && View().engine == engine.View() && View().p2p == p2p.View()
      ensures forall u :: u in clients ==> clients[u].id in conns && conns[clients[u].id] == clients[u] && clients[u] in conns.Values
    {
    }

    // ---- connecting and disconnecting ----

    method Enlist(c: Client)
      requires Valid() && c.id == next
      modifies this
      ensures Valid() && View() == old(View()).(clients := old(View()).clients[c.user := c.id],
                                                conns := old(View()).conns[c.id := c.View()], next := next)
      ensures next == old(next) + 1 && conns == old(conns)[c.id := c] && clients == old(clients)[c.user := c]
    {
      hide SfuEngine.Engine.Ready, SfuEngine.Engine.View, SfuEngine.Engine.Objects, P2PManager.Manager.View,
        P2PManager.Manager.Valid, Departures.View, EngineModel.Step, EngineModel.Enabled;
      engine.Exist();
      clients := clients[c.user := c];
      conns := conns[next := c];
      next := next + 1;
      assert Conns() == old(Conns())[c.id := c.View()];
      assert Clients() == old(Clients())[c.user := c.id];
    }

    /** A connection arrives; one that spoke for its user before is finished. */
    method Register(u: UserId, device: string) returns (c: Client)
      requires Valid()
      modifies this, conns.Values, departures, p2p, p2p.db, p2p.calls.Values
      ensures Valid() && fresh(c) && u in clients && clients[u] == c
      ensures View() == HubModel.Register(old(View()), u, device)
    {
      hide *;
      Reads();
      DeviceReads(u, device);
      engine.Exist();
      c := new Client(next, u, device);
      if u !in clients {
        Enlist(c);
      } else {
        var last := clients[u];
        Schedule(u);
        Enlist(c);
        FinishClient(last);
        if last.deviceID != "" && last.deviceID == device {
          Drop(u);
        } else {
          Disconnect(u);
        }
        RegisterParts(old(View()), u, device);
      }
    }

    lemma DeviceReads(u: UserId, device: string)
      requires Valid()
      ensures u in clients ==>
                (HubModel.SameDevice(View(), clients[u].id, device) <==> clients[u].deviceID != "" && clients[u].deviceID == device)
      ensures u !in clients ==>
                HubModel.Register(View(), u, device)
                == View().(clients := View().clients[u := next], conns := View().conns[next := HubModel.Conn(u, device, false)], next := next + 1)
    {
    }

    static lemma RegisterParts(h: HubModel.Hub, u: UserId, device: string)
      requires u in h.clients && h.clients[u] != h.next
      ensures var n, last := h.next, h.clients[u];
              var h1 := h.(clock := LeaveTimers.Schedule(h.clock, u));
              var h2 := h1.(clients := h1.clients[u := n], conns := h1.conns[n := HubModel.Conn(u, device, false)], next := n + 1);
              var h3 := h2.(conns := HubModel.Finish(h2.conns, last));
              HubModel.Register(h, u, device) ==
                h3.(p2p := if HubModel.SameDevice(h, last, device) then CallModel.Drop(h.p2p, u) else CallModel.Disconnect(h.p2p, u))
    {
      hide LeaveTimers.Schedule, CallModel.Drop, CallModel.Disconnect, HubModel.SameDevice;
    }

    /** A torn-down connection no longer counts as one. */
    method Forget(c: Client)
      requires Valid() && c.id in conns && conns[c.id] == c && !(c.user in clients && clients[c.user] == c)
      modifies `conns
      ensures Valid() && View() == old(View()).(conns := old(View()).conns - {c.id})
    {
      hide SfuEngine.Engine.Ready, SfuEngine.Engine.View, SfuEngine.Engine.Objects, P2PManager.Manager.View,
        P2PManager.Manager.Valid, Departures.View, EngineModel.Step, EngineModel.Enabled;
      engine.Exist();
      conns := conns - {c.id};
      assert Conns() == old(Conns()) - {c.id};
    }

    method Delist(u: UserId)
      requires Valid() && u in clients
      modifies `clients
      ensures Valid() && View() == old(View()).(clients := old(View()).clients - {u}) && clients == old(clients) - {u}
    {
      hide SfuEngine.Engine.Ready, SfuEngine.Engine.View, SfuEngine.Engine.Objects, P2PManager.Manager.View,
        P2PManager.Manager.Valid, Departures.View, EngineModel.Step, EngineModel.Enabled;
      engine.Exist();
      clients := clients - {u};
      assert Clients() == old(Clients()) - {u};
    }

    /** A connection is torn down; unless it was replaced before, room and call are left after a delay. */
    method Unregister(c: Client)
      requires Valid() && c.id in conns && conns[c.id] == c
      modifies this, departures, p2p
      ensures Valid() && View() == HubModel.Unregister(old(View()), c.id)
    {
      hide *;
      Reads();
      ConnReads(c);
      engine.Exist();
      var u := c.user;
      if u in clients && clients[u] == c {
        Delist(u);
        Schedule(u);
        Drop(u);
      }
      Forget(c);
      UnregisterParts(old(View()), c.id);
    }

    lemma ConnReads(c: Client)
      requires Valid() && c.id in conns && conns[c.id] == c
      ensures c.id in View().conns && View().conns[c.id] == c.View() && c.View().user == c.user
      ensures c.user in clients ==> (clients[c.user].id == c.id <==> clients[c.user] == c)
      ensures HubModel.Speaks(View(), c.id) <==> !c.finishing
    {
    }

    static lemma UnregisterParts(h: HubModel.Hub, n: nat)
      requires n in h.conns
      ensures var u := h.conns[n].user;
              var h1 := h.(clients := h.clients - {u});
              var h2 := h1.(clock := LeaveTimers.Schedule(h1.clock, u));
              var h3 := h2.(p2p := CallModel.Drop(h2.p2p, u));
              HubModel.Unregister(h, n) ==
                if u in h.clients && h.clients[u] == n then h3.(conns := h3.conns - {n}) else h.(conns := h.conns - {n})
    {
      hide LeaveTimers.Schedule, CallModel.Drop;
    }

    // ---- rooms ----

    /** The client leaves its room. */
    method HandleRoomLeave(c: Client) returns (ghost orders: EngineModel.Orders)
      requires Valid() && c.id in conns && conns[c.id] == c && !c.finishing
      modifies departures, engine`rooms, engine`users, engine`events, engine.Objects()
      ensures Valid() && HubModel.Enabled(old(View()), HubModel.LeaveOp(c.id, orders))
      ensures View() == HubModel.Step(old(View()), HubModel.LeaveOp(c.id, orders))
    {
      hide *;
      ConnReads(c);
      engine.Exist();
      Cancel(c.user);
      orders := LeaveRooms(c.user);
      LeaveParts(old(View()), c.id, orders);
    }

    static lemma LeaveParts(h: HubModel.Hub, n: nat, orders: EngineModel.Orders)
      requires HubModel.Speaks(h, n)
      ensures var u := h.conns[n].user;
              && HubModel.Step(h, HubModel.LeaveOp(n, orders)) == HubModel.Leave(HubModel.Cancelled(h, u), u, orders)
              && (HubModel.Enabled(h, HubModel.LeaveOp(n, orders)) <==> HubModel.Fits(HubModel.Cancelled(h, u).engine, u, orders))
    {
      hide LeaveTimers.Cancel, EngineModel.Step, EngineModel.Enabled;
    }

    /** A member removed from a group is taken out of that group's room, and only out of that one. */
    method EvictFromGroupRoom(id: RoomId, u: UserId) returns (done: bool, ghost orders: EngineModel.Orders)
      requires Valid()
      modifies departures, engine`rooms, engine`users, engine`events, engine.Objects()
      ensures Valid() && HubModel.Enabled(old(View()), HubModel.EvictOp(id, u, orders))
      ensures View() == HubModel.Evict(old(View()), id, u, orders)
      ensures done == EngineModel.IsMember(old(View()).engine, id, u)
    {
      hide SfuEngine.Engine.Ready, SfuEngine.Engine.View, SfuEngine.Engine.Objects, P2PManager.Manager.View,
        P2PManager.Manager.Valid, Departures.View, EngineModel.Step, EngineModel.Enabled, LeaveTimers.Cancel, Departures.View, EngineModel.IsMember;
      engine.Exist();
      departures.CancelRoomLeave(u);
      done, orders := engine.LeaveRoom(id, u);
    }

    /** A departure callback gets the lock. */
    method ExpireRoomLeave(u: UserId, token: nat, ghost k: nat) returns (ghost orders: EngineModel.Orders)
      requires Valid() && k < |departures.queue| && departures.queue[k].user == u && departures.queue[k].token == token
      modifies departures, engine`rooms, engine`users, engine`events, engine.Objects()
      ensures Valid() && View() == HubModel.Expire(old(View()), k, orders)
      ensures HubModel.Enabled(old(View()), HubModel.ExpireOp(k, orders))
    {
      hide *;
      orders := AnyLeave(engine.View(), u);
      QueueReads();
      Reads();
      engine.Exist();
      var due := TakeDue(u, token, k);
      if due {
        orders := LeaveRooms(u);
      }
      ExpireFits(old(View()), k, orders);
      ExpireParts(old(View()), k, orders);
    }

    static lemma AnyLeave(e: EngineModel.Engine, u: UserId) returns (orders: EngineModel.Orders)
      ensures EngineModel.Enabled(e, EngineModel.LeaveOp(u, orders))
    {
      orders := map[];
      if u in e.users { orders := SfuEngine.Engine.SomeOrders(e, e.users[u], u); }
    }

    static lemma ExpireFits(h: HubModel.Hub, k: nat, orders: EngineModel.Orders)
      requires k < |h.clock.queue|
      requires HubModel.Fits(h.engine, h.clock.queue[k].user, orders)
               || EngineModel.Enabled(h.engine, EngineModel.LeaveOp(h.clock.queue[k].user, orders))
      ensures HubModel.Enabled(h, HubModel.ExpireOp(k, orders))
    {
      hide EngineModel.Enabled;
    }

    lemma QueueReads()
      requires Valid()
      ensures View().clock.queue == departures.queue
    {
    }

    method TakeDue(u: UserId, token: nat, ghost k: nat) returns (due: bool)
      requires Valid() && k < |departures.queue| && departures.queue[k].user == u && departures.queue[k].token == token
      modifies departures
      ensures Valid() && k < |old(View()).clock.queue|
      ensures View() == old(View()).(clock := LeaveTimers.Take(old(View()).clock, k))
      ensures due == LeaveTimers.Counts(old(View()).clock, old(View()).clock.queue[k])
    {
      hide SfuEngine.Engine.Ready, SfuEngine.Engine.View, SfuEngine.Engine.Objects, P2PManager.Manager.View,
        P2PManager.Manager.Valid, EngineModel.Step, EngineModel.Enabled, LeaveTimers.Take;
      engine.Exist();
      due := departures.Due(u, token, k);
    }

    static lemma ExpireParts(h: HubModel.Hub, k: nat, orders: EngineModel.Orders)
      requires k < |h.clock.queue|
      ensures var h1 := h.(clock := LeaveTimers.Take(h.clock, k));
              HubModel.Expire(h, k, orders) ==
                if LeaveTimers.Counts(h.clock, h.clock.queue[k]) then HubModel.Leave(h1, h.clock.queue[k].user, orders) else h1
    {
    }

    method JoinRoom(id: RoomId, u: UserId, video: bool, resume: bool, alive: bool)
      returns (result: EngineModel.Joining, ghost orders: EngineModel.Orders, ghost ts: seq<Track>)
      requires Valid()
      modifies engine`rooms, engine`users, engine`events, engine.Objects()
      ensures Valid() && fresh(engine.Objects() - old(engine.Objects()))
      ensures EngineModel.Enabled(old(View()).engine, EngineModel.JoinOp(id, u, video, resume, alive, orders, ts))
      ensures View() == old(View()).(engine := View().engine)
      ensures (View().engine, result) == EngineModel.Join(old(View()).engine, id, u, video, resume, alive, orders, ts)
    {
      hide SfuEngine.Engine.Ready, SfuEngine.Engine.View, SfuEngine.Engine.Objects, P2PManager.Manager.View,
        P2PManager.Manager.Valid, Departures.View, EngineModel.Step, EngineModel.Enabled, EngineModel.Join;
      engine.Exist();
      result, orders, ts := engine.Join(id, u, video, resume, alive);
    }

    method ClaimHost(id: RoomId, u: UserId)
      requires Valid()
      modifies engine.Objects()
      ensures Valid() && View() == old(View()).(engine := EngineModel.Step(old(View()).engine, EngineModel.ClaimHostOp(id, u)))
    {
      hide SfuEngine.Engine.Ready, SfuEngine.Engine.View, SfuEngine.Engine.Objects, P2PManager.Manager.View,
        P2PManager.Manager.Valid, Departures.View, EngineModel.Step, EngineModel.Enabled;
      engine.Exist();
      engine.ClaimHost(id, u);
    }

    /** A join that passed the membership and private-room checks. */
    method HandleRoomJoin(c: Client, id: RoomId, video: bool, resume: bool, alive: bool, owner: bool) returns (ghost join: EngineModel.Op)
      requires Valid() && c.id in conns && conns[c.id] == c && !c.finishing
      modifies departures, engine`rooms, engine`users, engine`events, engine.Objects()
      ensures Valid() && join.JoinOp? && join.id == id && join.user == c.user
      ensures join.video == video && join.resume == resume && join.alive == alive
      ensures HubModel.Enabled(old(View()), HubModel.JoinOp(c.id, join, owner))
      ensures View() == HubModel.Step(old(View()), HubModel.JoinOp(c.id, join, owner))
    {
      hide *;
      join := AnyJoin(engine.View(), id, c.user, video, resume, alive);
      ConnReads(c);
      CallReads(c.user);
      EngineReads();
      Reads();
      engine.Exist();
      if c.user in p2p.byUser && p2p.byUser[c.user] in p2p.calls {
        InCallJoins(View(), join, owner);
        JoinHandled(View(), c.id, join, owner);
        return;
      }
      ghost var orders, ts;
      var result;
      result, orders, ts := JoinRoom(id, c.user, video, resume, alive);
      join := EngineModel.JoinOp(id, c.user, video, resume, alive, orders, ts);
      JoinHandled(old(View()), c.id, join, owner);
      JoinParts(old(View()), join, owner);
      if result == EngineModel.Elsewhere || result == EngineModel.Full { return; }
      Cancel(c.user);
      if owner {
        ClaimHost(id, c.user);
      }
    }

    lemma CallReads(u: UserId)
      requires Valid()
      ensures HubModel.InCall(View(), u) <==> u in p2p.byUser && p2p.byUser[u] in p2p.calls
    {
    }

    static lemma AnyJoin(e: EngineModel.Engine, id: RoomId, u: UserId, video: bool, resume: bool, alive: bool)
      returns (join: EngineModel.Op)
      ensures join.JoinOp? && join.id == id && join.user == u && join.video == video && join.resume == resume && join.alive == alive
      ensures EngineModel.Enabled(e, join)
    {
      var orders := SfuEngine.Engine.SomeOrders(e, id, u);
      var ts := SfuEngine.Engine.Listing(RoomModel.PublishedByOthers(EngineModel.RoomOrNew(e, id), u));
      join := EngineModel.JoinOp(id, u, video, resume, alive, orders, ts);
      SfuEngine.Engine.MayJoin(e, id, u, video, resume, alive, orders, ts);
    }

    static lemma JoinHandled(h: HubModel.Hub, n: nat, join: EngineModel.Op, owner: bool)
      requires HubModel.Speaks(h, n) && join.JoinOp? && n in h.conns && join.user == h.conns[n].user
      requires EngineModel.Enabled(h.engine, join)
      ensures HubModel.Enabled(h, HubModel.JoinOp(n, join, owner))
      ensures HubModel.Step(h, HubModel.JoinOp(n, join, owner)) == HubModel.Join(h, join, owner)
    {
      hide EngineModel.Enabled, HubModel.Join;
    }

    static lemma InCallJoins(h: HubModel.Hub, join: EngineModel.Op, owner: bool)
      requires join.JoinOp? && HubModel.InCall(h, join.user)
      ensures HubModel.Join(h, join, owner) == h
    {
    }

    static lemma JoinParts(h: HubModel.Hub, join: EngineModel.Op, owner: bool)
      requires join.JoinOp? && !HubModel.InCall(h, join.user)
      requires EngineInvariants.Inv(h.engine) && EngineModel.Enabled(h.engine, join)
      ensures var (e, result) := EngineModel.Join(h.engine, join.id, join.user, join.video, join.resume, join.alive, join.orders, join.ts);
              var h1 := HubModel.Cancelled(h.(engine := e), join.user);
              && (result == EngineModel.Elsewhere || result == EngineModel.Full ==> HubModel.Join(h, join, owner) == h && e == h.engine)
              && (result != EngineModel.Elsewhere && result != EngineModel.Full ==>
                    HubModel.Join(h, join, owner)
                    == if owner then h1.(engine := EngineModel.Step(h1.engine, EngineModel.ClaimHostOp(join.id, join.user))) else h1)
    {
      hide LeaveTimers.Cancel, EngineModel.Step, EngineModel.Join, EngineModel.Enabled, EngineInvariants.Inv;
      EngineInvariants.JoinKeeps(h.engine, join.id, join.user, join.video, join.resume, join.alive, join.orders, join.ts);
    }

    /** A room is closed because its group was deleted. */
    method CloseRoom(id: RoomId) returns (ghost ops: seq<EngineModel.Op>)
      requires Valid()
      modifies engine`rooms, engine`users, engine`events, engine.Objects()
      ensures Valid() && View() == HubModel.Step(old(View()), HubModel.CloseRoomOp(id, ops))
      ensures HubModel.Enabled(old(View()), HubModel.CloseRoomOp(id, ops))
      ensures id !in View().engine.rooms
    {
      hide SfuEngine.Engine.Ready, SfuEngine.Engine.View, SfuEngine.Engine.Objects, P2PManager.Manager.View,
        P2PManager.Manager.Valid, Departures.View, EngineModel.Step, EngineModel.Enabled, EngineModel.Run, EngineModel.Possible;
      engine.Exist();
      ops := engine.CloseRoom(id);
    }

    // ---- direct calls ----

    /** Place a call, unless one of the two is in a conference. */
    method HandleCallInvite(c: Client, callee: UserId, id: CallModel.CallId, known: bool)
      requires Valid() && c.id in conns && conns[c.id] == c && !c.finishing
      modifies p2p, p2p.db
      ensures Valid()
      ensures View() == HubModel.Step(old(View()), HubModel.CallOp(c.id, HubModel.InviteMsg(callee, id, known)))
    {
      hide *;
      Reads();
      ConnReads(c);
      EngineReads();
      engine.Exist();
      var inRoom := c.user in engine.users || callee in engine.users;
      InviteParts(View(), c.id, callee, id, known);
      Invite(c.user, callee, id, known, inRoom, callee in clients);
    }

    lemma EngineReads()
      requires Valid()
      ensures View().engine.users.Keys == engine.users.Keys && EngineInvariants.Inv(View().engine)
    {
    }

    method Invite(caller: UserId, callee: UserId, id: CallModel.CallId, known: bool, inRoom: bool, online: bool)
      requires Valid()
      modifies p2p, p2p.db
      ensures Valid()
      ensures View() == old(View()).(p2p := CallModel.Step(old(View()).p2p, CallModel.InviteOp(caller, callee, id, known, inRoom, online)))
    {
      hide SfuEngine.Engine.Ready, SfuEngine.Engine.View, SfuEngine.Engine.Objects, P2PManager.Manager.View,
        P2PManager.Manager.Valid, Departures.View, EngineModel.Step, EngineModel.Enabled, CallModel.Invite;
      engine.Exist();
      p2p.Invite(caller, callee, id, known, inRoom, online);
    }

    static lemma InviteParts(h: HubModel.Hub, n: nat, callee: UserId, id: CallModel.CallId, known: bool)
      requires HubModel.Speaks(h, n)
      ensures var u := h.conns[n].user;
              HubModel.Step(h, HubModel.CallOp(n, HubModel.InviteMsg(callee, id, known)))
              == h.(p2p := CallModel.Step(h.p2p, CallModel.InviteOp(u, callee, id, known, u in h.engine.users || callee in h.engine.users,
                                                                    callee in h.clients)))
    {
      hide CallModel.Step;
    }
  }
}
