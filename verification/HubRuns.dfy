/** Runs of a new hub that reach the states in which it keeps its promises no longer. */
module HubRuns {
  import opened Media
  import opened HubModel
  import HubProperties
  import LeaveTimers
  import EngineModel
  import EngineInvariants
  import RoomModel
  import CallModel

  lemma {:induction false} OneMore(h: Hub, ops: seq<Op>, op: Op)
    requires Possible(h, ops) && Enabled(Run(h, ops), op)
    ensures Possible(h, ops + [op]) && Run(h, ops + [op]) == Step(Run(h, ops), op)
    decreases ops
  {
    hide Enabled, Step;
    if ops == [] {
      assert [op][1..] == [];
    } else {
      OneMore(Step(h, ops[0]), ops[1..], op);
      assert (ops + [op])[1..] == ops[1..] + [op];
    }
  }

  const ROOM := "priv:x"

  /** User 7 alone joins the room, and alone leaves it. */
  const JOIN := EngineModel.JoinOp(ROOM, 7, true, false, false, map[], [])

  ghost predicate Nobody(e: EngineModel.Engine) {
    e.rooms == map[] && e.users == map[] && e.max >= 1
  }

  ghost predicate Alone(e: EngineModel.Engine) {
    && EngineInvariants.Inv(e) && e.rooms.Keys == {ROOM} && e.rooms[ROOM].members.Keys == {7}
    && e.users == map[7 := ROOM] && e.max >= 1
  }

  lemma JoinAlone(e: EngineModel.Engine)
    requires Nobody(e)
    ensures EngineModel.Enabled(e, JOIN)
    ensures var (f, result) := EngineModel.Join(e, ROOM, 7, true, false, false, map[], []);
            result == EngineModel.Admitted && Alone(f)
  {
    assert RoomModel.PublishedByOthers(RoomModel.EMPTY, 7) == {};
    EmptyInv(e);
    hide EngineInvariants.Inv, EngineModel.Join;
    EngineInvariants.JoinKeeps(e, ROOM, 7, true, false, false, map[], []);
    var f := EngineModel.Join(e, ROOM, 7, true, false, false, map[], []).0;
    KeepsMax(e);
    OnlyMember(f);
  }

  lemma EmptyInv(e: EngineModel.Engine)
    requires Nobody(e)
    ensures EngineInvariants.Inv(e)
  {
  }

  lemma KeepsMax(e: EngineModel.Engine)
    requires Nobody(e)
    ensures EngineModel.Join(e, ROOM, 7, true, false, false, map[], []).0.max == e.max
  {
    hide RoomModel.Enter;
  }

  lemma OnlyMember(f: EngineModel.Engine)
    requires EngineInvariants.Inv(f) && f.users == map[7 := ROOM] && f.max >= 1
    ensures Alone(f)
  {
    hide EngineInvariants.RoomsOk;
    assert 7 in f.users && f.users[7] == ROOM;
    forall id | id in f.rooms ensures id == ROOM {
      hide EngineInvariants.Inv;
      EngineInvariants.SomebodyThere(f, id);
      var u :| EngineModel.IsMember(f, id, u);
      Found(f, id, u);
    }
    forall u ensures u in f.rooms[ROOM].members <==> u == 7 {
      if EngineModel.IsMember(f, ROOM, u) { Found(f, ROOM, u); }
    }
  }

  lemma Found(f: EngineModel.Engine, id: RoomId, u: UserId)
    requires EngineInvariants.Inv(f) && EngineModel.IsMember(f, id, u)
    ensures u in f.users && f.users[u] == id
  {
    hide EngineInvariants.RoomsOk;
  }

  lemma LeaveAlone(e: EngineModel.Engine)
    requires Alone(e)
    ensures EngineModel.Enabled(e, EngineModel.LeaveOp(7, map[]))
    ensures Nobody(EngineModel.Step(e, EngineModel.LeaveOp(7, map[])))
  {
    hide EngineInvariants.Inv;
    var r := e.rooms[ROOM];
    assert forall v :: v in r.members ==> v in r.members.Keys && v == 7;
    assert EngineModel.InRoom(e, 7);
    LastLeaves(e);
  }

  lemma LastLeaves(e: EngineModel.Engine)
    requires Alone(e) && EngineModel.OrdersFit(e, ROOM, 7, map[])
    ensures Nobody(EngineModel.RemoveFrom(e, ROOM, 7, map[]))
  {
    hide EngineModel.OrdersFit, RoomModel.Leave;
    EngineInvariants.RemoveFromKeeps(e, ROOM, 7, map[]);
    EngineInvariants.RoomOk(e, ROOM);
    assert EngineModel.OrdersFit(e, ROOM, 7, map[]) && EngineModel.IsMember(e, ROOM, 7);
    var f := EngineModel.RemoveFrom(e, ROOM, 7, map[]);
    forall id ensures id !in f.rooms {
      assert id in f.rooms ==> id in e.rooms.Keys;
      if id in f.rooms { Emptied(e, f); }
    }
    assert f.users == map[];
  }

  lemma Emptied(e: EngineModel.Engine, f: EngineModel.Engine)
    requires EngineInvariants.Inv(f) && e.rooms.Keys == {ROOM} && e.rooms[ROOM].members.Keys == {7}
    requires |EngineModel.RoomOrNew(f, ROOM).members| == |e.rooms[ROOM].members| - 1
    ensures ROOM !in f.rooms
  {
    assert |e.rooms[ROOM].members.Keys| == |e.rooms[ROOM].members|;
    var rest := EngineModel.RoomOrNew(f, ROOM).members;
    assert rest == map[];
    forall u ensures !EngineModel.IsMember(f, ROOM, u) { assert u !in rest; }
    EngineInvariants.NobodyLeft(f, ROOM);
  }

  // ---- coming and going ----

  ghost predicate Quiet(p2p: CallModel.State) {
    p2p.calls == map[] && p2p.byUser == map[]
  }

  /** Nobody is connected. */
  ghost predicate Empty(h: Hub, c: LeaveTimers.Clock) {
    h.clients == map[] && h.conns == map[] && h.clock == c && Quiet(h.p2p)
  }

  /** User 7 alone is connected. */
  ghost predicate Here(h: Hub, c: LeaveTimers.Clock) {
    && Quiet(h.p2p) && h.clock == c && h.next >= 1
    && h.clients == map[7 := h.next - 1] && h.conns == map[h.next - 1 := Conn(7, "d", false)]
  }

  lemma Comes(start: Hub, ops: seq<Op>, c: LeaveTimers.Clock) returns (more: seq<Op>)
    requires Possible(start, ops) && Empty(Run(start, ops), c)
    ensures Possible(start, more) && Here(Run(start, more), c) && Run(start, more).engine == Run(start, ops).engine
  {
    hide Run, Possible;
    OneMore(start, ops, ConnectOp(7, "d"));
    more := ops + [ConnectOp(7, "d")];
  }

  lemma Goes(start: Hub, ops: seq<Op>, c: LeaveTimers.Clock) returns (more: seq<Op>)
    requires Possible(start, ops) && Here(Run(start, ops), c)
    ensures Possible(start, more) && Empty(Run(start, more), LeaveTimers.Schedule(c, 7))
    ensures Run(start, more).engine == Run(start, ops).engine
  {
    hide Run, Possible, LeaveTimers.Schedule;
    var h := Run(start, ops);
    OneMore(start, ops, CloseOp(h.next - 1));
    more := ops + [CloseOp(h.next - 1)];
  }

  lemma Fires(start: Hub, ops: seq<Op>, c: LeaveTimers.Clock, t: LeaveTimers.Timer) returns (more: seq<Op>)
    requires Possible(start, ops) && Empty(Run(start, ops), c)
    ensures Possible(start, more) && Empty(Run(start, more), LeaveTimers.Fire(c, t))
    ensures Run(start, more).engine == Run(start, ops).engine
  {
    hide Run, Possible, LeaveTimers.Fire;
    OneMore(start, ops, FireOp(t));
    more := ops + [FireOp(t)];
  }

  lemma Joins(start: Hub, ops: seq<Op>, c: LeaveTimers.Clock) returns (more: seq<Op>)
    requires Possible(start, ops) && Here(Run(start, ops), c) && Nobody(Run(start, ops).engine)
    ensures Possible(start, more) && Here(Run(start, more), LeaveTimers.Cancel(c, 7)) && Alone(Run(start, more).engine)
  {
    hide Run, Possible, LeaveTimers.Cancel, EngineModel.Join, EngineModel.Enabled, Alone, Nobody;
    var h := Run(start, ops);
    JoinAlone(h.engine);
    OneMore(start, ops, JoinOp(h.next - 1, JOIN, false));
    more := ops + [JoinOp(h.next - 1, JOIN, false)];
  }

  // ---- a token is issued twice ----

  const FIRST := LeaveTimers.FIRST
  const SECOND := LeaveTimers.SECOND

  /** 7 comes and goes, and comes back and joins; it goes again; both callbacks wait. */
  lemma TwoCallbacksWait(max: int, p2p: CallModel.State) returns (ops: seq<Op>)
    requires max >= 1 && Quiet(p2p)
    ensures var h := Run(New(max, p2p), ops);
            && Possible(New(max, p2p), ops) && Alone(h.engine)
            && Empty(h, LeaveTimers.Clock(map[7 := SECOND], map[7 := 3], {}, [FIRST, SECOND], 2))
  {
    hide Run, Possible, Alone;
    var start := New(max, p2p);
    var c0, c1 := LeaveTimers.IDLE, LeaveTimers.Schedule(LeaveTimers.IDLE, 7);
    assert c1 == LeaveTimers.Clock(map[7 := FIRST], map[7 := 1], {FIRST}, [], 1);
    var c2 := LeaveTimers.Fire(c1, FIRST);
    assert c2 == LeaveTimers.Clock(map[7 := FIRST], map[7 := 1], {}, [FIRST], 1);
    var c3 := LeaveTimers.Cancel(c2, 7);
    assert c3 == LeaveTimers.Clock(map[], map[7 := 2], {}, [FIRST], 1);
    var c4 := LeaveTimers.Schedule(c3, 7);
    assert c4 == LeaveTimers.Clock(map[7 := SECOND], map[7 := 3], {SECOND}, [FIRST], 2);
    assert LeaveTimers.Fire(c4, SECOND) == LeaveTimers.Clock(map[7 := SECOND], map[7 := 3], {}, [FIRST, SECOND], 2);
    hide LeaveTimers.Schedule, LeaveTimers.Fire, LeaveTimers.Cancel;
    Begins(max, p2p);
    ops := Comes(start, [], c0);
    ops := Goes(start, ops, c0);
    ops := Fires(start, ops, c1, FIRST);
    ops := Comes(start, ops, c2);
    ops := Joins(start, ops, c2);
    ops := Goes(start, ops, c3);
    ops := Fires(start, ops, c4, SECOND);
  }

  lemma Begins(max: int, p2p: CallModel.State)
    requires max >= 1 && Quiet(p2p)
    ensures Possible(New(max, p2p), []) && Run(New(max, p2p), []) == New(max, p2p)
    ensures Empty(New(max, p2p), LeaveTimers.IDLE) && Nobody(New(max, p2p).engine)
  {
  }

  /**
   A run out of turn: the second callback gets the lock first and its token is forgotten; 7 comes back and
   joins, which issues the token that the first callback carries. When that one gets the lock it removes 7,
   who is connected and whose departure is not scheduled.
   */
  lemma OldCallbackRemoves(max: int, p2p: CallModel.State) returns (ops: seq<Op>)
    requires max >= 1 && Quiet(p2p)
    ensures var h := Run(New(max, p2p), ops); var last := ExpireOp(0, map[]);
            && Possible(New(max, p2p), ops + [last])
            && h.clock.queue == [FIRST] && LeaveTimers.Stale(h.clock, FIRST) && h.clock.timers == map[]
            && 7 in h.clients && 7 in h.engine.users && 7 !in Step(h, last).engine.users
            && !HubProperties.CallbacksSafe(New(max, p2p), ops)
  {
    hide Run, Possible, LeaveTimers.Cancel, Enabled, Step, Alone, Nobody, LeaveTimers.Safe;
    var start := New(max, p2p);
    var before := TwoCallbacksWait(max, p2p);
    SecondTaken(Run(start, before));
    OneMore(start, before, ExpireOp(1, map[]));
    ops := before + [ExpireOp(1, map[])];
    var c := LeaveTimers.Clock(map[], map[], {}, [FIRST], 2);
    ops := Comes(start, ops, c);
    ops := Joins(start, ops, c);
    FirstTaken(Run(start, ops));
    OneMore(start, ops, ExpireOp(0, map[]));
    EndsUnsafe(start, ops);
  }

  /** What the old callback does. */
  lemma FirstTaken(h: Hub)
    requires Alone(h.engine) && Here(h, LeaveTimers.Cancel(LeaveTimers.Clock(map[], map[], {}, [FIRST], 2), 7))
    ensures h.clock.queue == [FIRST] && LeaveTimers.Stale(h.clock, FIRST) && h.clock.timers == map[] && !LeaveTimers.Safe(h.clock)
    ensures 7 in h.clients && 7 in h.engine.users
    ensures Enabled(h, ExpireOp(0, map[])) && 7 !in Step(h, ExpireOp(0, map[])).engine.users
  {
    hide EngineInvariants.Inv;
    assert h.clock == LeaveTimers.Clock(map[], map[7 := 1], {}, [FIRST], 2);
    assert FIRST in h.clock.queue && LeaveTimers.Counts(h.clock, FIRST);
    assert 7 in h.engine.users;
    LeaveAlone(h.engine);
    hide EngineModel.Step, EngineModel.Enabled, Alone, Here, LeaveTimers.Cancel, LeaveTimers.Take;
  }

  lemma SecondTaken(h: Hub)
    requires Alone(h.engine) && Empty(h, LeaveTimers.Clock(map[7 := SECOND], map[7 := 3], {}, [FIRST, SECOND], 2))
    ensures Enabled(h, ExpireOp(1, map[]))
    ensures var s := Step(h, ExpireOp(1, map[]));
            Nobody(s.engine) && Empty(s, LeaveTimers.Clock(map[], map[], {}, [FIRST], 2))
  {
    hide EngineInvariants.Inv;
    LeaveAlone(h.engine);
    hide EngineModel.Step, EngineModel.Enabled, Alone, Nobody;
    assert LeaveTimers.Take(h.clock, 1) == LeaveTimers.Clock(map[], map[], {}, [FIRST], 2);
  }

  lemma {:induction false} EndsUnsafe(h: Hub, ops: seq<Op>)
    requires !LeaveTimers.Safe(Run(h, ops).clock)
    ensures !HubProperties.CallbacksSafe(h, ops)
    decreases ops
  {
    hide LeaveTimers.Safe, Step;
    if ops != [] { EndsUnsafe(Step(h, ops[0]), ops[1..]); }
  }

  // ---- an eviction strands somebody ----

  /** 7 is in a room, goes, and is then removed from a group: its departure is cancelled, and it stays in the room. */
  lemma EvictionStrands(max: int, p2p: CallModel.State, group: RoomId) returns (ops: seq<Op>)
    requires max >= 1 && Quiet(p2p) && group != ROOM
    ensures Possible(New(max, p2p), ops) && HubProperties.Stranded(Run(New(max, p2p), ops), 7)
  {
    hide Run, Possible, LeaveTimers.Schedule;
    var start, c := New(max, p2p), LeaveTimers.Cancel(LeaveTimers.IDLE, 7);
    Begins(max, p2p);
    ops := Comes(start, [], LeaveTimers.IDLE);
    ops := Joins(start, ops, LeaveTimers.IDLE);
    ops := Goes(start, ops, c);
    var h := Run(start, ops);
    Elsewhere(h.engine, group);
    OneMore(start, ops, EvictOp(group, 7, map[]));
    ops := ops + [EvictOp(group, 7, map[])];
    assert 7 !in LeaveTimers.Cancel(h.clock, 7).timers;
  }

  lemma Elsewhere(e: EngineModel.Engine, group: RoomId)
    requires Alone(e) && group != ROOM
    ensures EngineModel.Enabled(e, EngineModel.LeaveRoomOp(group, 7, map[]))
    ensures EngineModel.Step(e, EngineModel.LeaveRoomOp(group, 7, map[])) == e
  {
    hide EngineInvariants.Inv;
    assert group !in e.rooms;
  }
}
