/**
 What the handlers at the granularity of critical sections add up to when no removal comes in between: an
 invitation looks both parties up in every room in whatever order, and either nothing has happened or the two
 are in a call; a join ends with its user in the room. So the steps are neither too few nor too many.
 */
module HandlersAlone {
  import opened Media
  import opened Interleaving

  // ---- invitations ----

  /** Neither the index nor any registered room knows `u`. */
  ghost predicate Nowhere(s: State, u: UserId) {
    u !in s.users && forall o :: o in s.table.Values ==> u !in MembersOf(s, o)
  }

  ghost predicate Callable(s: State, a: UserId, b: UserId, id: CallId) {
    Nowhere(s, a) && Nowhere(s, b) && a !in s.byUser && b !in s.byUser && id !in s.byUser.Values
  }

  /** A step of the handler of an invitation, at a moment when it is due. */
  predicate Due(s: State, op: Op) {
    Enabled(s, op) && (op.LookInIndex? || op.LookInRoom? || op.Register?)
  }

  /** The handler goes on undisturbed until it gives the lock back. */
  predicate Undisturbed(s: State, ops: seq<Op>)
    decreases ops
  {
    if ops == [] then s.pc.Free? else Due(s, ops[0]) && Undisturbed(Step(s, ops[0]), ops[1..])
  }

  /** The handler holds the lock, has changed nothing yet, and the lookups it has made found nobody. */
  ghost predicate Underway(s: State, t: State, a: UserId, b: UserId, id: CallId) {
    && t == s.(pc := t.pc)
    && match t.pc
       case AskIndex(x, y, i, second) => x == a && y == b && i == id && (second ==> Nowhere(s, a))
       case AskRooms(x, y, i, second, scan) =>
         && x == a && y == b && i == id && (second ==> Nowhere(s, a)) && scan <= s.table.Values
         && var u := if second then b else a;
            u !in s.users && forall o :: o in s.table.Values && o !in scan ==> u !in MembersOf(s, o)
       case Place(x, y, i) => x == a && y == b && i == id && Nowhere(s, a) && Nowhere(s, b)
       case _ => false
  }

  /** How an undisturbed invitation may end. */
  ghost predicate Ends(s: State, t: State, a: UserId, b: UserId, id: CallId, online: bool) {
    if Callable(s, a, b, id) && online then t == s.(byUser := s.byUser[a := id][b := id], pc := Free) else t == s.(pc := Free)
  }

  lemma OneStep(s: State, t: State, op: Op, a: UserId, b: UserId, id: CallId)
    requires Underway(s, t, a, b, id) && Due(t, op)
    ensures var n := Step(t, op);
            || Underway(s, n, a, b, id)
            || (n.pc.Free? && Ends(s, n, a, b, id, op == Register(true)) && (!op.Register? ==> !Callable(s, a, b, id)))
  {
    match op
    case LookInIndex =>
    case LookInRoom(o) =>
      if t.pc.scan != {} { assert o in s.table.Values; }
    case Register(online) =>
  }

  /** The last step of a handler is the one that gives the lock back. */
  lemma {:induction false} EveryInvite(s: State, t: State, ops: seq<Op>, a: UserId, b: UserId, id: CallId)
    requires Underway(s, t, a, b, id) && Undisturbed(t, ops)
    ensures Ends(s, Run(t, ops), a, b, id, ops != [] && ops[|ops| - 1] == Register(true))
    decreases ops
  {
    hide Step, Due, Ends, Callable;
    if ops == [] {
      assert false;
    } else {
      var n := Step(t, ops[0]);
      hide Underway;
      OneStep(s, t, ops[0], a, b, id);
      if n.pc.Free? {
        FreeIsOver(n, ops[1..]);
        assert ops == [ops[0]];
      } else {
        EveryInvite(s, n, ops[1..], a, b, id);
      }
    }
  }

  lemma FreeIsOver(s: State, ops: seq<Op>)
    requires s.pc.Free? && Undisturbed(s, ops)
    ensures ops == []
  {
  }

  /**
   In whatever order the rooms are asked: an undisturbed invitation leaves the two in the new call exactly if they
   are two, neither was known to the index, to a room or to a call, and the callee was online; otherwise it
   changes nothing.
   */
  lemma InviteAlone(s: State, a: UserId, b: UserId, id: CallId, ops: seq<Op>)
    requires s.pc.Free? && Undisturbed(Step(s, BeginInvite(a, b, id)), ops)
    ensures var e := Run(Step(s, BeginInvite(a, b, id)), ops);
            if b == 0 || a == b then e == s else Ends(s, e, a, b, id, ops != [] && ops[|ops| - 1] == Register(true))
  {
    if b == 0 || a == b { FreeIsOver(s, ops); } else { EveryInvite(s, Step(s, BeginInvite(a, b, id)), ops, a, b, id); }
  }

  // ---- it does end ----

  /** How many steps the handler still has to take at most. */
  function Left(s: State): nat {
    var n := |s.table.Values|;
    match s.pc
    case AskIndex(_, _, _, second) => if second then n + 3 else 2 * n + 5
    case AskRooms(_, _, _, second, scan) => if second then |scan| + 2 else |scan| + n + 4
    case Place(_, _, _) => 1
    case _ => 0
  }

  /** Whatever is asked next, each step brings the handler closer to its end, and there always is one. */
  lemma Progress(s: State, t: State, a: UserId, b: UserId, id: CallId)
    requires Underway(s, t, a, b, id)
    ensures exists op :: Due(t, op)
    ensures forall op :: Due(t, op) ==> Left(Step(t, op)) < Left(t)
  {
    NextStep(s, t, a, b, id);
    forall op | Due(t, op) ensures Left(Step(t, op)) < Left(t) {
      StepIsCloser(t, op);
    }
  }

  lemma NextStep(s: State, t: State, a: UserId, b: UserId, id: CallId)
    requires Underway(s, t, a, b, id)
    ensures exists op :: Due(t, op)
  {
    match t.pc
    case AskIndex(_, _, _, _) => assert Due(t, LookInIndex);
    case AskRooms(_, _, _, _, scan) =>
      if scan == {} { assert Due(t, LookInRoom(0)); } else { var o :| o in scan; assert Due(t, LookInRoom(o)); }
    case Place(_, _, _) => assert Due(t, Register(true));
  }

  lemma StepIsCloser(t: State, op: Op)
    requires Due(t, op)
    ensures Left(Step(t, op)) < Left(t)
  {
    hide MembersOf;
    match op
    case LookInIndex => AfterIndex(t);
    case LookInRoom(o) => AfterRoom(t, o);
    case Register(_) =>
  }

  lemma AfterIndex(t: State)
    requires Due(t, LookInIndex)
    ensures Left(Step(t, LookInIndex)) < Left(t)
  {
  }

  lemma AfterRoom(t: State, o: nat)
    requires Due(t, LookInRoom(o))
    ensures Left(Step(t, LookInRoom(o))) < Left(t)
  {
    RoomStep(t, o);
    hide Step;
    if t.pc.scan != {} { assert |t.pc.scan - {o}| == |t.pc.scan| - 1; }
  }

  lemma RoomStep(t: State, o: nat)
    requires Due(t, LookInRoom(o))
    ensures var n := Step(t, LookInRoom(o)); var AskRooms(a, b, id, second, scan) := t.pc;
            n == t.(pc := n.pc)
            && if scan == {} then n.pc == if second then Place(a, b, id) else AskIndex(a, b, id, true)
               else n.pc.Free? || n.pc == AskRooms(a, b, id, second, scan - {o})
  {
    hide MembersOf;
  }

  // ---- joins ----

  /** The room object a join is for: the registered one, or the new one it brings. */
  function RoomFor(s: State, id: RoomId, o: nat): nat {
    if id in s.table then s.table[id] else o
  }

  /** `u` is in that room, and was put there by this. */
  ghost predicate Seated(s: State, t: State, u: UserId, id: RoomId, o: nat) {
    && t == s.(table := s.table[id := o], members := s.members[o := MembersOf(s, o) + {u}], users := s.users[u := o],
               releasing := t.releasing)
    && t.releasing == if u in MembersOf(s, o) then s.releasing + {(u, o)} else s.releasing
  }

  lemma TwoSteps(s: State, p: Op, q: Op)
    ensures Run(s, [p, q]) == Step(Step(s, p), q)
  {
    assert [p, q][1..] == [q] && [q][1..] == [];
    assert Run(Step(s, p), [q]) == Run(Step(Step(s, p), q), []);
  }

  lemma {:induction false} RunAppend(s: State, ops: seq<Op>, more: seq<Op>)
    ensures Run(s, ops + more) == Run(Run(s, ops), more)
    decreases ops
  {
    hide Step;
    if ops == [] {
      assert ops + more == more;
    } else {
      assert (ops + more)[1..] == ops[1..] + more;
      RunAppend(Step(s, ops[0]), ops[1..], more);
    }
  }

  /**
   The steps of an undisturbed join: it changes nothing for somebody in a call, in another room, resuming, or new
   to a full room; anybody else is in the room afterwards, a stale participant of theirs having been dropped first.
   */
  lemma JoinAlone(s: State, u: UserId, id: RoomId, resume: bool, full: bool, o: nat) returns (ops: seq<Op>)
    requires s.pc.Free? && o !in s.members
    ensures var t, room := Run(s, ops), RoomFor(s, id, o); var there := u in MembersOf(s, room);
            if u in s.byUser || (u in s.users && s.users[u] != room) || (there && resume) || (!there && full) then t == s.(pc := Free)
            else Seated(s, t, u, id, room)
  {
    hide Run;
    var room := RoomFor(s, id, o);
    var begin, ask, admit, again := BeginJoin(u, id), LookInCalls, Admit(resume, full, o), Admit(resume, false, o);
    var t := Step(Step(s, begin), ask);
    TwoSteps(s, begin, ask);
    ops := [begin, ask];
    if u !in s.byUser {
      RunAppend(s, ops, [admit]);
      OneStepRun(t, admit);
      ops := ops + [admit];
      var d := Step(t, admit);
      if d.pc.DropStale? {
        RunAppend(s, ops, [DropMember, again]);
        TwoSteps(d, DropMember, again);
        ops := ops + [DropMember, again];
        assert MembersOf(s, room) - {u} + {u} == MembersOf(s, room) + {u};
      }
    }
  }

  lemma OneStepRun(s: State, p: Op)
    ensures Run(s, [p]) == Step(s, p)
  {
    assert [p][1..] == [] && Run(Step(s, p), []) == Step(s, p);
  }

  // ---- removals ----

  /** `u` is in room object `o` no more, the index forgets it if it said so, and the room is closed if nobody else is in it. */
  ghost predicate TakesOut(s: State, t: State, u: UserId, id: RoomId, o: nat) {
    && t == s.(table := t.table, members := s.members[o := MembersOf(s, o) - {u}], users := t.users)
    && (forall v :: v in t.users <==> v in s.users && !(v == u && s.users[u] == o)) && (forall v :: v in t.users ==> t.users[v] == s.users[v])
    && t.table == if MembersOf(s, o) == {u} then s.table - {id} else s.table
  }

  /** The steps of an undisturbed removal. One of somebody who is not there changes nothing. */
  lemma RemovalAlone(s: State, u: UserId, id: RoomId)
    requires id in s.table && MembersOf(s, s.table[id]) != {} && (u, s.table[id]) !in s.releasing
    ensures var o := s.table[id]; var t := Run(s, [TakeOut(u, o), Release(u, o), CloseEmpty(id)]);
            if u in MembersOf(s, o) then TakesOut(s, t, u, id, o) else t == s
  {
    var o := s.table[id];
    var take, free, close := TakeOut(u, o), Release(u, o), CloseEmpty(id);
    assert [take, free] + [close] == [take, free, close];
    RunAppend(s, [take, free], [close]);
    TwoSteps(s, take, free);
    OneStepRun(Step(Step(s, take), free), close);
    hide Run;
    if u in MembersOf(s, o) {
      var a := Step(s, take);
      assert a.releasing - {(u, o)} == s.releasing;
    }
  }

  /** When a call ends nobody is in it, and nothing else changes. */
  lemma EndCallOutcome(s: State, id: CallId)
    ensures var t := Step(s, EndCall(id));
            && t == s.(byUser := t.byUser) && (forall u :: u in t.byUser <==> u in s.byUser && s.byUser[u] != id)
            && (forall u :: u in t.byUser ==> t.byUser[u] == s.byUser[u])
  {
  }
}
