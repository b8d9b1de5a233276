/**
 Calls and rooms exclude each other at the granularity of single critical sections. Only handlers that
 add somebody to a call or a room hold the call-state lock; removals (hangups, timeouts, host kicks,
 the two halves of a room removal) happen between any two of their steps.
 */
module Interleaving {
  import opened Media

  type CallId = string

  /** Where the handler that holds the call-state lock is; `scan` are the room objects still to be asked. */
  datatype Pc =
    | Free
    | AskIndex(caller: UserId, callee: UserId, call: CallId, second: bool)
    | AskRooms(caller: UserId, callee: UserId, call: CallId, second: bool, scan: set<nat>)
    | Place(caller: UserId, callee: UserId, call: CallId)
    | AskCalls(user: UserId, room: RoomId)
    | Enter(user: UserId, room: RoomId)
    | DropStale(user: UserId, room: RoomId, obj: nat)

  /**
   `table` has the registered room objects, `members` the participants of every object ever made, `users`
   the membership index, `releasing` the removals that have not yet told the index.
   */
  datatype State = State(
    table: map<RoomId, nat>,
    members: map<nat, set<UserId>>,
    users: map<UserId, nat>,
    releasing: set<(UserId, nat)>,
    byUser: map<UserId, CallId>,
    pc: Pc)

  const START := State(map[], map[], map[], {}, map[], Free)

  function MembersOf(s: State, o: nat): set<UserId> {
    if o in s.members then s.members[o] else {}
  }

  datatype Op =
    // the lock holder's next step; the flags are what the client asked for and what the tables answer
    | BeginInvite(caller: UserId, callee: UserId, call: CallId)
    | BeginJoin(user: UserId, room: RoomId)
    | LookInIndex
    | LookInRoom(obj: nat)
    | Register(online: bool)
    | LookInCalls
    | Admit(resume: bool, full: bool, obj: nat)
    | DropMember
    // removals, which need no lock
    | TakeOut(user: UserId, obj: nat)
    | Release(user: UserId, obj: nat)
    | CloseEmpty(room: RoomId)
    | EndCall(call: CallId)

  /** A handler begins when nobody holds the lock; a new room object is new. */
  predicate Enabled(s: State, op: Op) {
    match op
    case BeginInvite(_, _, _) => s.pc.Free?
    case BeginJoin(_, _) => s.pc.Free?
    case LookInIndex => s.pc.AskIndex?
    case LookInRoom(o) => s.pc.AskRooms? && (s.pc.scan == {} || o in s.pc.scan)
    case Register(_) => s.pc.Place?
    case LookInCalls => s.pc.AskCalls?
    case Admit(_, _, o) => s.pc.Enter? && o !in s.members
    case DropMember => s.pc.DropStale?
    case _ => true
  }

  function Asked(pc: Pc): UserId
    requires pc.AskIndex? || pc.AskRooms?
  {
    if pc.second then pc.callee else pc.caller
  }

  /** Both checks passed for one party: go on with the other one, or place the call. */
  function Passed(pc: Pc): Pc
    requires pc.AskRooms?
  {
    if pc.second then Place(pc.caller, pc.callee, pc.call) else AskIndex(pc.caller, pc.callee, pc.call, true)
  }

  /** The first half of a room removal: the participant is gone, the index does not know yet. */
  function TakenOut(s: State, u: UserId, o: nat): State {
    if u in MembersOf(s, o)
    then s.(members := s.members[o := s.members[o] - {u}], releasing := s.releasing + {(u, o)})
    else s
  }

  /** The second half: the index forgets the user if it still points at that room object. */
  function Released(s: State, u: UserId, o: nat): State {
    if (u, o) !in s.releasing then s
    else s.(releasing := s.releasing - {(u, o)},
            users := if u in s.users && s.users[u] == o then s.users - {u} else s.users)
  }

  function Admitted(s: State, resume: bool, full: bool, o: nat): State
    requires s.pc.Enter?
  {
    var u, id := s.pc.user, s.pc.room;
    var room := if id in s.table then s.table[id] else o;
    if u in s.users && s.users[u] != room then s.(pc := Free)
    else if u in MembersOf(s, room) then
      if resume then s.(pc := Free) else s.(pc := DropStale(u, id, room))
    else if full then s.(pc := Free)
    else s.(table := s.table[id := room], members := s.members[room := MembersOf(s, room) + {u}],
            users := s.users[u := room], pc := Free)
  }

  function Step(s: State, op: Op): State {
    if !Enabled(s, op) then s
    else
      match op
      case BeginInvite(a, b, id) => if b == 0 || a == b then s else s.(pc := AskIndex(a, b, id, false))
      case BeginJoin(u, id) => s.(pc := AskCalls(u, id))
      case LookInIndex =>
        if Asked(s.pc) in s.users then s.(pc := Free)
        else s.(pc := AskRooms(s.pc.caller, s.pc.callee, s.pc.call, s.pc.second, s.table.Values))
      case LookInRoom(o) =>
        if s.pc.scan == {} then s.(pc := Passed(s.pc))
        else if Asked(s.pc) in MembersOf(s, o) then s.(pc := Free)
        else s.(pc := s.pc.(scan := s.pc.scan - {o}))
      case Register(online) =>
        var a, b, id := s.pc.caller, s.pc.callee, s.pc.call;
        if id in s.byUser.Values || a in s.byUser || b in s.byUser || !online then s.(pc := Free)
        else s.(byUser := s.byUser[a := id][b := id], pc := Free)
      case LookInCalls => if s.pc.user in s.byUser then s.(pc := Free) else s.(pc := Enter(s.pc.user, s.pc.room))
      case Admit(resume, full, o) => Admitted(s, resume, full, o)
      case DropMember => TakenOut(s, s.pc.user, s.pc.obj).(pc := Enter(s.pc.user, s.pc.room))
      case TakeOut(u, o) => TakenOut(s, u, o)
      case Release(u, o) => Released(s, u, o)
      case CloseEmpty(id) => if id in s.table && MembersOf(s, s.table[id]) == {} then s.(table := s.table - {id}) else s
      case EndCall(id) => s.(byUser := map u | u in s.byUser && s.byUser[u] != id :: s.byUser[u])
  }

  function Run(s: State, ops: seq<Op>): State
    decreases ops
  {
    if ops == [] then s else Run(Step(s, ops[0]), ops[1..])
  }

  // ---- nobody is in a call and in a room ----

  predicate InSomeRoom(s: State, u: UserId) {
    exists o :: o in s.members && u in s.members[o]
  }

  /** Nobody is in a call and in a room at once. */
  ghost predicate Exclusive(s: State) {
    forall u :: u in s.byUser ==> !InSomeRoom(s, u) && u !in s.users
  }

  ghost predicate Listed(s: State, o: nat) {
    exists id :: id in s.table && s.table[id] == o
  }

  /** Only registered rooms have members, and an empty table entry is on its way out. */
  ghost predicate Tables(s: State) {
    && (forall id :: id in s.table ==> s.table[id] in s.members)
    && (forall o :: o in s.members && s.members[o] != {} ==> Listed(s, o))
  }

  /** `u` is in no room except perhaps in one that is still to be asked. */
  ghost predicate Clear(s: State, u: UserId, scan: set<nat>) {
    u !in s.users && forall o :: o in s.members && u in s.members[o] ==> o in scan
  }

  /** What the lock holder has found out so far still holds. */
  ghost predicate Knows(s: State) {
    match s.pc
    case AskIndex(a, b, _, second) => a != b && (second ==> Clear(s, a, {}))
    case AskRooms(a, b, _, second, scan) => a != b && (second ==> Clear(s, a, {})) && Clear(s, if second then b else a, scan)
    case Place(a, b, _) => a != b && Clear(s, a, {}) && Clear(s, b, {})
    case Enter(u, _) => u !in s.byUser
    case DropStale(u, _, _) => u !in s.byUser
    case _ => true
  }

  ghost predicate Inv(s: State) {
    Exclusive(s) && Tables(s) && Knows(s)
  }

  /** Every critical section of every handler and every removal keeps it, in any order. */
  lemma StepKeeps(s: State, op: Op)
    requires Inv(s)
    ensures Inv(Step(s, op))
  {
    if Enabled(s, op) {
      hide Inv, Step;
      match op
      case Register(_) => RegisterKeeps(s, op);
      case Admit(_, _, _) => AdmitKeeps(s, op);
      case DropMember => DropKeeps(s, op);
      case TakeOut(u, o) => DropKeeps(s, op);
      case CloseEmpty(id) => CloseKeeps(s, id);
      case _ => LookKeeps(s, op);
    } else {
      hide Inv;
    }
  }

  /** Asking, releasing and ending a call put nobody anywhere. */
  lemma LookKeeps(s: State, op: Op)
    requires Inv(s) && Enabled(s, op)
    requires !op.Register? && !op.Admit? && !op.DropMember? && !op.TakeOut? && !op.CloseEmpty?
    ensures Inv(Step(s, op))
  {
  }

  lemma DropKeeps(s: State, op: Op)
    requires Inv(s) && Enabled(s, op) && (op.DropMember? || op.TakeOut?)
    ensures Inv(Step(s, op))
  {
    match op
    case DropMember => TakeOutKeeps(s, s.pc.user, s.pc.obj);
    case TakeOut(u, o) => TakeOutKeeps(s, u, o);
  }

  lemma RegisterKeeps(s: State, op: Op)
    requires Inv(s) && op.Register? && Enabled(s, op)
    ensures Inv(Step(s, op))
  {
  }

  lemma AdmitKeeps(s: State, op: Op)
    requires Inv(s) && op.Admit? && Enabled(s, op)
    ensures Inv(Step(s, op))
  {
    var s', id := Step(s, op), s.pc.room;
    forall o | o in s'.members && s'.members[o] != {} ensures Listed(s', o) {
      if s' != s.(pc := s'.pc) && o == s'.table[id] {
      } else {
        assert Listed(s, o);
        var i :| i in s.table && s.table[i] == o;
        assert s'.table[i] == o;
      }
    }
  }

  lemma CloseKeeps(s: State, id: RoomId)
    requires Inv(s)
    ensures Inv(Step(s, CloseEmpty(id)))
  {
    var s' := Step(s, CloseEmpty(id));
    forall o | o in s'.members && s'.members[o] != {} ensures Listed(s', o) {
      var i :| i in s.table && s.table[i] == o;
      assert i in s'.table && s'.table[i] == o;
    }
  }

  lemma TakeOutKeeps(s: State, u: UserId, o: nat)
    requires Inv(s)
    ensures Inv(TakenOut(s, u, o))
  {
  }

  lemma {:induction false} RunKeeps(s: State, ops: seq<Op>)
    requires Inv(s)
    ensures Inv(Run(s, ops))
    decreases ops
  {
    hide Inv, Step;
    if ops != [] {
      StepKeeps(s, ops[0]);
      RunKeeps(Step(s, ops[0]), ops[1..]);
    }
  }

  /** Whatever removals come in between, no user is ever in a call and in a room. */
  lemma {:induction false} NeverInBoth(ops: seq<Op>, u: UserId)
    ensures var s := Run(START, ops); u in s.byUser ==> !InSomeRoom(s, u) && u !in s.users
  {
    RunKeeps(START, ops);
  }

  // ---- the membership index, between the two halves of a removal ----

  /** The index knows where every participant is. */
  ghost predicate Indexed(s: State) {
    forall o, u :: o in s.members && u in s.members[o] ==> u in s.users && s.users[u] == o
  }

  /** The second half of a removal comes after its user has joined the same room again. */
  predicate LosesIndex(s: State, op: Op) {
    op.Release? && (op.user, op.obj) in s.releasing && op.user in MembersOf(s, op.obj)
  }

  /** A step keeps the index right exactly when it is not such a late second half. */
  lemma IndexStep(s: State, op: Op)
    requires Indexed(s)
    ensures Indexed(Step(s, op)) <==> !LosesIndex(s, op)
  {
    var s' := Step(s, op);
    if LosesIndex(s, op) {
      assert op.obj in s'.members && op.user in s'.members[op.obj] && op.user !in s'.users;
    }
  }

  ghost predicate IndexedThroughout(s: State, ops: seq<Op>)
    decreases ops
  {
    Indexed(s) && (ops == [] || IndexedThroughout(Step(s, ops[0]), ops[1..]))
  }

  predicate NeverLoses(s: State, ops: seq<Op>)
    decreases ops
  {
    ops == [] || (!LosesIndex(s, ops[0]) && NeverLoses(Step(s, ops[0]), ops[1..]))
  }

  /** In every run the index is right throughout if and only if no second half comes late. */
  lemma {:induction false} IndexedIffNeverLost(s: State, ops: seq<Op>)
    requires Indexed(s)
    ensures IndexedThroughout(s, ops) <==> NeverLoses(s, ops)
    decreases ops
  {
    hide Indexed, LosesIndex, Step;
    if ops != [] {
      IndexStep(s, ops[0]);
      if !LosesIndex(s, ops[0]) {
        IndexedIffNeverLost(Step(s, ops[0]), ops[1..]);
      } else {
        NotIndexed(Step(s, ops[0]), ops[1..]);
      }
    }
  }

  lemma NotIndexed(s: State, ops: seq<Op>)
    requires !Indexed(s)
    ensures !IndexedThroughout(s, ops)
  {
  }

  function Join(s: State, u: UserId, id: RoomId, o: nat): State {
    Step(Step(Step(s, BeginJoin(u, id)), LookInCalls), Admit(false, false, o))
  }

  lemma Joins(s: State, u: UserId, id: RoomId, o: nat)
    requires s.pc.Free? && u !in s.byUser && o !in s.members
    requires var room := if id in s.table then s.table[id] else o;
             (u in s.users ==> s.users[u] == room) && u !in MembersOf(s, room)
    ensures var room := if id in s.table then s.table[id] else o;
            Join(s, u, id, o) == s.(table := s.table[id := room], members := s.members[room := MembersOf(s, room) + {u}],
                                    users := s.users[u := room])
  {
    var s1 := Step(s, BeginJoin(u, id));
    var s2 := Step(s1, LookInCalls);
    assert s2 == s.(pc := Enter(u, id));
  }

  /** `u` is in the room object registered as `id`, and a removal from it has yet to reach the index. */
  predicate Overdue(s: State, u: UserId, id: RoomId) {
    && id in s.table && u in MembersOf(s, s.table[id]) && u in s.users && s.users[u] == s.table[id]
    && (u, s.table[id]) in s.releasing && s.pc.Free? && u !in s.byUser
  }

  /** Being taken out and joining again before the second half leads there. */
  lemma RejoinIsOverdue(s: State, u: UserId, id: RoomId, o: nat)
    requires s.pc.Free? && id in s.table && u in MembersOf(s, s.table[id]) && u in s.users && s.users[u] == s.table[id]
    requires u !in s.byUser && o !in s.members
    ensures Overdue(Join(Step(s, TakeOut(u, s.table[id])), u, id, o), u, id)
  {
    var t := Step(s, TakeOut(u, s.table[id]));
    assert u !in MembersOf(t, s.table[id]) && t.table == s.table && t.users == s.users;
    Joins(t, u, id, o);
    hide Join;
  }

  /** Then the second half comes, `u` joins another room, and is in two at once. */
  lemma TwoRooms(s: State, u: UserId, id: RoomId, jd: RoomId, o: nat)
    requires Overdue(s, u, id) && jd !in s.table && o !in s.members
    ensures LosesIndex(s, Release(u, s.table[id]))
    ensures var t := Join(Step(s, Release(u, s.table[id])), u, jd, o);
            id in t.table && jd in t.table && t.table[id] != t.table[jd]
            && u in MembersOf(t, t.table[id]) && u in MembersOf(t, t.table[jd])
  {
    var r := Step(s, Release(u, s.table[id]));
    assert r.table == s.table && r.members == s.members && u !in r.users;
    Joins(r, u, jd, o);
    hide Join;
  }

  /** The three steps of a join. */
  function JoinOps(u: UserId, id: RoomId, o: nat): seq<Op> {
    [BeginJoin(u, id), LookInCalls, Admit(false, false, o)]
  }

  lemma JoinRun(s: State, u: UserId, id: RoomId, o: nat)
    ensures Run(s, JoinOps(u, id, o)) == Join(s, u, id, o)
  {
    var a, b, c := BeginJoin(u, id), LookInCalls, Admit(false, false, o);
    assert JoinOps(u, id, o)[1..] == [b, c] && [b, c][1..] == [c] && [c][1..] == [];
    hide Step;
    assert Run(s, [a, b, c]) == Run(Step(s, a), [b, c]);
    assert Run(Step(s, a), [b, c]) == Run(Step(Step(s, a), b), [c]);
    assert Run(Step(Step(s, a), b), [c]) == Run(Step(Step(Step(s, a), b), c), []);
  }

  lemma {:induction false} RunOn(s: State, ops: seq<Op>, more: seq<Op>)
    ensures Run(s, ops + more) == Run(Run(s, ops), more)
    decreases ops
  {
    hide Step;
    if ops == [] {
      assert ops + more == more;
    } else {
      assert (ops + more)[1..] == ops[1..] + more;
      RunOn(Step(s, ops[0]), ops[1..], more);
    }
  }

  lemma OneStep(s: State, op: Op)
    ensures Run(s, [op]) == Step(s, op)
  {
    assert [op][1..] == [];
  }

  /** A run: 1 joins a room, is taken out, joins it again before the index is told, and then joins another one. */
  lemma TwoRoomsRun() returns (ops: seq<Op>)
    ensures var t := Run(START, ops);
            "a" in t.table && "b" in t.table && t.table["a"] != t.table["b"]
            && 1 in MembersOf(t, t.table["a"]) && 1 in MembersOf(t, t.table["b"])
  {
    Joins(START, 1, "a", 0);
    var s1 := Join(START, 1, "a", 0);
    assert MembersOf(START, 0) + {1} == {1};
    assert s1.table == map["a" := 0] && s1.members == map[0 := {1}] && s1.users == map[1 := 0] && s1.byUser == map[] && s1.pc.Free?;
    RejoinIsOverdue(s1, 1, "a", 1);
    var s2 := Join(Step(s1, TakeOut(1, 0)), 1, "a", 1);
    Joins(Step(s1, TakeOut(1, 0)), 1, "a", 1);
    assert s2.table == map["a" := 0] && s2.members.Keys == {0};
    TwoRooms(s2, 1, "a", "b", 1);
    hide Step, Join, JoinOps, Run, Overdue, LosesIndex;
    JoinRun(START, 1, "a", 0);
    OneStep(s1, TakeOut(1, 0));
    JoinRun(Step(s1, TakeOut(1, 0)), 1, "a", 1);
    OneStep(s2, Release(1, 0));
    JoinRun(Step(s2, Release(1, 0)), 1, "b", 1);
    RunOn(START, JoinOps(1, "a", 0), [TakeOut(1, 0)]);
    RunOn(START, JoinOps(1, "a", 0) + [TakeOut(1, 0)], JoinOps(1, "a", 1));
    RunOn(START, JoinOps(1, "a", 0) + [TakeOut(1, 0)] + JoinOps(1, "a", 1), [Release(1, 0)]);
    RunOn(START, JoinOps(1, "a", 0) + [TakeOut(1, 0)] + JoinOps(1, "a", 1) + [Release(1, 0)], JoinOps(1, "b", 1));
    ops := JoinOps(1, "a", 0) + [TakeOut(1, 0)] + JoinOps(1, "a", 1) + [Release(1, 0)] + JoinOps(1, "b", 1);
  }
}
