/**
 The gate in front of private rooms: join attempts that wait for the owner, approvals that let one join
 pass, and the clearing of both when their user leaves or disconnects.
 */
module PrivateRooms {
  import opened Media

  type Entries = map<RoomId, set<UserId>>

  /** What happened at the gate, per room and user. */
  datatype Event = Parked(room: RoomId, user: UserId) | Approved(room: RoomId, user: UserId) | Bypassed(room: RoomId, user: UserId)

  datatype Gate = Gate(pending: Entries, approved: Entries, connected: set<UserId>, trail: seq<Event>)

  const OPEN := Gate(map[], map[], {}, [])

  predicate Has(es: Entries, r: RoomId, u: UserId) {
    r in es && u in es[r]
  }

  function Mark(es: Entries, r: RoomId, u: UserId): Entries {
    es[r := (if r in es then es[r] else {}) + {u}]
  }

  function Clear(es: Entries, r: RoomId, u: UserId): Entries {
    if r in es then es[r := es[r] - {u}] else es
  }

  function ClearEverywhere(es: Entries, u: UserId): Entries {
    map r | r in es :: es[r] - {u}
  }

  function DropUser(g: Gate, u: UserId): Gate {
    g.(pending := ClearEverywhere(g.pending, u), approved := ClearEverywhere(g.approved, u))
  }

  /** How the room and the tables answer an attempt: does the room exist, is it the user's own, may they come. */
  datatype Facts = Facts(found: bool, owner: bool, invited: bool, passcode: bool, approval: bool)

  /** One attempt to join: the gate after it, and may the join proceed? */
  function Authorize(g: Gate, r: RoomId, u: UserId, f: Facts): (Gate, bool) {
    if !f.found then (g, false)
    else if f.owner then (g, true)
    else if Has(g.approved, r, u) then
      (g.(approved := Clear(g.approved, r, u), trail := g.trail + [Bypassed(r, u)]), true)
    else if !f.invited || !f.passcode then (g, false)
    else if f.approval then (g.(pending := Mark(g.pending, r, u), trail := g.trail + [Parked(r, u)]), false)
    else (g, true)
  }

  /** The two halves of an answer: take the request off the list, then approve it. */
  function Answered(g: Gate, r: RoomId, u: UserId): Gate {
    g.(pending := Clear(g.pending, r, u))
  }

  function Approve(g: Gate, r: RoomId, u: UserId): Gate {
    g.(approved := Mark(g.approved, r, u), trail := g.trail + [Approved(r, u)])
  }

  function Respond(g: Gate, owner: bool, r: RoomId, u: UserId, admit: bool): Gate {
    if !owner || !Has(g.pending, r, u) then g
    else if admit then Approve(Answered(g, r, u), r, u)
    else Answered(g, r, u)
  }

  datatype Op =
    | Connect(user: UserId)
    | Disconnect(user: UserId)
    | LeaveRoom(user: UserId)
    | Attempt(room: RoomId, user: UserId, facts: Facts)
    | Answer(owner: bool, room: RoomId, user: UserId, admit: bool)

  /** Messages come from connected users only. */
  function Step(g: Gate, op: Op): Gate {
    match op
    case Connect(u) => g.(connected := g.connected + {u})
    case Disconnect(u) => if u in g.connected then DropUser(g.(connected := g.connected - {u}), u) else g
    case LeaveRoom(u) => if u in g.connected then DropUser(g, u) else g
    case Attempt(r, u, f) => if u in g.connected then Authorize(g, r, u, f).0 else g
    case Answer(owner, r, u, admit) => Respond(g, owner, r, u, admit)
  }

  function Run(g: Gate, ops: seq<Op>): Gate
    decreases ops
  {
    if ops == [] then g else Run(Step(g, ops[0]), ops[1..])
  }

  // ---- counting ----

  function Count(trail: seq<Event>, e: Event): nat {
    if trail == [] then 0 else Count(trail[..|trail| - 1], e) + if trail[|trail| - 1] == e then 1 else 0
  }

  lemma CountAppend(trail: seq<Event>, e: Event, x: Event)
    ensures Count(trail + [x], e) == Count(trail, e) + if x == e then 1 else 0
  {
    assert (trail + [x])[..|trail|] == trail;
  }

  /** Every approval comes out of a parked attempt, and every bypass out of an approval. */
  ghost predicate Balanced(g: Gate) {
    forall r, u ::
      && Count(g.trail, Bypassed(r, u)) + Bit(Has(g.approved, r, u)) <= Count(g.trail, Approved(r, u))
      && Count(g.trail, Approved(r, u)) + Bit(Has(g.pending, r, u)) <= Count(g.trail, Parked(r, u))
  }

  /** Requests and approvals belong to connected users. */
  ghost predicate Owned(g: Gate) {
    forall r, u :: Has(g.pending, r, u) || Has(g.approved, r, u) ==> u in g.connected
  }

  lemma AuthorizeKeeps(g: Gate, r: RoomId, u: UserId, f: Facts)
    requires Balanced(g) && Owned(g) && u in g.connected
    ensures Balanced(Authorize(g, r, u, f).0) && Owned(Authorize(g, r, u, f).0)
  {
    hide Balanced, Owned, Has, Clear, Mark;
    if f.found && !f.owner {
      if Has(g.approved, r, u) {
        BypassKeeps(g, r, u);
      } else if f.invited && f.passcode && f.approval {
        ParkKeeps(g, r, u);
      }
    }
  }

  lemma BypassKeeps(g: Gate, r: RoomId, u: UserId)
    requires Balanced(g) && Owned(g) && Has(g.approved, r, u)
    ensures var g' := g.(approved := Clear(g.approved, r, u), trail := g.trail + [Bypassed(r, u)]); Balanced(g') && Owned(g')
  {
    var g' := g.(approved := Clear(g.approved, r, u), trail := g.trail + [Bypassed(r, u)]);
    forall q, v
      ensures Count(g'.trail, Bypassed(q, v)) + Bit(Has(g'.approved, q, v)) <= Count(g'.trail, Approved(q, v))
      ensures Count(g'.trail, Approved(q, v)) + Bit(Has(g'.pending, q, v)) <= Count(g'.trail, Parked(q, v))
    {
      CountsAppend(g.trail, Bypassed(r, u), q, v);
      assert Count(g.trail, Bypassed(q, v)) + Bit(Has(g.approved, q, v)) <= Count(g.trail, Approved(q, v));
      hide Count;
    }
  }

  lemma ParkKeeps(g: Gate, r: RoomId, u: UserId)
    requires Balanced(g) && Owned(g) && u in g.connected
    ensures var g' := g.(pending := Mark(g.pending, r, u), trail := g.trail + [Parked(r, u)]); Balanced(g') && Owned(g')
  {
    var g' := g.(pending := Mark(g.pending, r, u), trail := g.trail + [Parked(r, u)]);
    forall q, v
      ensures Count(g'.trail, Bypassed(q, v)) + Bit(Has(g'.approved, q, v)) <= Count(g'.trail, Approved(q, v))
      ensures Count(g'.trail, Approved(q, v)) + Bit(Has(g'.pending, q, v)) <= Count(g'.trail, Parked(q, v))
    {
      CountsAppend(g.trail, Parked(r, u), q, v);
      assert Count(g.trail, Bypassed(q, v)) + Bit(Has(g.approved, q, v)) <= Count(g.trail, Approved(q, v));
      hide Count;
    }
  }

  lemma CountsAppend(trail: seq<Event>, x: Event, r: RoomId, u: UserId)
    ensures Count(trail + [x], Bypassed(r, u)) == Count(trail, Bypassed(r, u)) + Bit(x == Bypassed(r, u))
    ensures Count(trail + [x], Approved(r, u)) == Count(trail, Approved(r, u)) + Bit(x == Approved(r, u))
    ensures Count(trail + [x], Parked(r, u)) == Count(trail, Parked(r, u)) + Bit(x == Parked(r, u))
  {
    CountAppend(trail, Bypassed(r, u), x);
    CountAppend(trail, Approved(r, u), x);
    CountAppend(trail, Parked(r, u), x);
  }

  lemma RespondKeeps(g: Gate, owner: bool, r: RoomId, u: UserId, admit: bool)
    requires Balanced(g) && Owned(g)
    ensures Balanced(Respond(g, owner, r, u, admit)) && Owned(Respond(g, owner, r, u, admit))
  {
    var g' := Respond(g, owner, r, u, admit);
    forall q, v
      ensures Count(g'.trail, Bypassed(q, v)) + Bit(Has(g'.approved, q, v)) <= Count(g'.trail, Approved(q, v))
      ensures Count(g'.trail, Approved(q, v)) + Bit(Has(g'.pending, q, v)) <= Count(g'.trail, Parked(q, v))
    {
      CountsAppend(g.trail, Approved(r, u), q, v);
      assert Count(g.trail, Bypassed(q, v)) + Bit(Has(g.approved, q, v)) <= Count(g.trail, Approved(q, v));
      hide Count;
    }
    hide Count;
  }

  lemma StepKeeps(g: Gate, op: Op)
    requires Balanced(g) && Owned(g)
    ensures Balanced(Step(g, op)) && Owned(Step(g, op))
  {
    hide Count, Authorize, Respond;
    match op
    case Attempt(r, u, f) => if u in g.connected { AuthorizeKeeps(g, r, u, f); }
    case Answer(owner, r, u, admit) => RespondKeeps(g, owner, r, u, admit);
    case Connect(_) => assert Step(g, op).trail == g.trail;
    case Disconnect(u) => if u in g.connected { DropKeeps(g.(connected := g.connected - {u}), g, u); }
    case LeaveRoom(u) => if u in g.connected { DropKeeps(g, g, u); }
  }

  lemma DropKeeps(h: Gate, g: Gate, u: UserId)
    requires Balanced(g) && Owned(g) && h == g.(connected := h.connected) && g.connected - {u} <= h.connected
    ensures Balanced(DropUser(h, u)) && Owned(DropUser(h, u))
  {
    ClearedEverywhere(g.pending, u);
    ClearedEverywhere(g.approved, u);
    hide Count, Balanced, Has, ClearEverywhere;
    FewerEntries(g, DropUser(h, u));
  }

  lemma ClearedEverywhere(es: Entries, u: UserId)
    ensures forall r, v :: Has(ClearEverywhere(es, u), r, v) <==> Has(es, r, v) && v != u
  {
  }

  lemma FewerEntries(g: Gate, g': Gate)
    requires Balanced(g) && Owned(g) && g'.trail == g.trail
    requires forall r, u :: Has(g'.pending, r, u) ==> Has(g.pending, r, u) && u in g'.connected
    requires forall r, u :: Has(g'.approved, r, u) ==> Has(g.approved, r, u) && u in g'.connected
    ensures Balanced(g') && Owned(g')
  {
    hide Count, Has;
    forall r, u
      ensures Count(g'.trail, Bypassed(r, u)) + Bit(Has(g'.approved, r, u)) <= Count(g'.trail, Approved(r, u))
      ensures Count(g'.trail, Approved(r, u)) + Bit(Has(g'.pending, r, u)) <= Count(g'.trail, Parked(r, u))
    {
      assert Count(g.trail, Bypassed(r, u)) + Bit(Has(g.approved, r, u)) <= Count(g.trail, Approved(r, u));
    }
  }

  lemma {:induction false} RunKeeps(g: Gate, ops: seq<Op>)
    requires Balanced(g) && Owned(g)
    ensures Balanced(Run(g, ops)) && Owned(Run(g, ops))
    decreases ops
  {
    hide Balanced, Owned, Step;
    if ops != [] {
      StepKeeps(g, ops[0]);
      RunKeeps(Step(g, ops[0]), ops[1..]);
    }
  }

  // ---- which operations are behind the trail ----

  /** A join that an approval lets pass. */
  predicate Bypasses(g: Gate, op: Op, r: RoomId, u: UserId) {
    op.Attempt? && op.room == r && op.user == u && u in g.connected && op.facts.found && !op.facts.owner && Has(g.approved, r, u)
  }

  /** An answer of the owner that admits somebody who waits. */
  predicate Admits(g: Gate, op: Op, r: RoomId, u: UserId) {
    op == Answer(true, r, u, true) && Has(g.pending, r, u)
  }

  /** An attempt that waits for the owner after passing the invitation and passcode checks. */
  predicate Parks(g: Gate, op: Op, r: RoomId, u: UserId) {
    op.Attempt? && op.room == r && op.user == u && u in g.connected && op.facts.found && !op.facts.owner && !Has(g.approved, r, u)
    && op.facts.invited && op.facts.passcode && op.facts.approval
  }

  /** How many operations of a run were bypasses, admissions and parked attempts. */
  datatype Totals = Totals(bypasses: nat, admissions: nat, parked: nat)

  function TotalsOf(g: Gate, ops: seq<Op>, r: RoomId, u: UserId): Totals
    decreases ops
  {
    if ops == [] then Totals(0, 0, 0)
    else
      var t := TotalsOf(Step(g, ops[0]), ops[1..], r, u);
      Totals(Bit(Bypasses(g, ops[0], r, u)) + t.bypasses, Bit(Admits(g, ops[0], r, u)) + t.admissions,
             Bit(Parks(g, ops[0], r, u)) + t.parked)
  }

  lemma StepCounts(g: Gate, op: Op, r: RoomId, u: UserId)
    ensures var t, n := g.trail, Step(g, op).trail;
            && Count(n, Bypassed(r, u)) == Count(t, Bypassed(r, u)) + Bit(Bypasses(g, op, r, u))
            && Count(n, Approved(r, u)) == Count(t, Approved(r, u)) + Bit(Admits(g, op, r, u))
            && Count(n, Parked(r, u)) == Count(t, Parked(r, u)) + Bit(Parks(g, op, r, u))
  {
    if op.Attempt? {
      CountsAppend(g.trail, Bypassed(op.room, op.user), r, u);
      CountsAppend(g.trail, Parked(op.room, op.user), r, u);
    } else if op.Answer? {
      CountsAppend(g.trail, Approved(op.room, op.user), r, u);
    }
    hide Count;
  }

  lemma {:induction false} RunCounts(g: Gate, ops: seq<Op>, r: RoomId, u: UserId)
    ensures var t, n, total := g.trail, Run(g, ops).trail, TotalsOf(g, ops, r, u);
            && Count(n, Bypassed(r, u)) == Count(t, Bypassed(r, u)) + total.bypasses
            && Count(n, Approved(r, u)) == Count(t, Approved(r, u)) + total.admissions
            && Count(n, Parked(r, u)) == Count(t, Parked(r, u)) + total.parked
    decreases ops
  {
    hide Step, Count, Bypasses, Admits, Parks;
    if ops != [] {
      StepCounts(g, ops[0], r, u);
      RunCounts(Step(g, ops[0]), ops[1..], r, u);
    }
  }

  /**
   In every run, per room and user: joins that skip the checks are at most the owner's admissions, and
   those at most the attempts that were parked after passing every check; and no request or approval
   outlives the connection it was made on.
   */
  lemma {:induction false} GateHolds(ops: seq<Op>, r: RoomId, u: UserId)
    ensures var g, total := Run(OPEN, ops), TotalsOf(OPEN, ops, r, u);
            && total.bypasses <= total.admissions <= total.parked
            && (Has(g.pending, r, u) || Has(g.approved, r, u) ==> u in g.connected)
  {
    assert Balanced(OPEN) && Owned(OPEN);
    RunKeeps(OPEN, ops);
    RunCounts(OPEN, ops, r, u);
    assert Count(OPEN.trail, Bypassed(r, u)) == 0 && Count(OPEN.trail, Approved(r, u)) == 0 && Count(OPEN.trail, Parked(r, u)) == 0;
    hide Run, Count, TotalsOf;
    var g := Run(OPEN, ops);
    assert Count(g.trail, Bypassed(r, u)) + Bit(Has(g.approved, r, u)) <= Count(g.trail, Approved(r, u));
  }

  // ---- the two halves of an admission ----

  /**
   An admission clears the request in one critical section and approves in another. With any run in between,
   entries stay with connected users if and only if the requester is connected when the second comes.
   */
  lemma {:induction false} LateApproval(g: Gate, r: RoomId, u: UserId, ops: seq<Op>)
    requires Balanced(g) && Owned(g) && Has(g.pending, r, u)
    ensures var h := Run(Answered(g, r, u), ops); Owned(Approve(h, r, u)) <==> u in h.connected
  {
    hide Balanced, Owned, Run;
    AnsweredKeeps(g, r, u);
    RunKeeps(Answered(g, r, u), ops);
    ApproveOwned(Run(Answered(g, r, u), ops), r, u);
  }

  lemma AnsweredKeeps(g: Gate, r: RoomId, u: UserId)
    requires Balanced(g) && Owned(g)
    ensures Balanced(Answered(g, r, u)) && Owned(Answered(g, r, u))
  {
    hide Count, Balanced;
    FewerEntries(g, Answered(g, r, u));
  }

  lemma ApproveOwned(g: Gate, r: RoomId, u: UserId)
    requires Owned(g)
    ensures Owned(Approve(g, r, u)) <==> u in g.connected
  {
    var a := Approve(g, r, u);
    assert Has(a.approved, r, u) && a.connected == g.connected && a.pending == g.pending;
    assert forall q, v :: Has(a.approved, q, v) <==> Has(g.approved, q, v) || (q == r && v == u);
    hide Approve;
    if u in g.connected { assert Owned(a); }
  }

  const GUEST := Attempt("x", 5, Facts(true, false, true, true, true))

  /**
   A run: 5 asks to join and disconnects while being admitted. The approval stays, and when 5 comes back it
   passes without any check, whatever has become of the invitation.
   */
  lemma LateApprovalRun(f: Facts)
    requires f.found
    ensures var g := Run(OPEN, [Connect(5), GUEST]); var a := Approve(Run(Answered(g, "x", 5), [Disconnect(5)]), "x", 5);
            Has(g.pending, "x", 5) && !Owned(a) && Authorize(Run(a, [Connect(5)]), "x", 5, f).1
  {
    assert [Connect(5), GUEST][1..] == [GUEST] && [GUEST][1..] == [];
    var c := Step(OPEN, Connect(5));
    var g := Step(c, GUEST);
    assert Run(OPEN, [Connect(5), GUEST]) == Run(c, [GUEST]) && Run(c, [GUEST]) == Run(g, []);
    var h := Answered(g, "x", 5);
    assert [Disconnect(5)][1..] == [] && Run(h, [Disconnect(5)]) == Run(Step(h, Disconnect(5)), []);
    var a := Approve(Step(h, Disconnect(5)), "x", 5);
    assert Has(a.approved, "x", 5) && 5 !in a.connected;
    assert [Connect(5)][1..] == [] && Run(a, [Connect(5)]) == Run(Step(a, Connect(5)), []);
  }

  // ---- the gate as the server keeps it ----

  class PrivateRoomGate {
    var pending: Entries
    var approved: Entries

    constructor ()
      ensures pending == map[] && approved == map[]
    {
      pending, approved := map[], map[];
    }

    method MarkPending(r: RoomId, u: UserId)
      modifies `pending
      ensures pending == Mark(old(pending), r, u)
    {
      if r !in pending {
        pending := pending[r := {}];
      }
      pending := pending[r := pending[r] + {u}];
    }

    method ClearPending(r: RoomId, u: UserId) returns (was: bool)
      modifies `pending
      ensures was == Has(old(pending), r, u) && pending == Clear(old(pending), r, u)
    {
      if r !in pending { return false; }
      was := u in pending[r];
      pending := pending[r := pending[r] - {u}];
    }

    method MarkApproved(r: RoomId, u: UserId)
      modifies `approved
      ensures approved == Mark(old(approved), r, u)
    {
      if r !in approved {
        approved := approved[r := {}];
      }
      approved := approved[r := approved[r] + {u}];
    }

    /** Reports and clears a one-time approval. */
    method ConsumeApproved(r: RoomId, u: UserId) returns (was: bool)
      modifies `approved
      ensures was == Has(old(approved), r, u)
      ensures approved == if was then Clear(old(approved), r, u) else old(approved)
    {
      if r !in approved || u !in approved[r] { return false; }
      approved := approved[r := approved[r] - {u}];
      return true;
    }

    method DropUserEverywhere(u: UserId)
      modifies this
      ensures pending == ClearEverywhere(old(pending), u) && approved == ClearEverywhere(old(approved), u)
    {
      var rest := pending.Keys;
      while rest != {}
        invariant rest <= pending.Keys == old(pending).Keys && approved == old(approved)
        invariant forall r :: r in pending ==> pending[r] == if r in rest then old(pending)[r] else old(pending)[r] - {u}
      {
        var r :| r in rest;
        pending := pending[r := pending[r] - {u}];
        rest := rest - {r};
      }
      rest := approved.Keys;
      while rest != {}
        invariant rest <= approved.Keys == old(approved).Keys && pending == ClearEverywhere(old(pending), u)
        invariant forall r :: r in approved ==> approved[r] == if r in rest then old(approved)[r] else old(approved)[r] - {u}
      {
        var r :| r in rest;
        approved := approved[r := approved[r] - {u}];
        rest := rest - {r};
      }
    }

    ghost function View(connected: set<UserId>, trail: seq<Event>): Gate
      reads this
    {
      Gate(pending, approved, connected, trail)
    }

    /** Every check in front of a private room, in the order in which they are made. */
    method AuthorizePrivateRoomJoin(r: RoomId, u: UserId, f: Facts, ghost connected: set<UserId>, ghost trail: seq<Event>)
      returns (ok: bool, ghost trail': seq<Event>)
      modifies this
      ensures (View(connected, trail'), ok) == Authorize(old(View(connected, trail)), r, u, f)
    {
      trail' := trail;
      if !f.found { return false, trail; }
      if f.owner { return true, trail; }
      var was := ConsumeApproved(r, u);
      if was { return true, trail + [Bypassed(r, u)]; }
      if !f.invited { return false, trail; }
      if !f.passcode { return false, trail; }
      if f.approval {
        MarkPending(r, u);
        return false, trail + [Parked(r, u)];
      }
      return true, trail;
    }

    /** The owner's answer; a request that is no longer pending is ignored. */
    method RespondToJoinRequest(owner: bool, r: RoomId, u: UserId, admit: bool, ghost connected: set<UserId>, ghost trail: seq<Event>)
      returns (ghost trail': seq<Event>)
      modifies this
      ensures View(connected, trail') == Respond(old(View(connected, trail)), owner, r, u, admit)
    {
      trail' := trail;
      if !owner { return; }
      var was := ClearPending(r, u);
      if !was {
        assert r in pending ==> pending[r] == old(pending)[r];
        assert pending == old(pending);
        return;
      }
      if admit {
        MarkApproved(r, u);
        trail' := trail + [Approved(r, u)];
      }
    }
  }
}
