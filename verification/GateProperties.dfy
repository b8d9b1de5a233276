/**
 Who gets past the gate of a private room. One attempt is decided by the room's owner, a standing approval, or
 the invitation, passcode and approval settings; and over whole runs a standing approval is exactly an admission
 that nothing has taken back, of a request that passed the checks on the same connection.
 */
module GateProperties {
  import opened Media
  import opened PrivateRooms

  // ---- one attempt, one answer, one departure ----

  /** Only the entry of `u` for room `r` may have changed, and it is there now exactly if `there`. */
  ghost predicate Sets(es: Entries, fs: Entries, r: RoomId, u: UserId, there: bool) {
    forall q, v :: Has(fs, q, v) <==> if q == r && v == u then there else Has(es, q, v)
  }

  /** May the join proceed? For the owner, with a standing approval, or with everything the room asks for. */
  predicate Entitled(g: Gate, r: RoomId, u: UserId, f: Facts) {
    f.found && (f.owner || Has(g.approved, r, u) || (f.invited && f.passcode && !f.approval))
  }

  /** A join that an approval lets pass spends it; an attempt that waits is put on the list; nothing else leaves a trace. */
  lemma AttemptOutcome(g: Gate, r: RoomId, u: UserId, f: Facts)
    requires u in g.connected
    ensures var (h, ok) := Authorize(g, r, u, f); var op := Attempt(r, u, f);
            && (ok <==> Entitled(g, r, u, f))
            && h.connected == g.connected
            && if Bypasses(g, op, r, u) then
                 Sets(g.approved, h.approved, r, u, false) && h.pending == g.pending && h.trail == g.trail + [Bypassed(r, u)]
               else if Parks(g, op, r, u) then
                 Sets(g.pending, h.pending, r, u, true) && h.approved == g.approved && h.trail == g.trail + [Parked(r, u)]
               else h == g
  {
  }

  /** Only the owner's answer to somebody who waits counts: it ends the wait, and approves if it admits. */
  lemma AnswerOutcome(g: Gate, owner: bool, r: RoomId, u: UserId, admit: bool)
    ensures var h := Respond(g, owner, r, u, admit);
            if owner && Has(g.pending, r, u) then
              && Sets(g.pending, h.pending, r, u, false) && Sets(g.approved, h.approved, r, u, admit || Has(g.approved, r, u))
              && h.connected == g.connected && h.trail == g.trail + if admit then [Approved(r, u)] else []
            else h == g
  {
  }

  // ---- what ends an approval and a wait ----

  /** `u` leaves its room or disconnects. */
  predicate Departs(g: Gate, op: Op, u: UserId) {
    (op == Disconnect(u) || op == LeaveRoom(u)) && u in g.connected
  }

  predicate Spends(g: Gate, op: Op, r: RoomId, u: UserId) {
    Departs(g, op, u) || Bypasses(g, op, r, u)
  }

  predicate Settles(g: Gate, op: Op, r: RoomId, u: UserId) {
    Departs(g, op, u) || (op.Answer? && op.owner && op.room == r && op.user == u)
  }

  /** One operation: an approval stands if it is given now or stood and is not taken back, and so for a wait and a connection. */
  lemma StepEntries(g: Gate, op: Op, r: RoomId, u: UserId)
    ensures Has(Step(g, op).approved, r, u) <==> Admits(g, op, r, u) || (Has(g.approved, r, u) && !Spends(g, op, r, u))
    ensures Has(Step(g, op).pending, r, u) <==> Parks(g, op, r, u) || (Has(g.pending, r, u) && !Settles(g, op, r, u))
    ensures u in Step(g, op).connected <==> op == Connect(u) || (u in g.connected && op != Disconnect(u))
  {
    match op
    case Connect(_) =>
    case Disconnect(v) => ClearedEverywhere(g.pending, v); ClearedEverywhere(g.approved, v); hide ClearEverywhere;
    case LeaveRoom(v) => ClearedEverywhere(g.pending, v); ClearedEverywhere(g.approved, v); hide ClearEverywhere;
    case Attempt(q, v, f) =>
      if v in g.connected { AttemptOutcome(g, q, v, f); }
      hide Authorize;
    case Answer(owner, q, v, admit) =>
      AnswerOutcome(g, owner, q, v, admit);
      hide Respond;
  }

  // ---- whole runs ----

  /** The gate before the operation at `n`. */
  function At(ops: seq<Op>, n: nat): Gate
    requires n <= |ops|
  {
    Run(OPEN, ops[..n])
  }

  lemma {:induction false} RunOneMore(g: Gate, ops: seq<Op>, op: Op)
    ensures Run(g, ops + [op]) == Step(Run(g, ops), op)
    decreases ops
  {
    hide Step;
    if ops == [] {
      assert ([] + [op])[1..] == [];
    } else {
      assert (ops + [op])[1..] == ops[1..] + [op];
      RunOneMore(Step(g, ops[0]), ops[1..], op);
    }
  }

  lemma Next(ops: seq<Op>, n: nat)
    requires n < |ops|
    ensures At(ops, n + 1) == Step(At(ops, n), ops[n])
  {
    assert ops[..n + 1] == ops[..n] + [ops[n]];
    RunOneMore(OPEN, ops[..n], ops[n]);
  }

  /** The owner admitted `u` at `j`, and up to `n` nothing took that back. */
  ghost predicate ApprovedSince(ops: seq<Op>, j: nat, n: nat, r: RoomId, u: UserId) {
    && j < n <= |ops| && Admits(At(ops, j), ops[j], r, u)
    && forall k :: j < k < n ==> !Spends(At(ops, k), ops[k], r, u)
  }

  /** `u` asked at `i`, passing the invitation and passcode checks, and up to `n` was neither answered nor away. */
  ghost predicate WaitsSince(ops: seq<Op>, i: nat, n: nat, r: RoomId, u: UserId) {
    && i < n <= |ops| && Parks(At(ops, i), ops[i], r, u)
    && forall k :: i < k < n ==> !Settles(At(ops, k), ops[k], r, u)
  }

  /** In every run an approval stands exactly if there is an admission that nothing has taken back since. */
  lemma {:induction false} ApprovalsAreAdmissions(ops: seq<Op>, n: nat, r: RoomId, u: UserId)
    requires n <= |ops|
    ensures Has(At(ops, n).approved, r, u) <==> exists j :: ApprovedSince(ops, j, n, r, u)
    decreases n
  {
    hide Step, Admits, Spends, Has, At;
    if n == 0 {
      assert At(ops, 0) == OPEN && !Has(OPEN.approved, r, u) by { Opens(ops, r, u); }
    } else {
      ApprovalsAreAdmissions(ops, n - 1, r, u);
      Next(ops, n - 1);
      StepEntries(At(ops, n - 1), ops[n - 1], r, u);
      forall j: nat | ApprovedSince(ops, j, n, r, u) && j < n - 1
        ensures ApprovedSince(ops, j, n - 1, r, u) && !Spends(At(ops, n - 1), ops[n - 1], r, u)
      {
      }
      if Admits(At(ops, n - 1), ops[n - 1], r, u) {
        assert ApprovedSince(ops, n - 1, n, r, u);
      } else if Has(At(ops, n).approved, r, u) {
        var j :| ApprovedSince(ops, j, n - 1, r, u);
        assert ApprovedSince(ops, j, n, r, u);
      }
    }
  }

  lemma Opens(ops: seq<Op>, r: RoomId, u: UserId)
    ensures At(ops, 0) == OPEN && !Has(OPEN.approved, r, u) && !Has(OPEN.pending, r, u)
  {
  }

  /** And somebody waits exactly if they asked, passed the checks, and were neither answered nor away since. */
  lemma {:induction false} WaitsAreRequests(ops: seq<Op>, n: nat, r: RoomId, u: UserId)
    requires n <= |ops|
    ensures Has(At(ops, n).pending, r, u) <==> exists i :: WaitsSince(ops, i, n, r, u)
    decreases n
  {
    hide Step, Parks, Settles, Has, At;
    if n == 0 {
      Opens(ops, r, u);
    } else {
      WaitsAreRequests(ops, n - 1, r, u);
      Next(ops, n - 1);
      StepEntries(At(ops, n - 1), ops[n - 1], r, u);
      forall i: nat | WaitsSince(ops, i, n, r, u) && i < n - 1
        ensures WaitsSince(ops, i, n - 1, r, u) && !Settles(At(ops, n - 1), ops[n - 1], r, u)
      {
      }
      if Parks(At(ops, n - 1), ops[n - 1], r, u) {
        assert WaitsSince(ops, n - 1, n, r, u);
      } else if Has(At(ops, n).pending, r, u) {
        var i :| WaitsSince(ops, i, n - 1, r, u);
        assert WaitsSince(ops, i, n, r, u);
      }
    }
  }

  /** Does the attempt at `n` get past the gate? */
  predicate GetsIn(ops: seq<Op>, n: nat)
    requires n < |ops|
  {
    ops[n].Attempt? && ops[n].user in At(ops, n).connected && Authorize(At(ops, n), ops[n].room, ops[n].user, ops[n].facts).1
  }

  /** A request that passed the checks at `i` was admitted by the owner at `j`, with its user there from then to `n`. */
  ghost predicate Cleared(ops: seq<Op>, i: nat, j: nat, n: nat, r: RoomId, u: UserId) {
    WaitsSince(ops, i, j, r, u) && ApprovedSince(ops, j, n, r, u)
  }

  /**
   In every run, exactly these attempts of connected users at a room that is there get in: the owner's, those of
   somebody whose earlier request passed the checks and was admitted and who has not left, disconnected or
   joined on it since, and those that meet everything a room without approvals asks for.
   */
  lemma {:induction false} OnlyTheEntitledGetIn(ops: seq<Op>, n: nat)
    requires n < |ops| && ops[n].Attempt?
    ensures var Attempt(r, u, f) := ops[n];
            GetsIn(ops, n) <==>
              && u in At(ops, n).connected && f.found
              && (f.owner || (f.invited && f.passcode && !f.approval) || exists i, j :: Cleared(ops, i, j, n, r, u))
  {
    var Attempt(r, u, f) := ops[n];
    hide Authorize, Has, At, WaitsSince, ApprovedSince, Run;
    ApprovalsAreAdmissions(ops, n, r, u);
    if u in At(ops, n).connected { AttemptOutcome(At(ops, n), r, u, f); }
    if j :| ApprovedSince(ops, j, n, r, u) {
      AdmittedWaited(ops, j, n, r, u);
      WaitsAreRequests(ops, j, r, u);
      var i :| WaitsSince(ops, i, j, r, u);
      assert Cleared(ops, i, j, n, r, u);
    }
  }

  lemma AdmittedWaited(ops: seq<Op>, j: nat, n: nat, r: RoomId, u: UserId)
    requires ApprovedSince(ops, j, n, r, u)
    ensures j <= |ops| && Has(At(ops, j).pending, r, u)
  {
    hide At, Run;
  }

  /** An attempt that neither gets in nor is put on the waiting list changes nothing. */
  lemma RefusedLeavesNoTrace(ops: seq<Op>, n: nat)
    requires n < |ops| && ops[n].Attempt? && !GetsIn(ops, n) && !Parks(At(ops, n), ops[n], ops[n].room, ops[n].user)
    ensures At(ops, n + 1) == At(ops, n)
  {
    hide Run, Authorize;
    Next(ops, n);
    var g := At(ops, n);
    if ops[n].user in g.connected { AttemptOutcome(g, ops[n].room, ops[n].user, ops[n].facts); }
  }
}
