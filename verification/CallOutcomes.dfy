/**
 What every handler and timer callback of direct calls leads to, for every reachable state: which call begins,
 is accepted or is over, who is free, what the history says of it, and that no other call notices.
 */
module CallOutcomes {
  import opened Media
  import opened CallModel
  import opened CallInvariants
  import CallLog

  /** The participant row of `u` in history row `row` says `p`; nobody else's changed. */
  predicate Entries(l: CallLog.Log, m: CallLog.Log, row: nat, a: UserId, pa: CallLog.Part, b: UserId, pb: CallLog.Part) {
    m.parts == l.parts[CallLog.Cell(row, a) := pa][CallLog.Cell(row, b) := pb]
  }

  /**
   Call `id` is over: nobody is in it, its row is closed, both parties have left, and the callee has missed it
   exactly if it still rang.
   */
  ghost predicate IsOver(s: State, t: State, id: CallId) {
    && id in s.calls && t.calls == s.calls - {id}
    && var c := s.calls[id];
       && (forall u :: u in t.byUser <==> u in s.byUser && u != c.caller && u != c.callee)
       && (forall u :: u in t.byUser ==> t.byUser[u] == s.byUser[u])
       && t.trail == s.trail + [Finished(id)] && t.timers == s.timers
       && c.row in s.log.rows && t.log.next == s.log.next && t.log.rows == s.log.rows[c.row := s.log.rows[c.row].(ended := true)]
       && var rang := c.state == Ringing;
          Entries(s.log, t.log, c.row, c.caller, CallLog.Part(true, true, false), c.callee, CallLog.Part(!rang, true, rang))
  }

  /** Call `id` is active and no longer timed, and `u` is present in it. */
  ghost predicate IsActive(s: State, t: State, id: CallId, u: UserId) {
    && id in s.calls && id in t.calls && t.calls == s.calls[id := t.calls[id]]
    && var c := s.calls[id];
       && t.calls[id] == c.(state := Active, timer := false)
       && t == s.(calls := t.calls, log := t.log, trail := s.trail + [Accepted(id)])
       && t.log == s.log.(parts := t.log.parts) && t.log.parts == s.log.parts[CallLog.Cell(c.row, u) := CallLog.Part(true, false, false)]
  }

  /** A new call rings at both ends, in a new open row. */
  ghost predicate Rings(s: State, t: State, id: CallId, a: UserId, b: UserId) {
    && t.calls == s.calls[id := Call(a, b, s.log.next, Ringing, true)] && id !in s.calls
    && t.byUser == s.byUser[a := id][b := id] && t.grace == s.grace && t.timers == s.timers
    && t.trail == s.trail + [Logged(id, s.log.next, a, b), Rang(id)]
    && Files(s.log, t.log, id, a, b, false)
  }

  /** A call to somebody offline: a new closed row with a missed callee, and nothing in memory. */
  ghost predicate IsMissed(s: State, t: State, id: CallId, a: UserId, b: UserId) {
    t == s.(log := t.log, trail := s.trail + [Logged(id, s.log.next, a, b)]) && Files(s.log, t.log, id, a, b, true)
  }

  ghost predicate Files(l: CallLog.Log, m: CallLog.Log, id: CallId, a: UserId, b: UserId, over: bool) {
    && l.next !in l.rows && m.next == l.next + 1 && m.rows == l.rows[l.next := CallLog.Row(id, a, false, over)]
    && Entries(l, m, l.next, a, CallLog.Part(true, over, false), b, CallLog.Part(false, over, true))
  }

  /** What an operation achieves, and when it achieves nothing. */
  ghost predicate Achieves(s: State, t: State, op: Op) {
    match op
    case InviteOp(a, b, id, known, inRoom, online) =>
      if b == 0 || a == b || !known || inRoom || a in s.byUser || b in s.byUser then t == s
      else if online then Rings(s, t, id, a, b)
      else IsMissed(s, t, id, a, b)
    case AcceptOp(id, u) =>
      if id in s.calls && s.calls[id].state == Ringing && s.calls[id].callee == u then IsActive(s, t, id, u) else t == s
    case DeclineOp(id, u) =>
      if id in s.calls && s.calls[id].state == Ringing && s.calls[id].callee == u
      then IsOver(s, t, id) && t.grace == s.grace else t == s
    case RingFires(id) =>
      if id in s.calls && s.calls[id].state == Ringing then IsOver(s, t, id) && t.grace == s.grace else t == s
    case HangupOp(id, u) =>
      if id in s.calls && (s.calls[id].caller == u || s.calls[id].callee == u)
      then IsOver(s, t, id) && t.grace == s.grace else t == s
    case DisconnectOp(u) => if u in s.byUser then IsOver(s, t, s.byUser[u]) && t.grace == s.grace else t == s
    case DropOp(u) =>
      if u in s.byUser
      then t == s.(grace := s.grace[u := s.timers], timers := s.timers + 1, trail := s.trail + [Armed(s.timers, u, s.byUser[u])])
      else t == s
    case ResumeOp(u, id) =>
      if u in s.byUser && s.byUser[u] == id then t == s.(grace := s.grace - {u}) else t == s
    case GraceOp(u, timer) =>
      if u in s.grace && s.grace[u] == timer
      then t.grace == s.grace - {u} && if u in s.byUser then IsOver(s, t, s.byUser[u]) else t == s.(grace := t.grace)
      else t == s
    case OtherWriter(l) => t == s.(log := l)
  }

  lemma EndOutcome(s: State, id: CallId, expected: Option<Phase>)
    requires Inv(s)
    ensures var t := End(s, id, expected);
            if id in s.calls && (expected.Some? ==> s.calls[id].state == expected.value)
            then IsOver(s, t, id) && t.grace == s.grace else t == s
  {
    hide EndedOnce, Graces, RowsOk, KnownIds, OpenLive, Finalize, CallLog.OpenRow, Release;
    if Endable(s, id, expected) {
      var c := s.calls[id];
      EndPairing(s, id, expected);
      RowParts(s, id);
      FinalizeFacts(s.log, c);
      EndedParts(s.log, c);
    }
  }

  /** What the history says of a live call. */
  lemma RowParts(s: State, id: CallId)
    requires Inv(s) && id in s.calls
    ensures var c := s.calls[id]; var a, b := CallLog.Cell(c.row, c.caller), CallLog.Cell(c.row, c.callee); var rang := c.state == Ringing;
            && c.row in s.log.rows && !s.log.rows[c.row].ended && c.caller != c.callee && CallLog.Valid(s.log)
            && a in s.log.parts && s.log.parts[a] == CallLog.Part(true, false, false)
            && b in s.log.parts && s.log.parts[b] == CallLog.Part(!rang, false, rang)
  {
    hide EndedOnce, Graces, KnownIds, OpenLive, Pairing;
    var c := s.calls[id];
    assert Logged(id, c.row, c.caller, c.callee) in s.trail;
    assert RowOk(s, id, c.row, c.caller, c.callee);
  }

  lemma EndedParts(l: CallLog.Log, c: Call)
    requires CallLog.Valid(l) && c.row in l.rows && c.caller != c.callee && !l.rows[c.row].ended && c.row >= 1
    requires CallLog.Cell(c.row, c.caller) in l.parts && CallLog.Cell(c.row, c.callee) in l.parts
    ensures var m := Finalize(l, c); var a, b := CallLog.Cell(c.row, c.caller), CallLog.Cell(c.row, c.callee);
            && m.next == l.next && m.rows == l.rows[c.row := l.rows[c.row].(ended := true)]
            && m.parts == l.parts[a := l.parts[a].(left := true)][b := l.parts[b].(left := true)]
  {
  }

  lemma InviteAchieves(s: State, op: Op)
    requires Inv(s) && Enabled(s, op) && op.InviteOp?
    ensures Achieves(s, Step(s, op), op)
  {
    hide EndedOnce, Graces, RowsOk, OpenLive, RingTimers, Pairing, LogInvite, CallLog.MarkMissed, Finalize;
    var InviteOp(a, b, id, known, inRoom, online) := op;
    NewIdIsFree(s, id);
    if Placeable(s, a, b, id, known, inRoom) { InviteLog(s, a, b, id, known, inRoom, online); }
  }

  lemma NewIdIsFree(s: State, id: CallId)
    requires Inv(s) && !Used(s, id)
    ensures id !in s.calls
  {
    hide RowOk, Pairing, Graces, OpenLive;
  }

  lemma AcceptAchieves(s: State, op: Op)
    requires Inv(s) && op.AcceptOp?
    ensures Achieves(s, Step(s, op), op)
  {
    var AcceptOp(id, u) := op;
    if CanAccept(s, id, u) {
      RowParts(s, id);
      hide Inv;
      AcceptFacts(s.log, s.calls[id].row, u);
    }
  }

  lemma InTheirCall(s: State, u: UserId)
    requires Inv(s)
    ensures u in s.byUser ==> s.byUser[u] in s.calls
  {
    hide Rows, EndedOnce, Graces, RingTimers;
  }

  lemma GraceAchieves(s: State, op: Op)
    requires Inv(s) && op.GraceOp?
    ensures Achieves(s, Step(s, op), op)
  {
    hide Inv, Finalize, End;
    var u := op.user;
    if u in s.grace && s.grace[u] == op.timer {
      var g := s.(grace := s.grace - {u});
      GraceLess(s, u);
      InTheirCall(s, u);
      if u in s.byUser { EndOutcome(g, s.byUser[u], None); }
    }
  }

  /** Every operation achieves that in every reachable state. */
  lemma OpOutcome(s: State, op: Op)
    requires Inv(s) && Enabled(s, op)
    ensures Achieves(s, Step(s, op), op)
  {
    hide Inv, IsOver, IsActive, Finalize, End, Enabled;
    match op
    case InviteOp(_, _, _, _, _, _) => InviteAchieves(s, op);
    case AcceptOp(id, u) => AcceptAchieves(s, op);
    case DeclineOp(id, u) => MissKeeps(s, id); EndOutcome(s, id, Some(Ringing));
    case RingFires(id) => MissKeeps(s, id); EndOutcome(s, id, Some(Ringing));
    case HangupOp(id, u) => EndOutcome(s, id, None);
    case DisconnectOp(u) => InTheirCall(s, u); if u in s.byUser { EndOutcome(s, s.byUser[u], None); }
    case GraceOp(u, t) => GraceAchieves(s, op);
    case _ =>
  }
}
