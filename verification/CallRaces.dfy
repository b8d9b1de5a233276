/**
 Below the granularity of handlers: an accept changes memory in one critical section and writes the history
 afterwards. Whatever call operations come in between, the history is right afterwards exactly if the call
 is still live then. And runs of a new manager that reach what goes wrong.
 */
module CallRaces {
  import opened Media
  import opened CallModel
  import opened CallInvariants
  import CallProperties
  import CallOutcomes
  import CallLog

  // ---- the two halves of an accept ----

  function AcceptInMemory(s: State, id: CallId): State
    requires id in s.calls
  {
    s.(calls := s.calls[id := s.calls[id].(state := Active, timer := false)], trail := s.trail + [Accepted(id)])
  }

  function AcceptInHistory(s: State, row: nat, u: UserId): State {
    s.(log := CallLog.AddParticipant(s.log, row, u, true))
  }

  /** With nothing in between they make up an accept. */
  lemma TwoHalves(s: State, id: CallId, u: UserId)
    requires CanAccept(s, id, u)
    ensures AcceptInHistory(AcceptInMemory(s, id), s.calls[id].row, u) == Accept(s, id, u)
  {
  }

  // ---- lagging behind by one participant ----

  /** `m` is `l`, but the participant of cell `c` has not been noted as having joined. */
  ghost predicate Behind(l: CallLog.Log, m: CallLog.Log, c: CallLog.Cell) {
    && m.next == l.next && m.rows == l.rows && m.parts.Keys == l.parts.Keys && c in l.parts
    && (forall d: CallLog.Cell :: d in l.parts && d != c ==> m.parts[d] == l.parts[d])
    && l.parts[c].joined && !l.parts[c].missed
    && m.parts[c] == CallLog.Part(false, l.parts[c].left, true)
  }

  lemma StatementsBehind(l: CallLog.Log, m: CallLog.Log, c: CallLog.Cell, r: nat, v: UserId, joined: bool)
    requires Behind(l, m, c)
    ensures Behind(CallLog.ParticipantLeft(l, r, v), CallLog.ParticipantLeft(m, r, v), c)
    ensures Behind(CallLog.EndCall(l, r), CallLog.EndCall(m, r), c)
    ensures CallLog.Cell(r, v) != c ==> Behind(CallLog.AddParticipant(l, r, v, joined), CallLog.AddParticipant(m, r, v, joined), c)
    ensures CallLog.Cell(r, v) != c ==> Behind(CallLog.MarkMissed(l, r, v), CallLog.MarkMissed(m, r, v), c)
  {
  }

  lemma FinalizeBehind(l: CallLog.Log, m: CallLog.Log, c: CallLog.Cell, call: Call)
    requires Behind(l, m, c)
    ensures Behind(Finalize(l, call), Finalize(m, call), c)
  {
    hide Behind, CallLog.ParticipantLeft, CallLog.EndCall, CallLog.AddParticipant, CallLog.MarkMissed;
    if call.row != 0 {
      StatementsBehind(l, m, c, call.row, call.caller, true);
      var l1, m1 := CallLog.ParticipantLeft(l, call.row, call.caller), CallLog.ParticipantLeft(m, call.row, call.caller);
      StatementsBehind(l1, m1, c, call.row, call.callee, true);
      StatementsBehind(CallLog.ParticipantLeft(l1, call.row, call.callee), CallLog.ParticipantLeft(m1, call.row, call.callee),
                       c, call.row, call.callee, true);
    }
  }

  lemma LogInviteBehind(l: CallLog.Log, m: CallLog.Log, c: CallLog.Cell, a: UserId, b: UserId, id: CallId)
    requires Behind(l, m, c) && c.call < l.next
    ensures Behind(LogInvite(l, a, b, id), LogInvite(m, a, b, id), c)
  {
    var l1, m1 := CallLog.CreateCall(l, id, a, false), CallLog.CreateCall(m, id, a, false);
    assert Behind(l1, m1, c);
    hide Behind, CallLog.ParticipantLeft, CallLog.EndCall, CallLog.AddParticipant, CallLog.MarkMissed, CallLog.CreateCall;
    StatementsBehind(l1, m1, c, l.next, a, true);
    StatementsBehind(CallLog.AddParticipant(l1, l.next, a, true), CallLog.AddParticipant(m1, l.next, a, true), c, l.next, b, false);
  }

  /**
   `f` is the state with the accept carried out in full, `h` the one in which the history write is still to
   come. They differ in that write only.
   */
  ghost predicate Lag(f: State, h: State, id: CallId, row: nat, a: UserId, u: UserId) {
    && Inv(f) && h == f.(log := h.log)
    && Accepted(id) in f.trail && Logged(id, row, a, u) in f.trail
    && Behind(f.log, h.log, CallLog.Cell(row, u))
  }

  /** The row in question belongs to no other call, and its call no longer rings. */
  lemma LagRow(f: State, id: CallId, row: nat, a: UserId, u: UserId)
    requires Inv(f) && Accepted(id) in f.trail && Logged(id, row, a, u) in f.trail
    ensures row < f.log.next
    ensures forall i :: i in f.calls && i != id ==> f.calls[i].row != row
    ensures id in f.calls ==> f.calls[id].state == Active && f.calls[id].row == row
  {
    hide Pairing, EndedOnce, Graces, KnownIds, OpenLive;
    assert RowOk(f, id, row, a, u);
    forall i | i in f.calls && i != id ensures f.calls[i].row != row { OneRow(f, i, id, row, a, u); }
    if id in f.calls { OneRow(f, id, id, row, a, u); }
  }

  /** Apart from the history, an operation does the same to both. */
  ghost predicate Alike(f: State, h: State, op: Op) {
    Step(h, op) == Step(f, op).(log := Step(h, op).log)
  }

  lemma EndLag(f: State, h: State, c: CallLog.Cell, id: CallId, expected: Option<Phase>)
    requires h == f.(log := h.log) && Behind(f.log, h.log, c)
    ensures var g, k := End(f, id, expected), End(h, id, expected); k == g.(log := k.log) && Behind(g.log, k.log, c)
  {
    hide Behind, Finalize, Release;
    if Endable(f, id, expected) { FinalizeBehind(f.log, h.log, c, f.calls[id]); }
  }

  lemma MissLag(f: State, h: State, c: CallLog.Cell, id: CallId)
    requires h == f.(log := h.log) && Behind(f.log, h.log, c)
    requires id in f.calls && f.calls[id].state == Ringing ==> f.calls[id].row != c.call
    ensures var g, k := Miss(f, id), Miss(h, id); k == g.(log := k.log) && Behind(g.log, k.log, c)
  {
    hide Behind, End, CallLog.ParticipantLeft, CallLog.EndCall, CallLog.AddParticipant, CallLog.MarkMissed;
    EndLag(f, h, c, id, Some(Ringing));
    if Endable(f, id, Some(Ringing)) {
      StatementsBehind(End(f, id, Some(Ringing)).log, End(h, id, Some(Ringing)).log, c, f.calls[id].row, f.calls[id].callee, true);
    }
  }

  lemma InviteLag(f: State, h: State, c: CallLog.Cell, op: Op)
    requires h == f.(log := h.log) && Behind(f.log, h.log, c) && c.call < f.log.next && op.InviteOp?
    ensures Alike(f, h, op) && Behind(Step(f, op).log, Step(h, op).log, c)
  {
    InviteLogs(f.log, h.log, c, op);
    SameNext(f.log, h.log, c);
    hide Behind, LogInvite, Finalize, CallLog.MarkMissed;
  }

  lemma InviteLogs(l: CallLog.Log, m: CallLog.Log, c: CallLog.Cell, op: Op)
    requires Behind(l, m, c) && c.call < l.next && op.InviteOp?
    ensures Behind(LogInvite(l, op.caller, op.callee, op.id), LogInvite(m, op.caller, op.callee, op.id), c)
    ensures var call := Call(op.caller, op.callee, l.next, Ringing, true);
            Behind(Finalize(CallLog.MarkMissed(LogInvite(l, op.caller, op.callee, op.id), l.next, op.callee), call),
                   Finalize(CallLog.MarkMissed(LogInvite(m, op.caller, op.callee, op.id), l.next, op.callee), call), c)
  {
    LogInviteBehind(l, m, c, op.caller, op.callee, op.id);
    hide Behind, LogInvite, Finalize, CallLog.ParticipantLeft, CallLog.EndCall, CallLog.AddParticipant, CallLog.MarkMissed;
    var l1, m1 := LogInvite(l, op.caller, op.callee, op.id), LogInvite(m, op.caller, op.callee, op.id);
    StatementsBehind(l1, m1, c, l.next, op.callee, true);
    FinalizeBehind(CallLog.MarkMissed(l1, l.next, op.callee), CallLog.MarkMissed(m1, l.next, op.callee), c,
                   Call(op.caller, op.callee, l.next, Ringing, true));
  }

  lemma SameNext(l: CallLog.Log, m: CallLog.Log, c: CallLog.Cell)
    requires Behind(l, m, c)
    ensures l.next == m.next
  {
  }

  lemma AcceptLag(f: State, h: State, c: CallLog.Cell, id: CallId, u: UserId)
    requires h == f.(log := h.log) && Behind(f.log, h.log, c)
    requires CanAccept(f, id, u) ==> f.calls[id].row != c.call
    ensures var g, k := Accept(f, id, u), Accept(h, id, u); k == g.(log := k.log) && Behind(g.log, k.log, c)
  {
    hide Behind, CallLog.ParticipantLeft, CallLog.EndCall, CallLog.AddParticipant, CallLog.MarkMissed;
    if CanAccept(f, id, u) { StatementsBehind(f.log, h.log, c, f.calls[id].row, u, true); }
  }

  lemma DisconnectLag(f: State, h: State, c: CallLog.Cell, u: UserId)
    requires h == f.(log := h.log) && Behind(f.log, h.log, c)
    ensures var g, k := Disconnect(f, u), Disconnect(h, u); k == g.(log := k.log) && Behind(g.log, k.log, c)
  {
    hide Behind, End;
    if u in f.byUser { EndLag(f, h, c, f.byUser[u], None); }
  }

  /** Any operation of a manager keeps the lag as it is; another writer's log is brought up to date in `f`. */
  lemma LagStep(f: State, h: State, op: Op, id: CallId, row: nat, a: UserId, u: UserId) returns (full: Op)
    requires Lag(f, h, id, row, a, u) && Enabled(h, op)
    ensures Enabled(f, full) && Lag(Step(f, full), Step(h, op), id, row, a, u)
  {
    hide Inv, Behind, Step, Enabled, Alike;
    var c := CallLog.Cell(row, u);
    RowThere(f, id, row, a, u);
    full := if op.OtherWriter? then OtherWriter(op.log.(parts := op.log.parts[c := f.log.parts[c]])) else op;
    if op.OtherWriter? {
      OtherLag(f, h, op, full, c);
    } else {
      LagRow(f, id, row, a, u);
      MovesLag(f, h, op, c, id);
      SameEnabled(f, h, op);
    }
    StepKeeps(f, full);
    CallProperties.StepTrail(f, full);
    StillThere(f.trail, Step(f, full).trail, Accepted(id));
    StillThere(f.trail, Step(f, full).trail, Logged(id, row, a, u));
    assert Step(h, op) == Step(f, full).(log := Step(h, op).log) by { hide *; AlikeReads(f, h, op, full); }
  }

  lemma AlikeReads(f: State, h: State, op: Op, full: Op)
    requires if op.OtherWriter? then full.OtherWriter? && h == f.(log := h.log) else full == op && Alike(f, h, op)
    ensures Step(h, op) == Step(f, full).(log := Step(h, op).log)
  {
  }

  lemma SameEnabled(f: State, h: State, op: Op)
    requires h == f.(log := h.log) && Enabled(h, op) && !op.OtherWriter?
    ensures Enabled(f, op)
  {
    SameIds(f, h);
  }

  lemma OtherLag(f: State, h: State, op: Op, full: Op, c: CallLog.Cell)
    requires Behind(f.log, h.log, c) && op.OtherWriter? && Enabled(h, op) && c.call in f.log.rows && !f.log.rows[c.call].conference
    requires c in f.log.parts && full == OtherWriter(op.log.(parts := op.log.parts[c := f.log.parts[c]]))
    ensures Enabled(f, full) && Behind(Step(f, full).log, Step(h, op).log, c)
  {
    WriterLag(f, h, op.log, full.log, c);
    hide Behind, Spares;
  }

  lemma StillThere(t: seq<Event>, more: seq<Event>, e: Event)
    requires |t| <= |more| && more[..|t|] == t && e in t
    ensures e in more
  {
    assert e in more[..|t|];
  }

  lemma SameIds(f: State, h: State)
    requires h == f.(log := h.log)
    ensures forall id :: Used(f, id) <==> Used(h, id)
  {
  }

  lemma RowThere(f: State, id: CallId, row: nat, a: UserId, u: UserId)
    requires Inv(f) && Logged(id, row, a, u) in f.trail
    ensures row in f.log.rows && !f.log.rows[row].conference && CallLog.Cell(row, u) in f.log.parts
  {
    hide Pairing, EndedOnce, Graces, KnownIds, OpenLive, LiveLogged;
    assert RowOk(f, id, row, a, u);
  }

  lemma WriterLag(f: State, h: State, m: CallLog.Log, l: CallLog.Log, c: CallLog.Cell)
    requires Behind(f.log, h.log, c) && Spares(h.log, m) && c.call in f.log.rows && !f.log.rows[c.call].conference
    requires l == m.(parts := m.parts[c := f.log.parts[c]])
    ensures Spares(f.log, l) && Behind(l, m, c)
  {
  }

  lemma MovesLag(f: State, h: State, op: Op, c: CallLog.Cell, id: CallId)
    requires h == f.(log := h.log) && Behind(f.log, h.log, c) && !op.OtherWriter? && c.call < f.log.next
    requires forall i :: i in f.calls && i != id ==> f.calls[i].row != c.call
    requires id in f.calls ==> f.calls[id].state == Active
    ensures Alike(f, h, op) && Behind(Step(f, op).log, Step(h, op).log, c)
  {
    hide Behind, End, Accept, Miss, Disconnect, Invite;
    match op
    case InviteOp(_, _, _, _, _, _) => InviteLag(f, h, c, op);
    case AcceptOp(i, v) => AcceptLag(f, h, c, i, v);
    case DeclineOp(i, v) => MissLag(f, h, c, i);
    case HangupOp(i, v) => EndLag(f, h, c, i, None);
    case RingFires(i) => MissLag(f, h, c, i);
    case DropOp(v) =>
    case ResumeOp(v, i) =>
    case GraceOp(v, t) => DisconnectLag(f.(grace := f.grace - {v}), h.(grace := h.grace - {v}), c, v);
    case DisconnectOp(v) => DisconnectLag(f, h, c, v);
  }

  lemma {:induction false} LagRun(f: State, h: State, ops: seq<Op>, id: CallId, row: nat, a: UserId, u: UserId) returns (g: State)
    requires Lag(f, h, id, row, a, u) && Possible(h, ops)
    ensures Lag(g, Run(h, ops), id, row, a, u)
    decreases ops
  {
    hide Lag, Step, Enabled;
    if ops == [] {
      g := f;
    } else {
      var full := LagStep(f, h, ops[0], id, row, a, u);
      g := LagRun(Step(f, full), Step(h, ops[0]), ops[1..], id, row, a, u);
    }
  }

  /** The memory half leads to a state that lags behind the whole accept. */
  lemma HalfLags(s: State, id: CallId, u: UserId)
    requires Inv(s) && CanAccept(s, id, u)
    ensures Lag(Accept(s, id, u), AcceptInMemory(s, id), id, s.calls[id].row, s.calls[id].caller, u)
  {
    AcceptKeeps(s, id, u);
    NotYetJoined(s, id, u);
    StillBehind(s.log, s.calls[id].row, u);
    hide Inv, Behind, CallLog.AddParticipant;
  }

  lemma NotYetJoined(s: State, id: CallId, u: UserId)
    requires Inv(s) && CanAccept(s, id, u)
    ensures var c := s.calls[id];
            && Logged(id, c.row, c.caller, u) in s.trail && CallLog.Cell(c.row, u) in s.log.parts
            && s.log.parts[CallLog.Cell(c.row, u)] == CallLog.Part(false, false, true)
  {
    hide Pairing, EndedOnce, Graces, KnownIds, OpenLive, RingTimers;
    var c := s.calls[id];
    assert RowOk(s, id, c.row, c.caller, c.callee);
  }

  lemma StillBehind(l: CallLog.Log, row: nat, u: UserId)
    requires CallLog.Cell(row, u) in l.parts && l.parts[CallLog.Cell(row, u)] == CallLog.Part(false, false, true)
    ensures Behind(CallLog.AddParticipant(l, row, u, true), l, CallLog.Cell(row, u))
  {
  }

  /** What the history half does to a state that lags. */
  lemma HalfCatchesUp(f: State, h: State, id: CallId, row: nat, a: UserId, u: UserId)
    requires Lag(f, h, id, row, a, u)
    ensures var t := AcceptInHistory(h, row, u);
            && (id in h.calls ==> t == f)
            && (id !in h.calls ==> !RowOk(t, id, row, a, u) && !CallLog.OpenRow(t.log, row) && CallLog.Present(t.log, row, u))
  {
    hide Pairing, EndedOnce, Graces, KnownIds, OpenLive, RingTimers, LiveLogged;
    assert RowOk(f, id, row, a, u);
    var t := AcceptInHistory(h, row, u);
    if id in h.calls {
      assert t.log.parts == f.log.parts;
    }
  }

  /**
   An accept whose history write comes after any run of call operations and other writers: the history is
   right afterwards if and only if none of them has ended the call. Otherwise its closed row shows the callee
   as present.
   */
  lemma {:induction false} AcceptRace(s: State, id: CallId, u: UserId, ops: seq<Op>)
    requires Inv(s) && CanAccept(s, id, u) && Possible(AcceptInMemory(s, id), ops)
    ensures var c, e := s.calls[id], Run(AcceptInMemory(s, id), ops); var t := AcceptInHistory(e, c.row, u);
            && (Inv(t) <==> id in e.calls)
            && (RowOk(t, id, c.row, c.caller, u) <==> id in e.calls)
            && (id !in e.calls ==> !CallLog.OpenRow(t.log, c.row) && CallLog.Present(t.log, c.row, u))
  {
    hide Run, Possible, AcceptInMemory;
    var c := s.calls[id];
    HalfLags(s, id, u);
    var f := LagRun(Accept(s, id, u), AcceptInMemory(s, id), ops, id, c.row, c.caller, u);
    var e := Run(AcceptInMemory(s, id), ops);
    HalfCatchesUp(f, e, id, c.row, c.caller, u);
    LagReads(f, e, id, c.row, c.caller, u);
    hide Accept, CanAccept, Lag;
    if id !in e.calls { NotRight(AcceptInHistory(e, c.row, u), id, c.row, c.caller, u); }
  }

  lemma LagReads(f: State, h: State, id: CallId, row: nat, a: UserId, u: UserId)
    requires Lag(f, h, id, row, a, u)
    ensures Inv(f) && f.trail == h.trail && f.calls == h.calls && Logged(id, row, a, u) in h.trail && RowOk(f, id, row, a, u)
  {
    hide RowOk, Pairing, EndedOnce, Graces, KnownIds, OpenLive, RingTimers, LiveLogged;
  }

  lemma NotRight(t: State, id: CallId, row: nat, a: UserId, u: UserId)
    requires Logged(id, row, a, u) in t.trail && !RowOk(t, id, row, a, u)
    ensures !Inv(t)
  {
    hide RowOk, Pairing, EndedOnce, Graces, KnownIds, OpenLive, RingTimers, LiveLogged;
  }

  // ---- runs of a new manager ----

  lemma {:induction false} OneMore(s: State, ops: seq<Op>, op: Op)
    requires Possible(s, ops) && Enabled(Run(s, ops), op)
    ensures Possible(s, ops + [op]) && Run(s, ops + [op]) == Step(Run(s, ops), op)
    decreases ops
  {
    hide Enabled, Step;
    if ops == [] {
      assert [op][1..] == [];
    } else {
      OneMore(Step(s, ops[0]), ops[1..], op);
      assert (ops + [op])[1..] == ops[1..] + [op];
    }
  }

  /** Two people who are free: one calls the other. */
  lemma Calls(log: CallLog.Log, ops: seq<Op>, a: UserId, b: UserId, id: CallId) returns (more: seq<Op>)
    requires CleanStart(log) && Possible(New(log), ops) && !Used(Run(New(log), ops), id)
    requires b != 0 && a != b && a !in Run(New(log), ops).byUser && b !in Run(New(log), ops).byUser
    ensures Possible(New(log), more)
    ensures var s, t := Run(New(log), ops), Run(New(log), more);
            && t == Invite(s, a, b, id, true, false, true) && Inv(t)
            && CanAccept(t, id, b) && t.calls[id].caller == a && t.byUser[a] == id && t.byUser[b] == id
  {
    EveryRun(log, ops);
    hide Run, Possible, Inv, Used, Invite;
    var op := InviteOp(a, b, id, true, false, true);
    OneMore(New(log), ops, op);
    more := ops + [op];
    EveryRun(log, more);
    CallOutcomes.OpOutcome(Run(New(log), ops), op);
  }

  /** 1 calls 2; 2 accepts, but 1 hangs up before the history is written. */
  lemma AcceptRaceRun(log: CallLog.Log) returns (ops: seq<Op>)
    requires CleanStart(log)
    ensures Possible(New(log), ops) && CanAccept(Run(New(log), ops), "a", 2)
    ensures var h := AcceptInMemory(Run(New(log), ops), "a"); var row := Run(New(log), ops).calls["a"].row;
            var t := AcceptInHistory(Run(h, [HangupOp("a", 1)]), row, 2);
            Possible(h, [HangupOp("a", 1)]) && !Inv(t) && !CallLog.OpenRow(t.log, row) && CallLog.Present(t.log, row, 2)
  {
    assert Possible(New(log), []) && Run(New(log), []) == New(log);
    ops := Calls(log, [], 1, 2, "a");
    hide Inv, CleanStart;
    var s := Run(New(log), ops);
    var h := AcceptInMemory(s, "a");
    hide New, Finalize, Release;
    HangsUp(h, "a", 1);
    AcceptRace(s, "a", 2, [HangupOp("a", 1)]);
  }

  lemma HangsUp(h: State, id: CallId, u: UserId)
    requires id in h.calls && h.calls[id].caller == u && h.calls[id].state == Active
    ensures Possible(h, [HangupOp(id, u)]) && id !in Run(h, [HangupOp(id, u)]).calls
  {
    hide Finalize, Release;
    var op := HangupOp(id, u);
    assert [op][1..] == [];
    assert Run(h, [op]) == Run(Step(h, op), []);
  }

  /**
   1 calls 2 and drops; 2 hangs up; 1 is back and calls 3; the grace timer armed during the first call then
   ends the second one.
   */
  lemma GraceRun(log: CallLog.Log) returns (ops: seq<Op>)
    requires CleanStart(log)
    ensures var s := Run(New(log), ops);
            && Possible(New(log), ops) && Armed(0, 1, "a") in s.trail
            && 1 in s.byUser && s.byUser[1] == "b" && "b" in s.calls && "b" !in Step(s, GraceOp(1, 0)).calls
  {
    ops := FirstCallRun(log);
    var s := Run(New(log), ops);
    CallProperties.GraceExample(s, log.next);
    var second := InviteOp(1, 3, "b", true, false, true);
    hide Run, Possible, Step, Enabled;
    OneMore(New(log), ops, second);
    ops := ops + [second];
  }

  lemma FirstCallRun(log: CallLog.Log) returns (ops: seq<Op>)
    requires CleanStart(log)
    ensures var s := Run(New(log), ops);
            && Possible(New(log), ops) && s.calls == map[] && s.byUser == map[] && s.grace == map[1 := 0]
            && s.trail == [Logged("a", log.next, 1, 2), Rang("a"), Armed(0, 1, "a"), Finished("a")]
  {
    var s := New(log);
    var a, b, c := CallProperties.FirstCall[0], CallProperties.FirstCall[1], CallProperties.FirstCall[2];
    CallProperties.FirstCallLeavesTimer(s);
    assert Possible(s, []) && Run(s, []) == s && Enabled(s, a) && forall t :: Enabled(t, b) && Enabled(t, c);
    hide Run, Possible, Step, Enabled;
    OneMore(s, [], a);
    OneMore(s, [a], b);
    OneMore(s, [a] + [b], c);
    assert [] + [a] == [a];
    ops := [a] + [b] + [c];
  }
}
