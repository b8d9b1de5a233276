/** The main results about direct calls, over all runs, and the promises the code does not keep. */
module CallProperties {
  import opened Media
  import opened CallModel
  import opened CallInvariants
  import CallLog
  import RoomLog
  import EngineModel

  // ---- the pairing ----

  function Less(s: State, id: CallId): State
    requires id in s.calls
  {
    s.(calls := s.calls - {id}, byUser := s.byUser - {s.calls[id].caller, s.calls[id].callee})
  }

  lemma LessPairing(s: State, id: CallId)
    requires Pairing(s) && id in s.calls
    ensures Pairing(Less(s, id))
    ensures |Less(s, id).calls| == |s.calls| - 1 && |Less(s, id).byUser| == |s.byUser| - 2
  {
    var c, t := s.calls[id], Less(s, id);
    assert Pairing(t);
    hide Pairing;
    assert t.calls.Keys == s.calls.Keys - {id} && |t.calls.Keys| == |t.calls| && |s.calls.Keys| == |s.calls|;
    assert t.byUser.Keys == s.byUser.Keys - {c.caller} - {c.callee};
    assert |t.byUser.Keys| == |t.byUser| && |s.byUser.Keys| == |s.byUser|;
  }

  /** The index has two entries for every live call. */
  lemma {:induction false} TwoPerCall(s: State)
    requires Pairing(s)
    ensures |s.byUser| == 2 * |s.calls|
    decreases |s.calls|
  {
    if s.calls == map[] {
      forall u ensures u !in s.byUser {}
      assert s.byUser == map[];
    } else {
      hide Pairing, Less;
      var id :| id in s.calls;
      LessPairing(s, id);
      TwoPerCall(Less(s, id));
    }
  }

  /** Two index entries per live call, each party in exactly one call, ringing means timed. */
  ghost predicate WellPaired(s: State) {
    && |s.byUser| == 2 * |s.calls|
    && (forall id, u :: id in s.calls ==> (Party(s.calls[id], u) <==> u in s.byUser && s.byUser[u] == id))
    && (forall id :: id in s.calls ==> (s.calls[id].state == Ringing <==> s.calls[id].timer))
  }

  lemma {:induction false} PairingHolds(log: CallLog.Log, ops: seq<Op>)
    requires CleanStart(log) && Possible(New(log), ops)
    ensures WellPaired(Run(New(log), ops))
  {
    EveryRun(log, ops);
    hide *;
    PairingReads(Run(New(log), ops));
  }

  lemma PairingReads(s: State)
    requires Inv(s)
    ensures WellPaired(s)
  {
    hide Rows, Graces, EndedOnce;
    TwoPerCall(s);
  }

  // ---- one end per call ----

  lemma {:induction false} TrailGrows(s: State, ops: seq<Op>)
    ensures |s.trail| <= |Run(s, ops).trail| && Run(s, ops).trail[..|s.trail|] == s.trail
    decreases ops
  {
    if ops != [] {
      StepTrail(s, ops[0]);
      TrailGrows(Step(s, ops[0]), ops[1..]);
    }
  }

  lemma StepTrail(s: State, op: Op)
    ensures |s.trail| <= |Step(s, op).trail| && Step(s, op).trail[..|s.trail|] == s.trail
  {
    hide Finalize, Release, LogInvite, CallLog.AddParticipant, CallLog.MarkMissed;
  }

  /**
   However handlers and timers race, a call that was registered is ended exactly once if it is no
   longer live, and not at all while it is.
   */
  lemma {:induction false} ExactlyOneEnd(log: CallLog.Log, before: seq<Op>, after: seq<Op>, id: CallId)
    requires CleanStart(log) && Possible(New(log), before + after)
    requires id in Run(New(log), before).calls
    ensures var s := Run(New(log), before + after); Ends(s.trail, id) == if id in s.calls then 0 else 1
  {
    Split(New(log), before, after);
    EveryRun(log, before);
    EveryRun(log, before + after);
    hide Possible, Step;
    var s, t := Run(New(log), before), Run(New(log), before + after);
    assert Rang(id) in s.trail;
    hide Run;
    TrailGrows(s, after);
    assert forall e :: e in s.trail ==> e in t.trail by {
      assert forall e :: e in t.trail[..|s.trail|] ==> e in t.trail;
    }
  }

  lemma {:induction false} Split(s: State, before: seq<Op>, after: seq<Op>)
    requires Possible(s, before + after)
    ensures Possible(s, before) && Possible(Run(s, before), after) && Run(s, before + after) == Run(Run(s, before), after)
    decreases before
  {
    hide Step, Enabled;
    if before == [] {
      assert before + after == after;
    } else {
      assert (before + after)[1..] == before[1..] + after;
      Split(Step(s, before[0]), before[1..], after);
    }
  }

  // ---- the history ----

  /**
   The open rows of direct calls are exactly the rows of live calls; a row that is not open has both
   parties marked left; and the callee is marked missed exactly when the call was never accepted.
   */
  lemma {:induction false} HistoryAgrees(log: CallLog.Log, ops: seq<Op>)
    requires CleanStart(log) && Possible(New(log), ops)
    ensures var s := Run(New(log), ops);
            && (forall id :: id in s.calls ==> CallLog.OpenRow(s.log, s.calls[id].row))
            && (forall row :: CallLog.OpenRow(s.log, row) && !s.log.rows[row].conference ==>
                  exists id :: id in s.calls && s.calls[id].row == row)
            && (forall id, row, a, b :: Logged(id, row, a, b) in s.trail && !CallLog.OpenRow(s.log, row) ==>
                  row >= 1 && CallLog.Gone(s.log, row, a) && CallLog.Gone(s.log, row, b))
            && (forall id, row, a, b :: Logged(id, row, a, b) in s.trail ==>
                  (CallLog.Missed(s.log, row, b) <==> Accepted(id) !in s.trail) && !CallLog.Missed(s.log, row, a))
            && (forall id, row, a, b :: Logged(id, row, a, b) in s.trail ==>
                  row in s.log.rows && s.log.rows[row].room == id && s.log.rows[row].initiator == a && !s.log.rows[row].conference)
  {
    EveryRun(log, ops);
    hide Run, Possible, RowOk, Inv, CallLog.OpenRow, CallLog.Gone, CallLog.Missed;
    var s := Run(New(log), ops);
    HistoryOf(s);
    forall id, row, a, b | Logged(id, row, a, b) in s.trail
      ensures !CallLog.OpenRow(s.log, row) ==> row >= 1 && CallLog.Gone(s.log, row, a) && CallLog.Gone(s.log, row, b)
      ensures (CallLog.Missed(s.log, row, b) <==> Accepted(id) !in s.trail) && !CallLog.Missed(s.log, row, a)
      ensures row in s.log.rows && s.log.rows[row].room == id && s.log.rows[row].initiator == a && !s.log.rows[row].conference
    {
      RowReads(s, id, row, a, b);
    }
  }

  lemma RowReads(s: State, id: CallId, row: nat, a: UserId, b: UserId)
    requires RowOk(s, id, row, a, b)
    ensures !CallLog.OpenRow(s.log, row) ==> row >= 1 && CallLog.Gone(s.log, row, a) && CallLog.Gone(s.log, row, b)
    ensures (CallLog.Missed(s.log, row, b) <==> Accepted(id) !in s.trail) && !CallLog.Missed(s.log, row, a)
    ensures row in s.log.rows && s.log.rows[row].room == id && s.log.rows[row].initiator == a && !s.log.rows[row].conference
  {
  }

  lemma HistoryOf(s: State)
    requires Inv(s)
    ensures (forall id :: id in s.calls ==> CallLog.OpenRow(s.log, s.calls[id].row))
            && (forall row :: CallLog.OpenRow(s.log, row) && !s.log.rows[row].conference ==>
                  exists id :: id in s.calls && s.calls[id].row == row)
            && (forall id, row, a, b :: Logged(id, row, a, b) in s.trail ==> RowOk(s, id, row, a, b))
  {
    hide Pairing, RingTimers, EndedOnce, Graces, RowOk;
    forall id | id in s.calls ensures CallLog.OpenRow(s.log, s.calls[id].row) {
      var c := s.calls[id];
      assert RowOk(s, id, c.row, c.caller, c.callee);
      LiveRow(s, id);
    }
  }

  lemma LiveRow(s: State, id: CallId)
    requires id in s.calls && RowOk(s, id, s.calls[id].row, s.calls[id].caller, s.calls[id].callee)
    ensures CallLog.OpenRow(s.log, s.calls[id].row)
  {
  }

  // ---- two writers, one history ----

  /** The rows a mirror points at are rows of conferences. */
  ghost predicate MirrorRows(m: RoomLog.Mirror) {
    CallLog.Valid(m.log) && forall r :: r in m.calls ==> m.calls[r] in m.log.rows && m.log.rows[m.calls[r]].conference
  }

  /** What the hub writes for conferences leaves direct calls alone. */
  lemma ConferencesSpareCalls(m: RoomLog.Mirror, ev: EngineModel.Event)
    requires MirrorRows(m)
    ensures Spares(m.log, RoomLog.OnEvent(m, ev).log) && MirrorRows(RoomLog.OnEvent(m, ev))
  {
  }

  lemma SparesChains(l: CallLog.Log, m: CallLog.Log, n: CallLog.Log)
    requires CallLog.Valid(l) && Spares(l, m) && Spares(m, n)
    ensures Spares(l, n)
  {
  }

  lemma SparesSelf(l: CallLog.Log)
    requires CallLog.Valid(l)
    ensures Spares(l, l)
  {
  }

  lemma {:induction false} ReplaySpares(m: RoomLog.Mirror, es: seq<EngineModel.Event>)
    requires MirrorRows(m)
    ensures var n := RoomLog.Replay(m, es); Spares(m.log, n.log) && MirrorRows(n)
  {
    hide Spares, RoomLog.OnEvent;
    if es == [] {
      SparesSelf(m.log);
    } else {
      var front := es[..|es| - 1];
      ReplaySpares(m, front);
      ConferencesSpareCalls(RoomLog.Replay(m, front), es[|es| - 1]);
      SparesChains(m.log, RoomLog.Replay(m, front).log, RoomLog.Replay(m, es).log);
    }
  }

  /** What direct calls write leaves the rows of conferences alone. */
  ghost predicate SparesConferences(l: CallLog.Log, m: CallLog.Log) {
    && CallLog.Valid(m) && l.next <= m.next
    && (forall r :: r in l.rows ==> r in m.rows && m.rows[r].conference == l.rows[r].conference
                                    && (l.rows[r].conference ==> m.rows[r] == l.rows[r]))
    && (forall r :: r in m.rows && r !in l.rows ==> !m.rows[r].conference)
    && (forall c: CallLog.Cell :: c.call in l.rows && l.rows[c.call].conference ==>
          (c in m.parts <==> c in l.parts) && (c in l.parts ==> m.parts[c] == l.parts[c]))
  }

  lemma CallsSpareConferences(s: State, op: Op)
    requires Inv(s) && !op.OtherWriter?
    ensures SparesConferences(s.log, Step(s, op).log)
  {
    hide Pairing, RingTimers, EndedOnce, Graces, Finalize, Release, LogInvite, CallLog.MarkMissed, CallLog.AddParticipant,
      Endable, RowsOk, KnownIds, OpenLive, SparesConferences, Inv, Invite, Accept;
    Nothing(s.log) by { InvParts(s); }
    match op
    case InviteOp(a, b, id, known, inRoom, online) =>
      if Placeable(s, a, b, id, known, inRoom) { InvitesSpare(s, op); } else { NotPlaced(s, op); }
    case AcceptOp(id, u) => AcceptsSpare(s, id, u);
    case DeclineOp(id, u) => MissKeeps(s, id); EndsSpare(s, id, Some(Ringing));
    case HangupOp(id, u) => EndsSpare(s, id, None);
    case RingFires(id) => MissKeeps(s, id); EndsSpare(s, id, Some(Ringing));
    case DropOp(u) =>
    case ResumeOp(u, id) =>
    case GraceOp(u, t) =>
      var g := s.(grace := s.grace - {u});
      GraceLess(s, u);
      if u in g.byUser { EndsSpare(g, g.byUser[u], None); }
    case DisconnectOp(u) => if u in s.byUser { EndsSpare(s, s.byUser[u], None); }
  }

  lemma Nothing(l: CallLog.Log)
    requires CallLog.Valid(l)
    ensures SparesConferences(l, l)
  {
  }

  lemma NotPlaced(s: State, op: Op)
    requires op.InviteOp? && !Placeable(s, op.caller, op.callee, op.id, op.known, op.inRoom)
    ensures Step(s, op) == s
  {
  }

  lemma OneRowSpares(l: CallLog.Log, m: CallLog.Log, r: nat)
    requires OnlyRow(l, m, r) && CallLog.Valid(l) && l.next <= m.next && r in m.rows && !m.rows[r].conference
    requires r in l.rows ==> !l.rows[r].conference
    ensures SparesConferences(l, m)
  {
  }

  lemma EndsSpare(s: State, id: CallId, expected: Option<Phase>)
    requires Inv(s)
    ensures SparesConferences(s.log, End(s, id, expected).log)
  {
    if Endable(s, id, expected) {
      hide Pairing, RingTimers, EndedOnce, Graces, Release, KnownIds, OpenLive, SparesConferences, CallLog.ParticipantLeft, OnlyRow;
      EndsItsRow(s, id, expected);
      var c := s.calls[id];
      assert RowOk(s, id, c.row, c.caller, c.callee);
      SameNext(s.log, c);
      OneRowSpares(s.log, End(s, id, expected).log, c.row);
    }
  }

  lemma SameNext(l: CallLog.Log, c: Call)
    ensures Finalize(l, c).next == l.next
  {
  }

  lemma AcceptsSpare(s: State, id: CallId, u: UserId)
    requires Inv(s)
    ensures SparesConferences(s.log, Accept(s, id, u).log)
  {
    if CanAccept(s, id, u) {
      hide Pairing, RingTimers, EndedOnce, Graces, KnownIds, OpenLive, SparesConferences;
      var c := s.calls[id];
      assert RowOk(s, id, c.row, c.caller, c.callee);
      AcceptFacts(s.log, c.row, u);
      OneRowSpares(s.log, Accept(s, id, u).log, c.row);
    }
  }

  lemma InvitesSpare(s: State, op: Op)
    requires Inv(s) && op.InviteOp? && Placeable(s, op.caller, op.callee, op.id, op.known, op.inRoom)
    ensures SparesConferences(s.log, Step(s, op).log)
  {
    hide Pairing, RingTimers, EndedOnce, Graces, RowsOk, LiveLogged, KnownIds, OpenLive, Invite;
    InviteLog(s, op.caller, op.callee, op.id, op.known, op.inRoom, op.online);
  }

  /** So the conference half of the history stays right, whatever direct calls do meanwhile. */
  lemma MirrorUndisturbed(m: RoomLog.Mirror, rooms: RoomLog.Rooms, log: CallLog.Log)
    requires RoomLog.MirrorAgrees(m, rooms) && SparesConferences(m.log, log)
    ensures RoomLog.MirrorAgrees(m.(log := log), rooms)
  {
    forall r, u | r in rooms
      ensures CallLog.Present(log, m.calls[r], u) <==> CallLog.Present(m.log, m.calls[r], u)
    {
      assert CallLog.Cell(m.calls[r], u).call in m.log.rows;
    }
  }

  // ---- grace timers ----

  /** A timer that was cancelled or replaced never acts again, whenever its callback gets the lock. */
  lemma {:induction false} StaleGraceIdles(s: State, ops: seq<Op>, u: UserId, t: nat)
    requires t < s.timers && !(u in s.grace && s.grace[u] == t)
    ensures var e := Run(s, ops); Step(e, GraceOp(u, t)) == e
    decreases ops
  {
    hide Disconnect;
    if ops != [] {
      StaysStale(s, ops[0], u, t);
      StaleGraceIdles(Step(s, ops[0]), ops[1..], u, t);
    }
  }

  lemma StaysStale(s: State, op: Op, u: UserId, t: nat)
    requires t < s.timers && !(u in s.grace && s.grace[u] == t)
    ensures var e := Step(s, op); t < e.timers && !(u in e.grace && e.grace[u] == t)
  {
    hide Finalize, Release, LogInvite, CallLog.AddParticipant, CallLog.MarkMissed;
  }

  /** The call that a timer ends when it fires, if any. */
  ghost predicate Ended(s: State, e: State, id: CallId) {
    id in s.calls && id !in e.calls
  }

  /**
   Ending a call leaves grace timers armed. So a timer armed while `u` was in call `id` ends some
   other call exactly when `id` is over and `u` has meanwhile got into a new one.
   */
  lemma {:induction false} GraceEndsWhateverCall(log: CallLog.Log, ops: seq<Op>, u: UserId, id: CallId)
    requires CleanStart(log) && Possible(New(log), ops)
    requires u in Run(New(log), ops).grace && Armed(Run(New(log), ops).grace[u], u, id) in Run(New(log), ops).trail
    ensures var s := Run(New(log), ops); var e := Step(s, GraceOp(u, s.grace[u]));
            && (Ended(s, e, id) <==> u in s.byUser && s.byUser[u] == id)
            && ((exists jd :: jd != id && Ended(s, e, jd)) <==> id !in s.calls && u in s.byUser)
  {
    EveryRun(log, ops);
    hide Run, Possible;
    GraceReads(Run(New(log), ops), u, id);
  }

  lemma GraceReads(s: State, u: UserId, id: CallId)
    requires Inv(s) && u in s.grace && Armed(s.grace[u], u, id) in s.trail
    ensures var e := Step(s, GraceOp(u, s.grace[u]));
            && (Ended(s, e, id) <==> u in s.byUser && s.byUser[u] == id)
            && ((exists jd :: jd != id && Ended(s, e, jd)) <==> id !in s.calls && u in s.byUser)
  {
    hide Rows, EndedOnce, Graces, Finalize, Release;
    if id in s.calls { ArmedForParty(s, u, id); }
    var e := Step(s, GraceOp(u, s.grace[u]));
    if u in s.byUser {
      assert Ended(s, e, s.byUser[u]);
    }
  }

  lemma ArmedForParty(s: State, u: UserId, id: CallId)
    requires Inv(s) && u in s.grace && Armed(s.grace[u], u, id) in s.trail && id in s.calls
    ensures Party(s.calls[id], u)
  {
    hide Pairing, EndedOnce, RingTimers, KnownIds, OpenLive, RowOk;
    assert WasParty(s, u, id);
    var e :| e in s.trail && e.Logged? && e.id == id && (u == e.caller || u == e.callee);
    assert Logged(id, e.row, e.caller, e.callee) in s.trail;
    OneRow(s, id, id, e.row, e.caller, e.callee);
  }

  const FirstCall := [InviteOp(1, 2, "a", true, false, true), DropOp(1), HangupOp("a", 2)]

  /** 1 calls 2 and drops, and 2 hangs up: the timer stays. */
  lemma FirstCallLeavesTimer(s: State)
    requires s.calls == map[] && s.byUser == map[] && s.grace == map[] && s.trail == [] && s.timers == 0
    ensures var s1 := Step(s, FirstCall[0]); var s2 := Step(s1, FirstCall[1]); var s3 := Step(s2, FirstCall[2]);
            && s3.calls == map[] && s3.byUser == map[] && s3.grace == map[1 := 0]
            && s3.trail == [Logged("a", s.log.next, 1, 2), Rang("a"), Armed(0, 1, "a"), Finished("a")]
  {
    hide Finalize, LogInvite;
    var s1 := Step(s, FirstCall[0]);
    assert s1.byUser == map[1 := "a", 2 := "a"] && s1.trail == [Logged("a", s.log.next, 1, 2), Rang("a")];
    var s2 := Step(s1, FirstCall[1]);
    assert s2.trail == s1.trail + [Armed(0, 1, "a")] && s2.grace == map[1 := 0] && s2.byUser == s1.byUser;
    assert Release(Release(s2.byUser, 1, "a"), 2, "a") == map[];
  }

  /** It happens: back from the first call, 1 calls 3, and the old timer ends that call. */
  lemma GraceExample(s: State, row: nat)
    requires s.calls == map[] && s.byUser == map[] && s.grace == map[1 := 0]
    requires s.trail == [Logged("a", row, 1, 2), Rang("a"), Armed(0, 1, "a"), Finished("a")]
    ensures var call := InviteOp(1, 3, "b", true, false, true); var t := Step(s, call);
            && Enabled(s, call) && "b" in t.calls && t.byUser[1] == "b" && Armed(0, 1, "a") in t.trail
            && "b" !in Step(t, GraceOp(1, 0)).calls
  {
    hide Finalize, LogInvite;
    assert Armed(0, 1, "a") == s.trail[2];
    assert forall e :: e in s.trail && e.Logged? ==> e.id == "a";
  }
}
