/**
 One history with two writers: the hub mirrors what the engine does to conferences into the tables that
 direct calls write as well. However the two take turns, both halves of the history stay right.
 */
module SharedHistory {
  import opened Media
  import EngineModel
  import EngineInvariants
  import EngineProperties
  import RoomLog
  import CallLog
  import CallModel
  import CallInvariants
  import CallProperties

  /** The engine, the hub's table of conference rows, and direct calls with the tables themselves. */
  datatype Server = Server(engine: EngineModel.Engine, roomCalls: map<RoomId, nat>, p2p: CallModel.State)

  function New(max: int, log: CallLog.Log): Server {
    Server(EngineModel.New(max), map[], CallModel.New(log))
  }

  function MirrorOf(s: Server): RoomLog.Mirror {
    RoomLog.Mirror(s.roomCalls, s.p2p.log)
  }

  datatype Op = OnEngine(engine: EngineModel.Op) | OnCalls(call: CallModel.Op)

  ghost predicate Enabled(s: Server, op: Op) {
    match op
    case OnEngine(o) => EngineModel.Enabled(s.engine, o)
    case OnCalls(o) => !o.OtherWriter? && CallModel.Enabled(s.p2p, o)
  }

  /** An engine operation, and whatever events it emits, written into the shared tables. */
  function Conferences(s: Server, op: EngineModel.Op): Server {
    var e := EngineModel.Step(s.engine, op);
    var m := RoomLog.Replay(MirrorOf(s), EngineProperties.News(s.engine, e));
    Server(e, m.calls, s.p2p.(log := m.log))
  }

  function Step(s: Server, op: Op): Server {
    match op
    case OnEngine(o) => Conferences(s, o)
    case OnCalls(o) => s.(p2p := CallModel.Step(s.p2p, o))
  }

  ghost predicate Possible(s: Server, ops: seq<Op>)
    decreases ops
  {
    ops == [] || (Enabled(s, ops[0]) && Possible(Step(s, ops[0]), ops[1..]))
  }

  function Run(s: Server, ops: seq<Op>): Server
    decreases ops
  {
    if ops == [] then s else Run(Step(s, ops[0]), ops[1..])
  }

  ghost predicate Inv(s: Server) {
    && EngineInvariants.Inv(s.engine)
    && RoomLog.EventsAgree(s.engine.events, RoomLog.Membership(s.engine))
    && RoomLog.MirrorAgrees(MirrorOf(s), RoomLog.Membership(s.engine))
    && CallInvariants.Inv(s.p2p)
  }

  lemma ConferencesKeep(s: Server, op: EngineModel.Op)
    requires Inv(s) && EngineModel.Enabled(s.engine, op)
    ensures Inv(Conferences(s, op))
  {
    hide EngineInvariants.Inv, EngineModel.Step, EngineModel.Enabled, CallInvariants.Inv, RoomLog.EventsAgree, RoomLog.MirrorAgrees,
      RoomLog.Membership, CallProperties.MirrorRows, CallModel.Spares, RoomLog.Replay;
    var e, m := EngineModel.Step(s.engine, op), MirrorOf(s);
    var start := RoomLog.Point(m, |s.engine.events|);
    NothingYet(m, s.engine.events);
    EngineInvariants.StepKeeps(s.engine, op);
    RoomLog.StepAgrees(start, s.engine, op);
    MirrorPoints(m, RoomLog.Membership(s.engine));
    CallProperties.ReplaySpares(m, EngineProperties.News(s.engine, e));
    CallInvariants.OtherWriterKeeps(s.p2p, RoomLog.Replay(m, EngineProperties.News(s.engine, e)).log);
    assert MirrorOf(Conferences(s, op)) == RoomLog.Since(start, e.events);
  }

  lemma NothingYet(m: RoomLog.Mirror, es: seq<EngineModel.Event>)
    ensures RoomLog.Since(RoomLog.Point(m, |es|), es) == m
  {
    assert es[|es|..] == [];
  }

  lemma MirrorPoints(m: RoomLog.Mirror, rooms: RoomLog.Rooms)
    requires RoomLog.MirrorAgrees(m, rooms)
    ensures CallProperties.MirrorRows(m)
  {
  }

  lemma CallsKeep(s: Server, op: CallModel.Op)
    requires Inv(s) && !op.OtherWriter? && CallModel.Enabled(s.p2p, op)
    ensures Inv(s.(p2p := CallModel.Step(s.p2p, op)))
  {
    hide EngineInvariants.Inv, CallInvariants.Inv, RoomLog.EventsAgree, RoomLog.MirrorAgrees, RoomLog.Membership, CallModel.Step,
      CallModel.Enabled, CallProperties.SparesConferences;
    CallInvariants.StepKeeps(s.p2p, op);
    CallProperties.CallsSpareConferences(s.p2p, op);
    CallProperties.MirrorUndisturbed(MirrorOf(s), RoomLog.Membership(s.engine), CallModel.Step(s.p2p, op).log);
  }

  /** Whichever of the two writes next, both halves stay right. */
  lemma StepKeeps(s: Server, op: Op)
    requires Inv(s) && Enabled(s, op)
    ensures Inv(Step(s, op))
  {
    hide Inv, Conferences, EngineModel.Enabled, CallModel.Enabled, CallModel.Step;
    match op
    case OnEngine(o) => ConferencesKeep(s, o);
    case OnCalls(o) => CallsKeep(s, o);
  }

  lemma {:induction false} RunKeeps(s: Server, ops: seq<Op>)
    requires Inv(s) && Possible(s, ops)
    ensures Inv(Run(s, ops))
    decreases ops
  {
    hide Inv, Step, Enabled;
    if ops != [] {
      StepKeeps(s, ops[0]);
      RunKeeps(Step(s, ops[0]), ops[1..]);
    }
  }

  /** Every open row belongs to exactly one live room or one live call, and the other way round. */
  ghost predicate OpenRowsRight(s: Server) {
    var l := s.p2p.log;
    && (forall r :: r in s.engine.rooms ==>
          r in s.roomCalls && CallLog.OpenRow(l, s.roomCalls[r]) && l.rows[s.roomCalls[r]].conference)
    && (forall id :: id in s.p2p.calls ==> CallLog.OpenRow(l, s.p2p.calls[id].row) && !l.rows[s.p2p.calls[id].row].conference)
    && (forall row :: CallLog.OpenRow(l, row) && l.rows[row].conference ==>
          l.rows[row].room in s.engine.rooms && l.rows[row].room in s.roomCalls && s.roomCalls[l.rows[row].room] == row)
    && (forall row :: CallLog.OpenRow(l, row) && !l.rows[row].conference ==>
          exists id :: id in s.p2p.calls && s.p2p.calls[id].row == row)
  }

  /** Whom the participant rows show: the members of a room, and of a direct call who left and who missed it. */
  ghost predicate ParticipantsRight(s: Server) {
    var l := s.p2p.log;
    && (forall r, u :: r in s.engine.rooms && r in s.roomCalls ==>
          (CallLog.Present(l, s.roomCalls[r], u) <==> u in s.engine.rooms[r].members))
    && (forall id, row, a, b :: CallModel.Logged(id, row, a, b) in s.p2p.trail ==>
          && (!CallLog.OpenRow(l, row) ==> CallLog.Gone(l, row, a) && CallLog.Gone(l, row, b))
          && (CallLog.Missed(l, row, b) <==> CallModel.Accepted(id) !in s.p2p.trail) && !CallLog.Missed(l, row, a))
  }

  lemma InvReads(s: Server)
    requires Inv(s)
    ensures OpenRowsRight(s) && ParticipantsRight(s)
  {
    hide EngineInvariants.Inv, CallInvariants.Inv, RoomLog.EventsAgree, CallInvariants.RowOk;
    CallProperties.HistoryOf(s.p2p);
    RoomLog.MembershipReads(s.engine);
    hide RoomLog.Membership;
    forall id | id in s.p2p.calls ensures !s.p2p.log.rows[s.p2p.calls[id].row].conference { LiveRowDirect(s.p2p, id); }
    hide RoomLog.MirrorAgrees;
    forall id, row, a, b | CallModel.Logged(id, row, a, b) in s.p2p.trail
      ensures !CallLog.OpenRow(s.p2p.log, row) ==> CallLog.Gone(s.p2p.log, row, a) && CallLog.Gone(s.p2p.log, row, b)
      ensures (CallLog.Missed(s.p2p.log, row, b) <==> CallModel.Accepted(id) !in s.p2p.trail) && !CallLog.Missed(s.p2p.log, row, a)
    {
      CallProperties.RowReads(s.p2p, id, row, a, b);
    }
  }

  lemma LiveRowDirect(s: CallModel.State, id: CallModel.CallId)
    requires CallInvariants.Inv(s) && id in s.calls
    ensures s.calls[id].row in s.log.rows && !s.log.rows[s.calls[id].row].conference
  {
    hide CallInvariants.Pairing, CallInvariants.EndedOnce, CallInvariants.Graces, CallInvariants.KnownIds, CallInvariants.OpenLive;
    var c := s.calls[id];
    assert CallInvariants.RowOk(s, id, c.row, c.caller, c.callee);
  }

  /**
   From tables without open rows, in every run in which conferences and direct calls take turns: the open rows
   are exactly those of the live rooms and the live calls, and the participant rows agree with memory.
   */
  lemma {:induction false} HistoryIsRight(max: int, log: CallLog.Log, ops: seq<Op>)
    requires CallLog.Valid(log) && (forall row :: !CallLog.OpenRow(log, row)) && Possible(New(max, log), ops)
    ensures OpenRowsRight(Run(New(max, log), ops)) && ParticipantsRight(Run(New(max, log), ops))
  {
    StartsRight(max, log);
    RunKeeps(New(max, log), ops);
    hide *;
    InvReads(Run(New(max, log), ops));
  }

  lemma StartsRight(max: int, log: CallLog.Log)
    requires CallLog.Valid(log) && forall row :: !CallLog.OpenRow(log, row)
    ensures Inv(New(max, log))
  {
    assert RoomLog.Membership(EngineModel.New(max)) == map[];
  }
}
