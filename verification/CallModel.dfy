/**
 Direct calls as values: the live calls, the index from either party to its call, the grace timers
 of parties whose socket dropped, the history tables, and a trail of what happened so far.
 An operation is one handler or one timer callback.
 */
module CallModel {
  import opened Media
  import CallLog

  type CallId = string

  datatype Phase = Ringing | Active | Ended

  /** `timer` tells whether the ring timer is set, `row` is the history row. */
  datatype Call = Call(caller: UserId, callee: UserId, row: nat, state: Phase, timer: bool)

  /** `Logged` opens a history row, `Rang` registers the call in memory, `Finished` is a successful end. */
  datatype Event =
    | Logged(id: CallId, row: nat, caller: UserId, callee: UserId)
    | Rang(id: CallId)
    | Accepted(id: CallId)
    | Finished(id: CallId)
    | Armed(timer: nat, user: UserId, id: CallId)

  /** `grace` maps a user to the identity of the timer armed for them; identities are never reused. */
  datatype State = State(
    calls: map<CallId, Call>,
    byUser: map<UserId, CallId>,
    grace: map<UserId, nat>,
    timers: nat,
    log: CallLog.Log,
    trail: seq<Event>)

  function New(log: CallLog.Log): State {
    State(map[], map[], map[], 0, log, [])
  }

  predicate Party(c: Call, u: UserId) {
    u == c.caller || u == c.callee
  }

  /** Both parties leave and the row is closed. */
  function Finalize(l: CallLog.Log, c: Call): CallLog.Log {
    if c.row == 0 then l
    else CallLog.EndCall(CallLog.ParticipantLeft(CallLog.ParticipantLeft(l, c.row, c.caller), c.row, c.callee), c.row)
  }

  function Release(index: map<UserId, CallId>, u: UserId, id: CallId): map<UserId, CallId> {
    if u in index && index[u] == id then index - {u} else index
  }

  predicate Endable(s: State, id: CallId, expected: Option<Phase>) {
    id in s.calls && s.calls[id].state != Ended && (expected.Some? ==> s.calls[id].state == expected.value)
  }

  /** The one way a call leaves memory: from any live state, or only from the expected one. */
  function End(s: State, id: CallId, expected: Option<Phase>): State {
    if !Endable(s, id, expected) then s
    else
      var c := s.calls[id];
      s.(calls := s.calls - {id},
         byUser := Release(Release(s.byUser, c.caller, id), c.callee, id),
         log := Finalize(s.log, c),
         trail := s.trail + [Finished(id)])
  }

  /** The call could be placed: two different known users, neither in a room nor in a call. */
  predicate Placeable(s: State, caller: UserId, callee: UserId, id: CallId, known: bool, inRoom: bool) {
    && callee != 0 && callee != caller && known && !inRoom
    && id !in s.calls && caller !in s.byUser && callee !in s.byUser
  }

  function LogInvite(l: CallLog.Log, caller: UserId, callee: UserId, id: CallId): CallLog.Log {
    var l1 := CallLog.CreateCall(l, id, caller, false);
    CallLog.AddParticipant(CallLog.AddParticipant(l1, l.next, caller, true), l.next, callee, false)
  }

  /**
   `known` tells whether the callee has an enabled account, `inRoom` whether one of the two is in a
   conference, `online` whether the callee is connected. A call to somebody offline is only logged.
   */
  function Invite(s: State, caller: UserId, callee: UserId, id: CallId, known: bool, inRoom: bool, online: bool): State {
    if !Placeable(s, caller, callee, id, known, inRoom) then s
    else
      var row := s.log.next;
      var c := Call(caller, callee, row, Ringing, true);
      var l := LogInvite(s.log, caller, callee, id);
      var logged := Logged(id, row, caller, callee);
      if online
      then s.(calls := s.calls[id := c], byUser := s.byUser[caller := id][callee := id], log := l,
              trail := s.trail + [logged, Rang(id)])
      else s.(log := Finalize(CallLog.MarkMissed(l, row, callee), c), trail := s.trail + [logged])
  }

  predicate CanAccept(s: State, id: CallId, u: UserId) {
    id in s.calls && s.calls[id].state == Ringing && s.calls[id].callee == u
  }

  function Accept(s: State, id: CallId, u: UserId): State {
    if !CanAccept(s, id, u) then s
    else
      var c := s.calls[id];
      s.(calls := s.calls[id := c.(state := Active, timer := false)],
         log := CallLog.AddParticipant(s.log, c.row, u, true),
         trail := s.trail + [Accepted(id)])
  }

  /** A ringing call ends unanswered: by a decline or by the ring timer. */
  function Miss(s: State, id: CallId): State {
    if !Endable(s, id, Some(Ringing)) then s
    else
      var e := End(s, id, Some(Ringing));
      e.(log := CallLog.MarkMissed(e.log, s.calls[id].row, s.calls[id].callee))
  }

  function Decline(s: State, id: CallId, u: UserId): State {
    if id in s.calls && s.calls[id].callee == u then Miss(s, id) else s
  }

  function Hangup(s: State, id: CallId, u: UserId): State {
    if id in s.calls && Party(s.calls[id], u) then End(s, id, None) else s
  }

  /** End whatever call `u` is in. */
  function Disconnect(s: State, u: UserId): State {
    if u in s.byUser && s.byUser[u] in s.calls then End(s, s.byUser[u], None) else s
  }

  /** The socket of `u` dropped: arm a new timer, if `u` is in a call. */
  function Drop(s: State, u: UserId): State {
    if u !in s.byUser then s
    else s.(grace := s.grace[u := s.timers], timers := s.timers + 1,
            trail := s.trail + [Armed(s.timers, u, s.byUser[u])])
  }

  /** The client of `u` says it is back in call `id`. */
  function Resume(s: State, u: UserId, id: CallId): State {
    if u in s.byUser && s.byUser[u] == id then s.(grace := s.grace - {u}) else s
  }

  /** The callback of timer `t` of `u` gets the lock, possibly long after it was stopped or replaced. */
  function GraceFires(s: State, u: UserId, t: nat): State {
    if u in s.grace && s.grace[u] == t then Disconnect(s.(grace := s.grace - {u}), u) else s
  }

  /** Other writers of the history leave the rows of direct calls alone. */
  ghost predicate Spares(l: CallLog.Log, m: CallLog.Log) {
    && CallLog.Valid(m) && l.next <= m.next
    && (forall r :: r in l.rows ==> r in m.rows && m.rows[r].conference == l.rows[r].conference
                                    && (!l.rows[r].conference ==> m.rows[r] == l.rows[r]))
    && (forall r :: r in m.rows && r !in l.rows ==> m.rows[r].conference && l.next <= r)
    && (forall c: CallLog.Cell :: c.call in l.rows && !l.rows[c.call].conference ==>
          (c in m.parts <==> c in l.parts) && (c in l.parts ==> m.parts[c] == l.parts[c]))
  }

  datatype Op =
    | InviteOp(caller: UserId, callee: UserId, id: CallId, known: bool, inRoom: bool, online: bool)
    | AcceptOp(id: CallId, user: UserId)
    | DeclineOp(id: CallId, user: UserId)
    | HangupOp(id: CallId, user: UserId)
    | RingFires(id: CallId)
    | DropOp(user: UserId)
    | ResumeOp(user: UserId, id: CallId)
    | GraceOp(user: UserId, timer: nat)
    | DisconnectOp(user: UserId)
    | OtherWriter(log: CallLog.Log)

  predicate Used(s: State, id: CallId) {
    exists e :: e in s.trail && e.Logged? && e.id == id
  }

  /** Call ids are new. */
  ghost predicate Enabled(s: State, op: Op) {
    && (op.InviteOp? ==> !Used(s, op.id))
    && (op.OtherWriter? ==> Spares(s.log, op.log))
  }

  function Step(s: State, op: Op): State {
    match op
    case InviteOp(a, b, id, known, inRoom, online) => Invite(s, a, b, id, known, inRoom, online)
    case AcceptOp(id, u) => Accept(s, id, u)
    case DeclineOp(id, u) => Decline(s, id, u)
    case HangupOp(id, u) => Hangup(s, id, u)
    case RingFires(id) => Miss(s, id)
    case DropOp(u) => Drop(s, u)
    case ResumeOp(u, id) => Resume(s, u, id)
    case GraceOp(u, t) => GraceFires(s, u, t)
    case DisconnectOp(u) => Disconnect(s, u)
    case OtherWriter(l) => s.(log := l)
  }

  ghost predicate Possible(s: State, ops: seq<Op>)
    decreases ops
  {
    ops == [] || (Enabled(s, ops[0]) && Possible(Step(s, ops[0]), ops[1..]))
  }

  function Run(s: State, ops: seq<Op>): State
    decreases ops
  {
    if ops == [] then s else Run(Step(s, ops[0]), ops[1..])
  }
}
