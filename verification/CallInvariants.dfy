/**
 What holds after every operation in every run of direct calls: the pairing of parties and calls, the
 ring timers, exactly one successful end per call, and agreement of the history tables with memory.
 */
module CallInvariants {
  import opened Media
  import opened CallModel
  import opened CallLog

  /** Every live call maps its two distinct parties to itself, and nobody else is in the index. */
  ghost predicate Pairing(s: State) {
    && (forall id :: id in s.calls ==>
          var c := s.calls[id];
          c.caller != c.callee && c.caller in s.byUser && s.byUser[c.caller] == id
          && c.callee in s.byUser && s.byUser[c.callee] == id)
    && (forall u :: u in s.byUser ==> s.byUser[u] in s.calls && Party(s.calls[s.byUser[u]], u))
  }

  /** A call in memory has not ended, and rings exactly while its ring timer is set. */
  ghost predicate RingTimers(s: State) {
    forall id :: id in s.calls ==> s.calls[id].state != Ended && (s.calls[id].state == Ringing <==> s.calls[id].timer)
  }

  function Ends(trail: seq<Event>, id: CallId): nat {
    if trail == [] then 0
    else Ends(trail[..|trail| - 1], id) + if trail[|trail| - 1] == Finished(id) then 1 else 0
  }

  /** A call that was registered has ended once if it is no longer live, and otherwise not at all. */
  ghost predicate EndedOnce(s: State) {
    && (forall id :: id in s.calls ==> Rang(id) in s.trail)
    && (forall id :: Ends(s.trail, id) == if Rang(id) in s.trail && id !in s.calls then 1 else 0)
  }

  /** The history row of an invitation, while its call is live and afterwards. */
  ghost predicate RowOk(s: State, id: CallId, row: nat, a: UserId, b: UserId) {
    && 1 <= row && row in s.log.rows && s.log.rows[row].room == id && s.log.rows[row].initiator == a
    && !s.log.rows[row].conference && a != b
    && Cell(row, a) in s.log.parts && Cell(row, b) in s.log.parts
    && var pa, pb := s.log.parts[Cell(row, a)], s.log.parts[Cell(row, b)];
       && pa.joined && !pa.missed && (pb.missed <==> Accepted(id) !in s.trail) && (pb.joined <==> Accepted(id) in s.trail)
       && (id !in s.calls ==> s.log.rows[row].ended && pa.left && pb.left)
       && (id in s.calls ==>
             var c := s.calls[id];
             !s.log.rows[row].ended && !pa.left && !pb.left && c.row == row && c.caller == a && c.callee == b)
  }

  ghost predicate RowsOk(s: State) {
    forall id, row, a, b :: Logged(id, row, a, b) in s.trail ==> RowOk(s, id, row, a, b)
  }

  /** Every live call has its row, and is active exactly when it was accepted. */
  ghost predicate LiveLogged(s: State) {
    forall id :: id in s.calls ==>
      var c := s.calls[id];
      Logged(id, c.row, c.caller, c.callee) in s.trail && (c.state == Active <==> Accepted(id) in s.trail)
  }

  ghost predicate KnownIds(s: State) {
    forall id :: (Accepted(id) in s.trail || Rang(id) in s.trail) ==> Used(s, id)
  }

  /** The open rows of direct calls are rows of live calls. */
  ghost predicate OpenLive(s: State) {
    forall row :: OpenRow(s.log, row) && !s.log.rows[row].conference ==>
      s.log.rows[row].room in s.calls && s.calls[s.log.rows[row].room].row == row
  }

  ghost predicate Rows(s: State) {
    Valid(s.log) && RowsOk(s) && LiveLogged(s) && KnownIds(s) && OpenLive(s)
  }

  ghost predicate WasParty(s: State, u: UserId, id: CallId) {
    exists e :: e in s.trail && e.Logged? && e.id == id && (u == e.caller || u == e.callee)
  }

  /** An armed timer has an identity of its own and was armed for a call. */
  ghost predicate Graces(s: State) {
    && (forall u :: u in s.grace ==> s.grace[u] < s.timers && exists id :: Armed(s.grace[u], u, id) in s.trail)
    && (forall t: nat, u, id :: Armed(t, u, id) in s.trail ==> t < s.timers && WasParty(s, u, id))
    && (forall t: nat, u, v, id, jd :: Armed(t, u, id) in s.trail && Armed(t, v, jd) in s.trail ==> u == v && id == jd)
  }

  ghost predicate Inv(s: State) {
    Pairing(s) && RingTimers(s) && EndedOnce(s) && Rows(s) && Graces(s)
  }

  // ---- ending a call ----

  lemma EndsAppend(trail: seq<Event>, e: Event, id: CallId)
    ensures Ends(trail + [e], id) == Ends(trail, id) + if e == Finished(id) then 1 else 0
  {
    assert (trail + [e])[..|trail|] == trail;
  }

  lemma EndPairing(s: State, id: CallId, expected: Option<Phase>)
    requires Pairing(s) && RingTimers(s)
    ensures Pairing(End(s, id, expected)) && RingTimers(End(s, id, expected))
    ensures Endable(s, id, expected) ==>
              End(s, id, expected).byUser == s.byUser - {s.calls[id].caller, s.calls[id].callee}
  {
    hide Finalize;
    if Endable(s, id, expected) {
      var c := s.calls[id];
      assert End(s, id, expected).byUser == s.byUser - {c.caller, c.callee};
    }
  }

  lemma EndEndedOnce(s: State, id: CallId, expected: Option<Phase>)
    requires EndedOnce(s)
    ensures EndedOnce(End(s, id, expected))
  {
    hide Finalize, Release;
    if Endable(s, id, expected) {
      var s' := End(s, id, expected);
      forall i ensures Ends(s'.trail, i) == Ends(s.trail, i) + if i == id then 1 else 0 {
        EndsAppend(s.trail, Finished(id), i);
      }
    }
  }

  /** `m` differs from `l` at most in what belongs to row `r`. */
  ghost predicate OnlyRow(l: Log, m: Log, r: nat) {
    && Valid(m)
    && (forall i :: i != r ==> (i in m.rows <==> i in l.rows) && (i in l.rows ==> m.rows[i] == l.rows[i]))
    && (forall c: Cell :: c.call != r ==> (c in m.parts <==> c in l.parts) && (c in l.parts ==> m.parts[c] == l.parts[c]))
  }

  lemma LeftFacts(l: Log, row: nat, u: UserId)
    requires Valid(l) && Cell(row, u) in l.parts
    ensures var m := ParticipantLeft(l, row, u);
            Valid(m) && m.rows == l.rows && m.parts == l.parts[Cell(row, u) := l.parts[Cell(row, u)].(left := true)]
  {
  }

  lemma FinalizeFacts(l: Log, c: Call)
    requires Valid(l) && c.row in l.rows && c.caller != c.callee
    requires Cell(c.row, c.caller) in l.parts && Cell(c.row, c.callee) in l.parts
    ensures var m := Finalize(l, c); var a, b := Cell(c.row, c.caller), Cell(c.row, c.callee);
            && OnlyRow(l, m, c.row) && m.rows[c.row] == l.rows[c.row].(ended := true)
            && a in m.parts && m.parts[a] == l.parts[a].(left := true)
            && b in m.parts && m.parts[b] == l.parts[b].(left := true)
  {
    hide ParticipantLeft;
    LeftFacts(l, c.row, c.caller);
    LeftFacts(ParticipantLeft(l, c.row, c.caller), c.row, c.callee);
  }

  /** The rows of other calls do not notice. */
  lemma OtherRow(s: State, s': State, r: nat, id: CallId, row: nat, a: UserId, b: UserId)
    requires RowOk(s, id, row, a, b) && OnlyRow(s.log, s'.log, r) && row != r
    requires Accepted(id) in s'.trail <==> Accepted(id) in s.trail
    requires id in s'.calls <==> id in s.calls
    requires id in s.calls ==> s'.calls[id].row == s.calls[id].row && s'.calls[id].caller == s.calls[id].caller
                               && s'.calls[id].callee == s.calls[id].callee
    ensures RowOk(s', id, row, a, b)
  {
  }

  /** Exactly one row belongs to a live call. */
  lemma OneRow(s: State, id: CallId, jd: CallId, row: nat, a: UserId, b: UserId)
    requires Rows(s) && id in s.calls && Logged(jd, row, a, b) in s.trail
    ensures jd == id ==> row == s.calls[id].row && a == s.calls[id].caller && b == s.calls[id].callee
    ensures jd != id ==> row != s.calls[id].row
  {
    assert RowOk(s, jd, row, a, b);
    var c := s.calls[id];
    assert RowOk(s, id, c.row, c.caller, c.callee);
  }

  lemma EndRows(s: State, id: CallId, expected: Option<Phase>)
    requires Rows(s)
    ensures Rows(End(s, id, expected))
  {
    if Endable(s, id, expected) {
      var s' := End(s, id, expected);
      EndsItsRow(s, id, expected);
      EndRowsOk(s, id, expected);
      assert LiveLogged(s') && KnownIds(s') && OpenLive(s') by {
        hide RowOk, Finalize, RowsOk;
        EndOpenLive(s, id, expected);
        SameUses(s, s');
      }
    }
  }

  lemma EndRowsOk(s: State, id: CallId, expected: Option<Phase>)
    requires Rows(s) && Endable(s, id, expected)
    ensures RowsOk(End(s, id, expected))
  {
    hide RowOk, Finalize, OnlyRow, Release, Used, LiveLogged, KnownIds, OpenLive;
    var s' := End(s, id, expected);
    EndsItsRow(s, id, expected);
    forall jd, row, a, b | Logged(jd, row, a, b) in s'.trail ensures RowOk(s', jd, row, a, b) {
      assert Logged(jd, row, a, b) in s.trail;
      OneRow(s, id, jd, row, a, b);
      if jd != id { OtherRow(s, s', s.calls[id].row, jd, row, a, b); }
    }
  }

  lemma EndOpenLive(s: State, id: CallId, expected: Option<Phase>)
    requires Rows(s) && Endable(s, id, expected)
    ensures OpenLive(End(s, id, expected))
  {
    hide RowOk, Finalize, RowsOk, LiveLogged, KnownIds, Used;
    EndsItsRow(s, id, expected);
    DistinctRows(s);
    OpenRowsAfter(s, End(s, id, expected), s.calls[id].row);
  }

  lemma DistinctRows(s: State)
    requires Rows(s)
    ensures forall i, j :: i in s.calls && j in s.calls && s.calls[i].row == s.calls[j].row ==> i == j
  {
    hide KnownIds, OpenLive;
    forall i, j | i in s.calls && j in s.calls && s.calls[i].row == s.calls[j].row ensures i == j {
      var c := s.calls[j];
      assert Logged(j, c.row, c.caller, c.callee) in s.trail;
      OneRow(s, i, j, c.row, c.caller, c.callee);
    }
  }

  lemma EndsItsRow(s: State, id: CallId, expected: Option<Phase>)
    requires Rows(s) && Endable(s, id, expected)
    ensures var s' := End(s, id, expected); var c := s.calls[id];
            && RowOk(s', id, c.row, c.caller, c.callee) && OnlyRow(s.log, s'.log, c.row)
            && c.row in s'.log.rows && s'.log.rows[c.row].ended && Valid(s'.log)
  {
    hide Finalize, Release;
    var c := s.calls[id];
    assert RowOk(s, id, c.row, c.caller, c.callee);
    FinalizeFacts(s.log, c);
  }

  /** Closing one row, or adding closed ones, leaves the open rows to the remaining calls. */
  lemma OpenRowsAfter(s: State, s': State, r: nat)
    requires Rows(s) && OnlyRow(s.log, s'.log, r) && r in s'.log.rows && s'.log.rows[r].ended
    requires forall i :: i in s.calls && s.calls[i].row != r ==> i in s'.calls && s'.calls[i] == s.calls[i]
    ensures OpenLive(s')
  {
    hide RowsOk, LiveLogged, KnownIds;
  }

  lemma SameUses(s: State, s': State)
    requires forall e :: e in s.trail ==> e in s'.trail
    ensures forall id :: Used(s, id) ==> Used(s', id)
  {
  }

  lemma EndGraces(s: State, id: CallId, expected: Option<Phase>)
    requires Graces(s)
    ensures Graces(End(s, id, expected))
  {
    hide Finalize, Release;
    if Endable(s, id, expected) { SameGraces(s, End(s, id, expected), [Finished(id)]); }
  }

  lemma SameGraces(s: State, s': State, more: seq<Event>)
    requires Graces(s) && s'.timers == s.timers && s'.trail == s.trail + more
    requires forall u :: u in s'.grace ==> u in s.grace && s'.grace[u] == s.grace[u]
    requires forall e :: e in more ==> !e.Armed?
    ensures Graces(s')
  {
    forall u | u in s'.grace ensures exists id :: Armed(s'.grace[u], u, id) in s'.trail {
      var id :| Armed(s.grace[u], u, id) in s.trail;
      assert Armed(s'.grace[u], u, id) in s'.trail;
    }
    SamePasts(s, s');
  }

  lemma SamePasts(s: State, s': State)
    requires forall e :: e in s.trail ==> e in s'.trail
    ensures forall u, id :: WasParty(s, u, id) ==> WasParty(s', u, id)
  {
  }

  lemma EndKeeps(s: State, id: CallId, expected: Option<Phase>)
    requires Inv(s)
    ensures Inv(End(s, id, expected))
  {
    hide *;
    hide Pairing;
    InvParts(s);
    EndPairing(s, id, expected);
    EndEndedOnce(s, id, expected);
    EndRows(s, id, expected);
    EndGraces(s, id, expected);
    InvWhole(End(s, id, expected));
  }

  lemma InvParts(s: State)
    requires Inv(s)
    ensures Pairing(s) && RingTimers(s) && EndedOnce(s) && Rows(s) && Graces(s)
  {
  }

  lemma InvWhole(s: State)
    requires Pairing(s) && RingTimers(s) && EndedOnce(s) && Rows(s) && Graces(s)
    ensures Inv(s)
  {
  }

  // ---- accepting ----

  lemma AcceptFacts(l: Log, id: nat, u: UserId)
    requires Valid(l) && id in l.rows && Cell(id, u) in l.parts
    ensures var m := AddParticipant(l, id, u, true);
            && OnlyRow(l, m, id) && m.rows == l.rows
            && m.parts == l.parts[Cell(id, u) := Part(true, false, false)]
  {
  }

  lemma AcceptRows(s: State, id: CallId, u: UserId)
    requires Rows(s) && CanAccept(s, id, u)
    ensures Rows(Accept(s, id, u))
  {
    var s', c := Accept(s, id, u), s.calls[id];
    assert RowOk(s, id, c.row, c.caller, c.callee);
    AcceptFacts(s.log, c.row, u);
    AcceptRowsOk(s, id, u);
    assert LiveLogged(s') && KnownIds(s') && OpenLive(s') by {
      hide RowOk, RowsOk;
      SameUses(s, s');
    }
  }

  lemma AcceptRowsOk(s: State, id: CallId, u: UserId)
    requires Rows(s) && CanAccept(s, id, u)
    ensures RowsOk(Accept(s, id, u))
  {
    hide OnlyRow, Used, KnownIds, OpenLive;
    var s', c := Accept(s, id, u), s.calls[id];
    assert RowOk(s, id, c.row, c.caller, c.callee);
    AcceptFacts(s.log, c.row, u);
    forall jd, row, a, b | Logged(jd, row, a, b) in s'.trail ensures RowOk(s', jd, row, a, b) {
      assert Logged(jd, row, a, b) in s.trail;
      OneRow(s, id, jd, row, a, b);
      if jd != id { OtherRow(s, s', c.row, jd, row, a, b); }
    }
  }

  lemma AcceptPairing(s: State, id: CallId, u: UserId)
    requires Pairing(s) && RingTimers(s) && CanAccept(s, id, u)
    ensures Pairing(Accept(s, id, u)) && RingTimers(Accept(s, id, u))
  {
    hide AddParticipant;
  }

  lemma AcceptEnds(s: State, id: CallId, u: UserId)
    requires EndedOnce(s) && Graces(s) && CanAccept(s, id, u)
    ensures EndedOnce(Accept(s, id, u)) && Graces(Accept(s, id, u))
  {
    hide AddParticipant;
    var s' := Accept(s, id, u);
    SameGraces(s, s', [Accepted(id)]);
    forall i ensures Ends(s'.trail, i) == Ends(s.trail, i) { EndsAppend(s.trail, Accepted(id), i); }
  }

  lemma AcceptKeeps(s: State, id: CallId, u: UserId)
    requires Inv(s)
    ensures Inv(Accept(s, id, u))
  {
    if CanAccept(s, id, u) {
      hide Pairing, RingTimers, EndedOnce, Rows, Graces, Accept;
      AcceptPairing(s, id, u);
      AcceptRows(s, id, u);
      AcceptEnds(s, id, u);
    } else {
      hide Inv;
    }
  }

  // ---- ending unanswered ----

  /** Invitees are logged as missed from the start, so marking one that never joined changes nothing. */
  lemma MissKeeps(s: State, id: CallId)
    requires Inv(s)
    ensures Inv(Miss(s, id)) && Miss(s, id) == End(s, id, Some(Ringing))
  {
    hide Inv, Finalize, Release, MarkMissed;
    EndKeeps(s, id, Some(Ringing));
    if Endable(s, id, Some(Ringing)) { AlreadyMissed(s, id); }
  }

  lemma AlreadyMissed(s: State, id: CallId)
    requires Inv(s) && Endable(s, id, Some(Ringing))
    ensures var e := End(s, id, Some(Ringing)); MarkMissed(e.log, s.calls[id].row, s.calls[id].callee) == e.log
  {
    hide Finalize, Release, Pairing, RingTimers, EndedOnce, Graces, RowsOk, KnownIds, OpenLive, OnlyRow;
    EndsItsRow(s, id, Some(Ringing));
    var e, c := End(s, id, Some(Ringing)), s.calls[id];
    assert RowOk(e, id, c.row, c.caller, c.callee) && Accepted(id) !in e.trail;
  }

  // ---- placing a call ----

  lemma LogInviteFacts(l: Log, a: UserId, b: UserId, id: CallId)
    requires Valid(l) && a != b
    ensures var m := LogInvite(l, a, b, id);
            && Valid(m) && m.next == l.next + 1 && m.rows == l.rows[l.next := Row(id, a, false, false)]
            && m.parts == l.parts[Cell(l.next, a) := Part(true, false, false)][Cell(l.next, b) := Part(false, false, true)]
  {
  }

  /** The log after an invitation, whether it rings or not. */
  lemma InviteLog(s: State, a: UserId, b: UserId, id: CallId, known: bool, inRoom: bool, online: bool)
    requires Valid(s.log) && Placeable(s, a, b, id, known, inRoom)
    ensures var s' := Invite(s, a, b, id, known, inRoom, online); var row := s.log.next;
            && Valid(s'.log) && s'.log.next == row + 1
            && s'.log.rows == s.log.rows[row := Row(id, a, false, !online)]
            && s'.log.parts == s.log.parts[Cell(row, a) := Part(true, !online, false)][Cell(row, b) := Part(false, !online, true)]
  {
    hide CreateCall, AddParticipant, LogInvite;
    var l := LogInvite(s.log, a, b, id);
    LogInviteFacts(s.log, a, b, id);
    var m := MarkMissed(l, s.log.next, b);
    assert m == l;
    var c := Call(a, b, s.log.next, Ringing, true);
    var f := Finalize(m, c);
    assert f.rows == l.rows[s.log.next := Row(id, a, false, true)];
    assert f.parts == s.log.parts[Cell(s.log.next, a) := Part(true, true, false)][Cell(s.log.next, b) := Part(false, true, true)];
  }

  lemma InvitesItsRow(s: State, a: UserId, b: UserId, id: CallId, known: bool, inRoom: bool, online: bool)
    requires Rows(s) && Placeable(s, a, b, id, known, inRoom) && !Used(s, id)
    ensures var s' := Invite(s, a, b, id, known, inRoom, online);
            RowOk(s', id, s.log.next, a, b) && OnlyRow(s.log, s'.log, s.log.next)
  {
    hide LogInvite, MarkMissed, Finalize, RowsOk, LiveLogged, OpenLive, Used;
    var s' := Invite(s, a, b, id, known, inRoom, online);
    InviteLog(s, a, b, id, known, inRoom, online);
    assert Accepted(id) !in s'.trail;
  }

  lemma InviteRowsOk(s: State, a: UserId, b: UserId, id: CallId, known: bool, inRoom: bool, online: bool)
    requires Rows(s) && Placeable(s, a, b, id, known, inRoom) && !Used(s, id)
    ensures RowsOk(Invite(s, a, b, id, known, inRoom, online))
  {
    hide LiveLogged, KnownIds, OpenLive, LogInvite, MarkMissed, Finalize, RowOk, OnlyRow;
    var s' := Invite(s, a, b, id, known, inRoom, online);
    InvitesItsRow(s, a, b, id, known, inRoom, online);
    forall jd, row, c, d | Logged(jd, row, c, d) in s'.trail ensures RowOk(s', jd, row, c, d) {
      if Logged(jd, row, c, d) in s.trail {
        OldRow(s, jd, row, c, d);
        assert jd != id;
        OtherRow(s, s', s.log.next, jd, row, c, d);
      }
    }
  }

  lemma OldRow(s: State, id: CallId, row: nat, a: UserId, b: UserId)
    requires Rows(s) && Logged(id, row, a, b) in s.trail
    ensures RowOk(s, id, row, a, b) && row < s.log.next
  {
    hide LiveLogged, KnownIds, OpenLive;
    assert RowOk(s, id, row, a, b);
  }

  lemma InviteOpen(s: State, a: UserId, b: UserId, id: CallId, known: bool, inRoom: bool, online: bool)
    requires Valid(s.log) && OpenLive(s) && Placeable(s, a, b, id, known, inRoom)
    ensures OpenLive(Invite(s, a, b, id, known, inRoom, online))
  {
    var s' := Invite(s, a, b, id, known, inRoom, online);
    InviteLog(s, a, b, id, known, inRoom, online);
    hide LogInvite, MarkMissed, Finalize;
    forall row | OpenRow(s'.log, row) && !s'.log.rows[row].conference
      ensures s'.log.rows[row].room in s'.calls && s'.calls[s'.log.rows[row].room].row == row
    {
      if row != s.log.next {
        assert OpenRow(s.log, row) && s.log.rows[row].room in s.calls;
      }
    }
  }

  lemma InviteRows(s: State, a: UserId, b: UserId, id: CallId, known: bool, inRoom: bool, online: bool)
    requires Rows(s) && Placeable(s, a, b, id, known, inRoom) && !Used(s, id)
    ensures Rows(Invite(s, a, b, id, known, inRoom, online))
  {
    hide RowsOk, OpenLive, LogInvite, MarkMissed, Finalize;
    var s' := Invite(s, a, b, id, known, inRoom, online);
    InviteRowsOk(s, a, b, id, known, inRoom, online);
    InviteLog(s, a, b, id, known, inRoom, online);
    InviteOpen(s, a, b, id, known, inRoom, online);
    assert Logged(id, s.log.next, a, b) in s'.trail;
    SameUses(s, s');
    assert Used(s', id);
    hide Used;
  }

  lemma InvitePairing(s: State, a: UserId, b: UserId, id: CallId, known: bool, inRoom: bool, online: bool)
    requires Pairing(s) && RingTimers(s) && Placeable(s, a, b, id, known, inRoom)
    ensures var s' := Invite(s, a, b, id, known, inRoom, online); Pairing(s') && RingTimers(s')
  {
    hide LogInvite, MarkMissed, Finalize;
  }

  lemma InviteEnds(s: State, a: UserId, b: UserId, id: CallId, known: bool, inRoom: bool, online: bool)
    requires EndedOnce(s) && Graces(s) && Rang(id) !in s.trail && Placeable(s, a, b, id, known, inRoom)
    ensures var s' := Invite(s, a, b, id, known, inRoom, online); EndedOnce(s') && Graces(s')
  {
    hide LogInvite, MarkMissed, Finalize;
    var s' := Invite(s, a, b, id, known, inRoom, online);
    var logged := Logged(id, s.log.next, a, b);
    SameGraces(s, s', if online then [logged, Rang(id)] else [logged]);
    forall i ensures Ends(s'.trail, i) == Ends(s.trail, i) {
      EndsAppend(s.trail, logged, i);
      EndsAppend(s.trail + [logged], Rang(id), i);
      assert s.trail + [logged] + [Rang(id)] == s.trail + [logged, Rang(id)];
    }
    hide Graces, Ends;
  }

  lemma InviteKeeps(s: State, a: UserId, b: UserId, id: CallId, known: bool, inRoom: bool, online: bool)
    requires Inv(s) && !Used(s, id)
    ensures Inv(Invite(s, a, b, id, known, inRoom, online))
  {
    if Placeable(s, a, b, id, known, inRoom) {
      NeverRang(s, id);
      hide Pairing, RingTimers, EndedOnce, Rows, Graces, Invite;
      InvitePairing(s, a, b, id, known, inRoom, online);
      InviteRows(s, a, b, id, known, inRoom, online);
      InviteEnds(s, a, b, id, known, inRoom, online);
    } else {
      hide Inv;
    }
  }

  lemma NeverRang(s: State, id: CallId)
    requires Inv(s) && !Used(s, id)
    ensures Rang(id) !in s.trail
  {
  }

  // ---- dropped sockets ----

  lemma DropKeeps(s: State, u: UserId)
    requires Inv(s)
    ensures Inv(Drop(s, u))
  {
    if u in s.byUser {
      var s' := Drop(s, u);
      var armed := Armed(s.timers, u, s.byUser[u]);
      InACall(s, u);
      hide Pairing, RingTimers, Rows, Graces, EndedOnce, WasParty;
      SameLog(s, s', armed);
      DropGraces(s, u);
      DropEnds(s, u);
      SamePairing(s, s');
    }
  }

  lemma SamePairing(s: State, s': State)
    requires Pairing(s) && RingTimers(s) && s'.calls == s.calls && s'.byUser == s.byUser
    ensures Pairing(s') && RingTimers(s')
  {
  }

  lemma InACall(s: State, u: UserId)
    requires Inv(s) && u in s.byUser
    ensures s.byUser[u] in s.calls && WasParty(s, u, s.byUser[u])
  {
    hide RowOk, EndedOnce, Graces, KnownIds, OpenLive;
    var c := s.calls[s.byUser[u]];
    assert Logged(s.byUser[u], c.row, c.caller, c.callee) in s.trail;
  }

  lemma DropEnds(s: State, u: UserId)
    requires EndedOnce(s) && u in s.byUser
    ensures EndedOnce(Drop(s, u))
  {
    var armed := Armed(s.timers, u, s.byUser[u]);
    forall i ensures Ends(Drop(s, u).trail, i) == Ends(s.trail, i) { EndsAppend(s.trail, armed, i); }
    hide Ends;
  }

  lemma DropGraces(s: State, u: UserId)
    requires Graces(s) && u in s.byUser && WasParty(s, u, s.byUser[u])
    ensures Graces(Drop(s, u))
  {
    var s' := Drop(s, u);
    assert Armed(s.timers, u, s.byUser[u]) in s'.trail;
    SamePasts(s, s');
    hide WasParty;
    forall v | v in s'.grace && v != u ensures exists id :: Armed(s'.grace[v], v, id) in s'.trail {
      var id :| Armed(s.grace[v], v, id) in s.trail;
      assert Armed(s'.grace[v], v, id) in s'.trail;
    }
  }

  lemma SameLog(s: State, s': State, e: Event)
    requires Rows(s) && s'.log == s.log && s'.calls == s.calls && s'.trail == s.trail + [e] && e.Armed?
    ensures Rows(s')
  {
    SameUses(s, s');
    forall jd, row, c, d | Logged(jd, row, c, d) in s'.trail ensures RowOk(s', jd, row, c, d) {
      assert RowOk(s, jd, row, c, d);
    }
  }

  lemma GraceLess(s: State, u: UserId)
    requires Inv(s)
    ensures Inv(s.(grace := s.grace - {u}))
  {
    hide RowOk, Ends;
    var s' := s.(grace := s.grace - {u});
    assert s'.trail == s.trail + [];
    SameGraces(s, s', []);
    forall jd, row, c, d | Logged(jd, row, c, d) in s'.trail ensures RowOk(s', jd, row, c, d) {
      assert RowOk(s, jd, row, c, d);
      GraceFree(s, s', jd, row, c, d);
    }
  }

  lemma GraceFree(s: State, s': State, id: CallId, row: nat, a: UserId, b: UserId)
    requires RowOk(s, id, row, a, b) && s' == s.(grace := s'.grace)
    ensures RowOk(s', id, row, a, b)
  {
  }

  lemma DisconnectKeeps(s: State, u: UserId)
    requires Inv(s)
    ensures Inv(Disconnect(s, u))
  {
    hide Inv, End;
    if u in s.byUser && s.byUser[u] in s.calls { EndKeeps(s, s.byUser[u], None); }
  }

  lemma OtherWriterKeeps(s: State, m: Log)
    requires Inv(s) && Spares(s.log, m)
    ensures Inv(s.(log := m))
  {
    hide Ends, RowOk;
    var s' := s.(log := m);
    forall jd, row, c, d | Logged(jd, row, c, d) in s'.trail ensures RowOk(s', jd, row, c, d) {
      assert RowOk(s, jd, row, c, d);
      SparedRow(s, m, jd, row, c, d);
    }
    SameUses(s, s');
    SamePasts(s, s');
    hide Used, WasParty;
  }

  lemma SparedRow(s: State, m: Log, id: CallId, row: nat, a: UserId, b: UserId)
    requires RowOk(s, id, row, a, b) && Spares(s.log, m)
    ensures RowOk(s.(log := m), id, row, a, b)
  {
    assert Cell(row, a).call in s.log.rows && Cell(row, b).call in s.log.rows;
  }

  // ---- every operation, every run ----

  lemma StepKeeps(s: State, op: Op)
    requires Inv(s) && Enabled(s, op)
    ensures Inv(Step(s, op))
  {
    hide Inv, Used, Spares, Invite, Accept, Miss, End, Drop, Disconnect;
    match op
    case InviteOp(a, b, id, known, inRoom, online) => InviteKeeps(s, a, b, id, known, inRoom, online);
    case AcceptOp(id, u) => AcceptKeeps(s, id, u);
    case DeclineOp(id, u) => MissKeeps(s, id);
    case HangupOp(id, u) => EndKeeps(s, id, None);
    case RingFires(id) => MissKeeps(s, id);
    case DropOp(u) => DropKeeps(s, u);
    case ResumeOp(u, id) => GraceLess(s, u);
    case GraceOp(u, t) =>
      GraceLess(s, u);
      DisconnectKeeps(s.(grace := s.grace - {u}), u);
    case DisconnectOp(u) => DisconnectKeeps(s, u);
    case OtherWriter(l) => OtherWriterKeeps(s, l);
  }

  lemma {:induction false} RunKeeps(s: State, ops: seq<Op>)
    requires Inv(s) && Possible(s, ops)
    ensures Inv(Run(s, ops))
    decreases ops
  {
    hide Inv, Enabled, Step;
    if ops != [] {
      StepKeeps(s, ops[0]);
      RunKeeps(Step(s, ops[0]), ops[1..]);
    }
  }

  /** A server starts on tables whose open rows it has closed. */
  ghost predicate CleanStart(log: Log) {
    Valid(log) && forall row :: OpenRow(log, row) ==> log.rows[row].conference
  }

  lemma {:induction false} EveryRun(log: Log, ops: seq<Op>)
    requires CleanStart(log) && Possible(New(log), ops)
    ensures Inv(Run(New(log), ops))
  {
    assert Inv(New(log));
    RunKeeps(New(log), ops);
  }
}
