/**
 The manager of direct calls as the server keeps it: call objects in a table, the two-way index, the
 timers, and the history tables, all changed in place. Every method is tied to the value model.
 */
module P2PManager {
  import opened Media
  import CallLog
  import CallModel

  type CallId = CallModel.CallId

  class P2PCall {
    const id: CallId
    const callerID: UserId
    const calleeID: UserId
    var dbID: nat
    var state: CallModel.Phase
    var timer: bool

    constructor (id: CallId, callerID: UserId, calleeID: UserId)
      ensures this.id == id && this.callerID == callerID && this.calleeID == calleeID
      ensures dbID == 0 && state == CallModel.Ringing && !timer
    {
      this.id, this.callerID, this.calleeID := id, callerID, calleeID;
      dbID, state, timer := 0, CallModel.Ringing, false;
    }

    ghost function View(): CallModel.Call
      reads this
    {
      CallModel.Call(callerID, calleeID, dbID, state, timer)
    }
  }

  class Manager {
    var calls: map<CallId, P2PCall>
    var byUser: map<UserId, CallId>
    var grace: map<UserId, nat>
    var timers: nat
    const db: CallLog.Tables
    ghost var trail: seq<CallModel.Event>

    constructor (db: CallLog.Tables)
      ensures Valid() && View() == CallModel.New(db.Contents()) && this.db == db && calls == map[]
    {
      this.db := db;
      calls, byUser, grace, timers, trail := map[], map[], map[], 0, [];
    }

    /** Calls are keyed by their own id; so no object serves two ids. */
    ghost predicate Valid()
      reads `calls, calls.Values
    {
      forall id :: id in calls ==> calls[id].id == id
    }

    ghost function Calls(): map<CallId, CallModel.Call>
      reads `calls, calls.Values
    {
      map id | id in calls :: calls[id].View()
    }

    ghost function View(): CallModel.State
      reads this, db, calls.Values
    {
      CallModel.State(Calls(), byUser, grace, timers, db.Contents(), trail)
    }

    /** Close the history of a call that left memory. */
    method FinalizeDB(call: P2PCall)
      modifies db
      ensures db.Contents() == CallModel.Finalize(old(db.Contents()), call.View())
    {
      if call.dbID > 0 {
        db.Leave(call.dbID, call.callerID);
        db.Leave(call.dbID, call.calleeID);
        db.End(call.dbID);
      }
    }

    method Unindex(u: UserId, id: CallId)
      modifies `byUser
      ensures byUser == CallModel.Release(old(byUser), u, id)
    {
      if u in byUser && byUser[u] == id {
        byUser := byUser - {u};
      }
    }

    /** End a live call, or only one in the expected state; of several racing callers one succeeds. */
    method End(id: CallId, expected: Option<CallModel.Phase>) returns (ended: Option<P2PCall>)
      requires Valid()
      modifies this, db, calls.Values
      ensures Valid() && View() == CallModel.End(old(View()), id, expected)
      ensures ended.Some? == CallModel.Endable(old(View()), id, expected)
      ensures ended.Some? ==> id in old(calls) && ended.value == old(calls[id]) && ended.value.dbID == old(calls[id].dbID)
      ensures calls == (if ended.Some? then old(calls) - {id} else old(calls))
    {
      hide CallModel.Finalize;
      if id !in calls || calls[id].state == CallModel.Ended || (expected.Some? && calls[id].state != expected.value) {
        return None;
      }
      var call := calls[id];
      FinalizeSame(call.View(), CallModel.Ended, false);
      Detach(call);
      FinalizeDB(call);
      return Some(call);
    }

    /** The in-memory half of ending a call. */
    method Detach(call: P2PCall)
      requires Valid() && call.id in calls && calls[call.id] == call
      modifies this, call`state, call`timer
      ensures Valid() && calls == old(calls) - {call.id}
      ensures call.View() == old(call.View()).(state := CallModel.Ended, timer := false)
      ensures View() == old(View()).(calls := old(Calls()) - {call.id},
                                     byUser := CallModel.Release(CallModel.Release(old(byUser), call.callerID, call.id), call.calleeID, call.id),
                                     trail := old(trail) + [CallModel.Finished(call.id)])
    {
      hide CallModel.Release;
      Drop(call);
      hide Calls, Valid;
      Unindex(call.callerID, call.id);
      Unindex(call.calleeID, call.id);
      trail := trail + [CallModel.Finished(call.id)];
    }

    method Drop(call: P2PCall)
      requires Valid() && call.id in calls && calls[call.id] == call
      modifies `calls, call`state, call`timer
      ensures Valid() && calls == old(calls) - {call.id} && Calls() == old(Calls()) - {call.id}
      ensures call.View() == old(call.View()).(state := CallModel.Ended, timer := false)
    {
      call.state, call.timer := CallModel.Ended, false;
      calls := calls - {call.id};
      assert Calls() == old(Calls()) - {call.id};
    }

    static lemma FinalizeSame(c: CallModel.Call, state: CallModel.Phase, timer: bool)
      ensures forall l :: CallModel.Finalize(l, c.(state := state, timer := timer)) == CallModel.Finalize(l, c)
    {
    }

    /** The callee picks up: the call becomes active and its ring timer is stopped. */
    method Accept(id: CallId, u: UserId) returns (ok: bool)
      requires Valid()
      modifies this, db, calls.Values
      ensures Valid() && View() == CallModel.Accept(old(View()), id, u) && ok == CallModel.CanAccept(old(View()), id, u)
    {
      hide CallLog.AddParticipant;
      if id !in calls || calls[id].state != CallModel.Ringing || calls[id].calleeID != u { return false; }
      var call := calls[id];
      Activate(call);
      hide Calls, Valid;
      db.Add(call.dbID, u, true);
      trail := trail + [CallModel.Accepted(id)];
      return true;
    }

    method Activate(call: P2PCall)
      requires Valid() && call.id in calls && calls[call.id] == call
      modifies call`state, call`timer
      ensures Valid() && Calls() == old(Calls())[call.id := old(call.View()).(state := CallModel.Active, timer := false)]
    {
      call.state, call.timer := CallModel.Active, false;
      assert Calls() == old(Calls())[call.id := call.View()];
    }

    /** End a ringing call unanswered and mark the callee. */
    method Timeout(id: CallId)
      requires Valid()
      modifies this, db, calls.Values
      ensures Valid() && View() == CallModel.Miss(old(View()), id)
    {
      hide CallModel.Finalize, CallModel.Release, CallLog.MarkMissed;
      var ended := End(id, Some(CallModel.Ringing));
      if ended.Some? {
        db.Miss(ended.value.dbID, ended.value.calleeID);
      }
    }

    method Decline(id: CallId, u: UserId)
      requires Valid()
      modifies this, db, calls.Values
      ensures Valid() && View() == CallModel.Decline(old(View()), id, u)
    {
      hide CallModel.Miss;
      if id in calls && calls[id].calleeID == u {
        Timeout(id);
      }
    }

    method Hangup(id: CallId, u: UserId)
      requires Valid()
      modifies this, db, calls.Values
      ensures Valid() && View() == CallModel.Hangup(old(View()), id, u)
    {
      hide CallModel.End;
      if id in calls && (calls[id].callerID == u || calls[id].calleeID == u) {
        var _ := End(id, None);
      }
    }

    /** The call `u` is in ends. */
    method OnDisconnect(u: UserId)
      requires Valid()
      modifies this, db, calls.Values
      ensures Valid() && View() == CallModel.Disconnect(old(View()), u)
    {
      hide CallModel.End;
      if u in byUser && byUser[u] in calls {
        var _ := End(byUser[u], None);
      }
    }

    /** The socket of `u` dropped: its call gets a grace period. */
    method ScheduleDisconnect(u: UserId)
      requires Valid()
      modifies this
      ensures Valid() && View() == CallModel.Drop(old(View()), u)
    {
      if u !in byUser { return; }
      trail := trail + [CallModel.Armed(timers, u, byUser[u])];
      grace := grace[u := timers];
      timers := timers + 1;
    }

    method Resume(u: UserId, id: CallId) returns (alive: bool)
      requires Valid()
      modifies this
      ensures Valid() && View() == CallModel.Resume(old(View()), u, id)
      ensures alive == (u in old(byUser) && old(byUser)[u] == id)
    {
      if u !in byUser || byUser[u] != id { return false; }
      grace := grace - {u};
      return true;
    }

    /** The callback of timer `t` gets the lock. */
    method GraceFired(u: UserId, t: nat)
      requires Valid()
      modifies this, db, calls.Values
      ensures Valid() && View() == CallModel.GraceFires(old(View()), u, t)
    {
      hide CallModel.Disconnect;
      if u in grace && grace[u] == t {
        grace := grace - {u};
        OnDisconnect(u);
      }
    }

    /**
     Place a call. `known`, `inRoom` and `online` say what the user table, the conference engine and
     the connection table answer; a call to somebody offline is logged as missed and not registered.
     */
    method Invite(caller: UserId, callee: UserId, id: CallId, known: bool, inRoom: bool, online: bool)
      requires Valid()
      modifies this, db
      ensures Valid() && View() == CallModel.Invite(old(View()), caller, callee, id, known, inRoom, online)
    {
      hide CallModel.Finalize, CallLog.MarkMissed, CallModel.LogInvite, Valid, Calls;
      SameIds();
      if callee == 0 || callee == caller || !known || inRoom { return; }
      if id in calls || caller in byUser || callee in byUser { return; }
      var call := Log(caller, callee, id);
      if !online {
        db.Miss(call.dbID, callee);
        FinalizeSame(call.View(), CallModel.Ringing, true);
        FinalizeDB(call);
      } else {
        Register(call);
        assert old(trail) + [CallModel.Logged(id, old(db.next), caller, callee)] + [CallModel.Rang(id)]
            == old(trail) + [CallModel.Logged(id, old(db.next), caller, callee), CallModel.Rang(id)];
      }
    }

    lemma SameIds()
      ensures Calls().Keys == calls.Keys
    {
    }

    /** The call object and its history row. */
    method Log(caller: UserId, callee: UserId, id: CallId) returns (call: P2PCall)
      requires Valid()
      modifies `trail, db
      ensures Valid() && fresh(call) && call.id == id
      ensures call.View() == CallModel.Call(caller, callee, old(db.next), CallModel.Ringing, false)
      ensures View() == old(View()).(log := CallModel.LogInvite(old(db.Contents()), caller, callee, id),
                                     trail := old(trail) + [CallModel.Logged(id, old(db.next), caller, callee)])
    {
      hide CallModel.LogInvite;
      call := new P2PCall(id, caller, callee);
      call.dbID := LogInvite(caller, callee, id);
    }

    method LogInvite(caller: UserId, callee: UserId, id: CallId) returns (row: nat)
      modifies `trail, db
      ensures row == old(db.next) && db.Contents() == CallModel.LogInvite(old(db.Contents()), caller, callee, id)
      ensures trail == old(trail) + [CallModel.Logged(id, row, caller, callee)]
    {
      hide CallLog.CreateCall, CallLog.AddParticipant;
      row := db.Create(id, caller, false);
      db.Add(row, caller, true);
      db.Add(row, callee, false);
      trail := trail + [CallModel.Logged(id, row, caller, callee)];
    }

    method Register(call: P2PCall)
      requires Valid() && call.id !in calls
      modifies `calls, `byUser, call`timer, `trail
      ensures Valid() && calls == old(calls)[call.id := call] && call.timer
      ensures View() == old(View()).(calls := old(Calls())[call.id := old(call.View()).(timer := true)],
                                     byUser := old(byUser)[call.callerID := call.id][call.calleeID := call.id],
                                     trail := old(trail) + [CallModel.Rang(call.id)])
    {
      calls := calls[call.id := call];
      byUser := byUser[call.callerID := call.id][call.calleeID := call.id];
      call.timer := true;
      trail := trail + [CallModel.Rang(call.id)];
      assert Calls() == old(Calls())[call.id := call.View()];
    }
  }
}
