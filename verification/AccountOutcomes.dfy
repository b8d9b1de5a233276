/**
 What every request about accounts and groups leads to: exactly when it is granted, whom it concerns and that
 nobody and nothing else changes. A deleted account stays unusable, and a purged one leaves nothing behind.
 */
module AccountOutcomes {
  import opened Media
  import opened Accounts

  // ---- groups ----

  /** Group `id` may have changed, and nothing else did. */
  predicate OnlyGroup(t: Tables, s: Tables, id: GroupId) {
    && s == t.(groups := s.groups) && id in t.groups && id in s.groups && s.groups == t.groups[id := s.groups[id]]
    && s.groups[id].createdBy == t.groups[id].createdBy
  }

  /** The creator, or an administrator of the site. */
  predicate Owns(t: Tables, id: GroupId, me: UserId) {
    id in t.groups && (t.groups[id].createdBy == me || (me in t.users && t.users[me].admin))
  }

  predicate Manages(t: Tables, id: GroupId, me: UserId) {
    Owns(t, id, me) || (id in t.groups && me in t.groups[id].members && t.groups[id].members[me] == Admin)
  }

  /** In group `id` exactly `u` may have another standing, and now has that of `role`. */
  ghost predicate Ranks(t: Tables, s: Tables, id: GroupId, u: UserId, role: Option<Role>) {
    OnlyGroup(t, s, id)
    && var before, now := t.groups[id].members, s.groups[id].members;
       && (u in now <==> role.Some?) && (role.Some? ==> now[u] == role.value)
       && forall v :: v != u ==> (v in now <==> v in before) && (v in before ==> now[v] == before[v])
  }

  /** A new group: `me` its owner, everybody else listed a member, once. */
  ghost predicate Founds(t: Tables, s: Tables, me: UserId, ids: seq<UserId>) {
    && s == t.(groups := s.groups, next := t.next + 1) && t.next in s.groups && s.groups == t.groups[t.next := s.groups[t.next]]
    && var g := s.groups[t.next];
       && g.createdBy == me && (forall u :: u in g.members <==> u == me || u in ids)
       && forall u :: u in g.members ==> g.members[u] == if u == me then Owner else Member
  }

  /** Those listed who were not in the group are members now. */
  ghost predicate Admits(t: Tables, s: Tables, id: GroupId, ids: seq<UserId>) {
    OnlyGroup(t, s, id)
    && var before, now := t.groups[id].members, s.groups[id].members;
       && (forall u :: u in now <==> u in before || u in ids)
       && forall u :: u in now ==> now[u] == if u in before then before[u] else Member
  }

  // ---- accounts ----

  predicate OnlyAccount(t: Tables, s: Tables, u: UserId, a: Account) {
    s == t.(users := t.users[u := a])
  }

  /** Nobody but `u` could administer the site. */
  predicate Alone(t: Tables, u: UserId) {
    forall v :: v in t.users && v != u ==> !(t.users[v].admin && !t.users[v].disabled && !t.users[v].deleted)
  }

  /** Is the update granted? Nobody changes their own rank or disables themselves, and somebody else must be left to administer. */
  predicate UpdateGranted(t: Tables, me: UserId, u: UserId, admin: Option<bool>, disabled: Option<bool>) {
    && u in t.users && !t.users[u].deleted
    && (admin == Some(!t.users[u].admin) ==> u != me && (t.users[u].admin ==> !Alone(t, u)))
    && (disabled == Some(true) ==> u != me && (t.users[u].admin && !t.users[u].disabled ==> !Alone(t, u)))
  }

  predicate DeletionGranted(t: Tables, me: UserId, u: UserId, permanent: bool) {
    && u != me && u in t.users && (t.users[u].deleted ==> permanent)
    && (t.users[u].admin && !t.users[u].disabled && !t.users[u].deleted ==> !Alone(t, u))
  }

  lemma {:induction false} Counting(t: Tables, u: UserId)
    ensures Alone(t, u) <==> EnabledAdmins(t) <= {u}
    ensures u in EnabledAdmins(t) ==> (|EnabledAdmins(t)| > 1 <==> !Alone(t, u))
    ensures u !in EnabledAdmins(t) ==> (|EnabledAdmins(t)| == 0 <==> Alone(t, u))
  {
    var s := EnabledAdmins(t);
    assert Alone(t, u) <==> s <= {u} by {
      if Alone(t, u) {
        forall v | v in s ensures v == u { Membership(t, v); }
      }
      if s <= {u} {
        forall v | v in t.users && v != u ensures !Usable(t.users[v]) { assert v !in s; }
      }
    }
    if u in s {
      assert s == (s - {u}) + {u};
      assert |s| == |s - {u}| + 1;
      assert s <= {u} <==> s - {u} == {};
    } else {
      assert s <= {u} <==> s == {};
    }
  }

  /** What a request leads to. */
  ghost predicate Meets(t: Tables, s: Tables, op: Op) {
    match op
    case CreateUserOp(u, admin) => if u in t.users then s == t else OnlyAccount(t, s, u, Account(admin, false, false))
    case CreateGroupOp(me, ids) =>
      if me in t.users && forall u :: u in ids && u != me ==> u in t.users && !t.users[u].disabled
      then Founds(t, s, me, ids) else s == t
    case DeleteGroupOp(me, id) => if Owns(t, id, me) then s == t.(groups := t.groups - {id}) else s == t
    case SetRoleOp(me, id, u, role) =>
      if Owns(t, id, me) && role != Owner && u != t.groups[id].createdBy && u in t.groups[id].members && t.groups[id].members[u] != Owner
      then Ranks(t, s, id, u, Some(role)) else s == t
    case AddOp(me, id, ids) =>
      if Manages(t, id, me) && forall u :: u in ids ==> u in t.users && !t.users[u].disabled
      then Admits(t, s, id, ids) else s == t
    case RemoveOp(me, id, u) =>
      if (Manages(t, id, me) || me == u) && id in t.groups && u in t.groups[id].members && u != t.groups[id].createdBy
      then Ranks(t, s, id, u, None) else s == t
    case UpdateUserOp(me, u, admin, disabled) =>
      if UpdateGranted(t, me, u, admin, disabled) then
        var a := t.users[u];
        OnlyAccount(t, s, u, Account(if admin.Some? then admin.value else a.admin, if disabled.Some? then disabled.value else a.disabled, false))
      else s == t
    case DeleteUserOp(me, u, permanent, _) =>
      if !DeletionGranted(t, me, u, permanent) then s == t
      else if permanent then Purges(t, s, u)
      else OnlyAccount(t, s, u, Account(false, true, true))
  }

  /** The account is gone, from every group too: its groups with nobody else go, and every other one is handed on. */
  ghost predicate Purges(t: Tables, s: Tables, u: UserId) {
    && s.users == t.users - {u} && s.next == t.next
    && (forall g :: g in s.groups <==> g in t.groups && !(t.groups[g].createdBy == u && t.groups[g].members.Keys == {u}))
    && forall g :: g in s.groups ==>
         && s.groups[g].members.Keys == t.groups[g].members.Keys - {u}
         && (if t.groups[g].createdBy == u then HandedOn(t.groups[g], s.groups[g], u) else s.groups[g].createdBy == t.groups[g].createdBy)
         && forall v :: v in s.groups[g].members && !(t.groups[g].createdBy == u && v == s.groups[g].createdBy) ==>
              s.groups[g].members[v] == t.groups[g].members[v]
  }

  lemma PurgeOutcome(t: Tables, u: UserId, heirs: Heirs)
    requires GroupsOk(t) && HeirsFit(t, u, heirs)
    ensures Purges(t, Purge(t, u, heirs), u)
  {
    PurgeIsExact(t, u, heirs);
    hide GroupsOk, HeirsFit, HandedOn;
  }

  lemma GroupOutcome(t: Tables, op: Op)
    requires GroupsOk(t) && (op.CreateGroupOp? || op.DeleteGroupOp? || op.SetRoleOp? || op.AddOp? || op.RemoveOp?)
    ensures Meets(t, Step(t, op), op)
  {
    match op
    case CreateGroupOp(me, ids) => RosterIs(me, ids, Group(me, map[])); hide Roster, GroupsOk;
    case AddOp(me, id, ids) => if id in t.groups { RosterIs(me, ids, t.groups[id]); } hide WithMembers, GroupsOk;
    case SetRoleOp(me, id, u, role) =>
      hide GroupsOk;
      if id in t.groups { assert t.groups[id := t.groups[id]] == t.groups; }
    case _ => hide GroupsOk;
  }

  lemma AccountOutcome(t: Tables, op: Op)
    requires GroupsOk(t) && Enabled(t, op) && (op.CreateUserOp? || op.UpdateUserOp? || op.DeleteUserOp?)
    ensures Meets(t, Step(t, op), op)
  {
    hide GroupsOk, HeirsFit, Purge, Purges, Alone, EnabledAdmins;
    if !op.CreateUserOp? { Counting(t, op.user); Membership(t, op.user); }
    if op.DeleteUserOp? && op.permanent { PurgeOutcome(t, op.user, op.heirs); }
  }

  lemma Membership(t: Tables, u: UserId)
    ensures u in EnabledAdmins(t) <==> u in t.users && Usable(t.users[u])
  {
  }

  /** Every request leads to that, in every reachable state. */
  lemma OpOutcome(t: Tables, op: Op)
    requires GroupsOk(t) && Enabled(t, op)
    ensures Meets(t, Step(t, op), op)
  {
    hide GroupsOk, Enabled, Meets, Step;
    match op
    case CreateUserOp(_, _) => AccountOutcome(t, op);
    case UpdateUserOp(_, _, _, _) => AccountOutcome(t, op);
    case DeleteUserOp(_, _, _, _) => AccountOutcome(t, op);
    case _ => GroupOutcome(t, op);
  }

  // ---- for good ----

  /** A deleted account is disabled and administers nothing. */
  ghost predicate DeletedUnusable(t: Tables) {
    forall u :: u in t.users && t.users[u].deleted ==> t.users[u].disabled && !t.users[u].admin
  }

  lemma UnusableStep(t: Tables, op: Op)
    requires DeletedUnusable(t)
    ensures DeletedUnusable(Step(t, op))
    ensures forall u :: u in t.users && t.users[u].deleted && u in Step(t, op).users ==> Step(t, op).users[u] == t.users[u]
    ensures forall u :: u in t.users && u !in Step(t, op).users ==> op.DeleteUserOp? && op.user == u && op.permanent
  {
    hide EnabledAdmins;
  }

  predicate PurgesUser(op: Op, u: UserId) {
    op.DeleteUserOp? && op.user == u && op.permanent
  }

  lemma {:induction false} UnusableRun(t: Tables, ops: seq<Op>, u: UserId)
    requires DeletedUnusable(t)
    ensures DeletedUnusable(Run(t, ops))
    ensures u in t.users && t.users[u].deleted && (forall op :: op in ops ==> !PurgesUser(op, u)) ==>
              u in Run(t, ops).users && Run(t, ops).users[u] == t.users[u]
    decreases ops
  {
    hide DeletedUnusable, Step;
    if ops != [] {
      UnusableStep(t, ops[0]);
      UnusableRun(Step(t, ops[0]), ops[1..], u);
      assert ops[0] in ops && forall op :: op in ops[1..] ==> op in ops;
    }
  }

  /** In every run a deleted account is disabled and no administrator, and stays exactly so until it is purged. */
  lemma {:induction false} DeletedForGood(before: seq<Op>, after: seq<Op>, u: UserId)
    requires u in Run(EMPTY, before).users && Run(EMPTY, before).users[u].deleted
    requires forall op :: op in after ==> !PurgesUser(op, u)
    ensures Run(EMPTY, before).users[u] == Account(false, true, true)
    ensures var s := Run(Run(EMPTY, before), after); u in s.users && s.users[u] == Account(false, true, true)
  {
    UnusableRun(EMPTY, before, u);
    UnusableRun(Run(EMPTY, before), after, u);
    hide Run;
  }

  /** Of an account that is not there, no group has a trace, in any run. */
  lemma {:induction false} NoTrace(ops: seq<Op>, u: UserId, g: GroupId)
    requires Possible(EMPTY, ops) && u !in Run(EMPTY, ops).users && g in Run(EMPTY, ops).groups
    ensures u !in Run(EMPTY, ops).groups[g].members && Run(EMPTY, ops).groups[g].createdBy != u
  {
    GroupsInEveryRun(EMPTY, ops);
    hide Run, Possible;
    assert InCharge(Run(EMPTY, ops).groups[g]);
  }
}
