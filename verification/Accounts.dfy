/**
 Accounts and chat groups as tables, with the requests that change them. An operation is one request
 including the guards of its handler; account updates and deletions are serialized by a lock.
 */
module Accounts {
  import opened Media

  type GroupId = nat

  datatype Role = Owner | Admin | Member

  datatype Group = Group(createdBy: UserId, members: map<UserId, Role>)

  datatype Account = Account(admin: bool, disabled: bool, deleted: bool)

  datatype Tables = Tables(users: map<UserId, Account>, groups: map<GroupId, Group>, next: GroupId)

  const EMPTY := Tables(map[], map[], 0)

  predicate Usable(a: Account) {
    a.admin && !a.disabled && !a.deleted
  }

  /** The administrators who can sign in. */
  function EnabledAdmins(t: Tables): set<UserId> {
    set u | u in t.users && Usable(t.users[u])
  }

  predicate Available(t: Tables, u: UserId) {
    u in t.users && !t.users[u].disabled
  }

  // ---- groups ----

  /** The creator comes first, as owner; every further id is a member, once. */
  function Roster(createdBy: UserId, ids: seq<UserId>): map<UserId, Role> {
    (map u | u in ids :: Member)[createdBy := Owner]
  }

  predicate MayCreate(t: Tables, me: UserId, ids: seq<UserId>) {
    me in t.users && forall u :: u in ids && u != me ==> Available(t, u)
  }

  function CreateGroup(t: Tables, me: UserId, ids: seq<UserId>): Tables {
    if MayCreate(t, me, ids)
    then t.(groups := t.groups[t.next := Group(me, Roster(me, ids))], next := t.next + 1)
    else t
  }

  predicate SiteAdmin(t: Tables, me: UserId) {
    me in t.users && t.users[me].admin
  }

  predicate CanManage(t: Tables, g: Group, me: UserId) {
    g.createdBy == me || SiteAdmin(t, me) || (me in g.members && g.members[me] == Admin)
  }

  function DeleteGroup(t: Tables, me: UserId, id: GroupId): Tables {
    if id in t.groups && (t.groups[id].createdBy == me || SiteAdmin(t, me)) then t.(groups := t.groups - {id}) else t
  }

  /** The role of a member who is not an owner. */
  function WithRole(g: Group, u: UserId, role: Role): Group {
    if u in g.members && g.members[u] != Owner then g.(members := g.members[u := role]) else g
  }

  predicate MaySetRole(t: Tables, me: UserId, id: GroupId, u: UserId, role: Role) {
    id in t.groups && (t.groups[id].createdBy == me || SiteAdmin(t, me)) && u != t.groups[id].createdBy && role != Owner
  }

  function SetRole(t: Tables, me: UserId, id: GroupId, u: UserId, role: Role): Tables {
    if MaySetRole(t, me, id, u, role)
    then t.(groups := t.groups[id := WithRole(t.groups[id], u, role)])
    else t
  }

  /** Those of `ids` who are not in the group yet. */
  function WithMembers(g: Group, ids: seq<UserId>): Group {
    g.(members := map u | u in g.members.Keys + (set v | v in ids) :: if u in g.members then g.members[u] else Member)
  }

  predicate MayAdd(t: Tables, me: UserId, id: GroupId, ids: seq<UserId>) {
    id in t.groups && CanManage(t, t.groups[id], me) && forall u :: u in ids ==> Available(t, u)
  }

  function AddMembers(t: Tables, me: UserId, id: GroupId, ids: seq<UserId>): Tables {
    if MayAdd(t, me, id, ids)
    then t.(groups := t.groups[id := WithMembers(t.groups[id], ids)])
    else t
  }

  function WithoutMember(g: Group, u: UserId): Group {
    g.(members := g.members - {u})
  }

  predicate MayRemove(t: Tables, me: UserId, id: GroupId, u: UserId) {
    id in t.groups && (u == me || CanManage(t, t.groups[id], me)) && u != t.groups[id].createdBy && u in t.groups[id].members
  }

  function RemoveMember(t: Tables, me: UserId, id: GroupId, u: UserId): Tables {
    if MayRemove(t, me, id, u)
    then t.(groups := t.groups[id := WithoutMember(t.groups[id], u)])
    else t
  }

  // ---- accounts ----

  function CreateUser(t: Tables, u: UserId, admin: bool): Tables {
    if u in t.users then t else t.(users := t.users[u := Account(admin, false, false)])
  }

  predicate MayUpdate(t: Tables, me: UserId, id: UserId, admin: Option<bool>, disabled: Option<bool>) {
    && id in t.users && !t.users[id].deleted
    && var a := t.users[id]; var count := |EnabledAdmins(t)|;
       && (admin.Some? && admin.value != a.admin ==>
             && id != me
             && (a.admin ==> !((!a.disabled && count <= 1) || (a.disabled && count == 0))))
       && (disabled == Some(true) ==> (a.admin && !a.disabled ==> count > 1) && id != me)
  }

  function Updated(a: Account, admin: Option<bool>, disabled: Option<bool>): Account {
    a.(admin := if admin.Some? then admin.value else a.admin, disabled := if disabled.Some? then disabled.value else a.disabled)
  }

  function UpdateUser(t: Tables, me: UserId, id: UserId, admin: Option<bool>, disabled: Option<bool>): Tables {
    if MayUpdate(t, me, id, admin, disabled) then t.(users := t.users[id := Updated(t.users[id], admin, disabled)]) else t
  }

  predicate MayDelete(t: Tables, me: UserId, id: UserId, permanent: bool) {
    && id != me && id in t.users && (t.users[id].deleted ==> permanent)
    && (Usable(t.users[id]) ==> |EnabledAdmins(t)| > 1)
  }

  /** The account stays as a nameless placeholder. */
  function Anonymize(t: Tables, id: UserId): Tables {
    if id in t.users then t.(users := t.users[id := Account(false, true, true)]) else t
  }

  function Others(g: Group, id: UserId): set<UserId> {
    g.members.Keys - {id}
  }

  /** Does `u` come before `v` in the line of succession: administrators first, then by id? */
  predicate Before(g: Group, u: UserId, v: UserId)
    requires u in g.members && v in g.members
  {
    (g.members[u] == Admin && g.members[v] != Admin)
    || ((g.members[u] == Admin <==> g.members[v] == Admin) && u <= v)
  }

  ghost predicate IsHeir(g: Group, id: UserId, heir: UserId) {
    heir in Others(g, id) && forall v :: v in Others(g, id) ==> Before(g, heir, v)
  }

  /** What becomes of a group when `id` is purged, given the heir. */
  function Inherited(g: Group, id: UserId, heir: UserId): Group {
    if g.createdBy == id then Group(heir, g.members[heir := Admin] - {id}) else WithoutMember(g, id)
  }

  predicate Doomed(g: Group, id: UserId) {
    g.createdBy == id && Others(g, id) == {}
  }

  /** The heir of each group that `id` created and others are in. */
  type Heirs = map<GroupId, UserId>

  ghost predicate HeirsFit(t: Tables, id: UserId, heirs: Heirs) {
    forall g :: g in t.groups && t.groups[g].createdBy == id && !Doomed(t.groups[g], id) ==>
      g in heirs && IsHeir(t.groups[g], id, heirs[g])
  }

  function HeirOf(heirs: Heirs, g: GroupId): UserId {
    if g in heirs then heirs[g] else 0
  }

  /** Groups with nobody else go, the others are handed on, and all that refers to the account goes with it. */
  function Purge(t: Tables, id: UserId, heirs: Heirs): Tables {
    t.(users := t.users - {id},
       groups := map g | g in t.groups && !Doomed(t.groups[g], id) :: Inherited(t.groups[g], id, HeirOf(heirs, g)))
  }

  function DeleteUser(t: Tables, me: UserId, id: UserId, permanent: bool, heirs: Heirs): Tables {
    if !MayDelete(t, me, id, permanent) then t
    else if permanent then Purge(t, id, heirs)
    else Anonymize(t, id)
  }

  // ---- requests ----

  datatype Op =
    | CreateUserOp(user: UserId, admin: bool)
    | CreateGroupOp(me: UserId, ids: seq<UserId>)
    | DeleteGroupOp(me: UserId, id: GroupId)
    | SetRoleOp(me: UserId, id: GroupId, user: UserId, role: Role)
    | AddOp(me: UserId, id: GroupId, ids: seq<UserId>)
    | RemoveOp(me: UserId, id: GroupId, user: UserId)
    | UpdateUserOp(me: UserId, user: UserId, makeAdmin: Option<bool>, disable: Option<bool>)
    | DeleteUserOp(me: UserId, user: UserId, permanent: bool, heirs: Heirs)

  ghost predicate Enabled(t: Tables, op: Op) {
    op.DeleteUserOp? && op.permanent ==> HeirsFit(t, op.user, op.heirs)
  }

  function Step(t: Tables, op: Op): Tables {
    match op
    case CreateUserOp(u, admin) => CreateUser(t, u, admin)
    case CreateGroupOp(me, ids) => CreateGroup(t, me, ids)
    case DeleteGroupOp(me, id) => DeleteGroup(t, me, id)
    case SetRoleOp(me, id, u, role) => SetRole(t, me, id, u, role)
    case AddOp(me, id, ids) => AddMembers(t, me, id, ids)
    case RemoveOp(me, id, u) => RemoveMember(t, me, id, u)
    case UpdateUserOp(me, u, admin, disabled) => UpdateUser(t, me, u, admin, disabled)
    case DeleteUserOp(me, u, permanent, heirs) => DeleteUser(t, me, u, permanent, heirs)
  }

  ghost predicate Possible(t: Tables, ops: seq<Op>)
    decreases ops
  {
    ops == [] || (Enabled(t, ops[0]) && Possible(Step(t, ops[0]), ops[1..]))
  }

  function Run(t: Tables, ops: seq<Op>): Tables
    decreases ops
  {
    if ops == [] then t else Run(Step(t, ops[0]), ops[1..])
  }

  /** A new group has its creator as the one owner and everybody listed as a member; additions change nobody's role. */
  lemma RosterIs(me: UserId, ids: seq<UserId>, g: Group)
    ensures var roster := Roster(me, ids);
            && (forall u :: u in roster <==> u == me || u in ids)
            && (forall u :: u in roster ==> roster[u] == if u == me then Owner else Member)
    ensures var m := WithMembers(g, ids).members;
            && (forall u :: u in m <==> u in g.members || u in ids)
            && (forall u :: u in m ==> m[u] == if u in g.members then g.members[u] else Member)
  {
  }

  // ---- every group has its creator in charge ----

  /** The creator is a member, as owner or administrator, and nobody else is an owner. */
  predicate InCharge(g: Group) {
    && g.createdBy in g.members && g.members[g.createdBy] != Member
    && forall u :: u in g.members && g.members[u] == Owner ==> u == g.createdBy
  }

  /** Rows refer to accounts that exist, and group ids are new. */
  ghost predicate References(t: Tables) {
    forall g :: g in t.groups ==> g < t.next && forall u :: u in t.groups[g].members ==> u in t.users
  }

  ghost predicate GroupsOk(t: Tables) {
    References(t) && forall g :: g in t.groups ==> InCharge(t.groups[g])
  }

  lemma GroupStep(t: Tables, op: Op)
    requires GroupsOk(t) && Enabled(t, op)
    ensures GroupsOk(Step(t, op))
  {
    match op
    case CreateUserOp(_, _) =>
    case CreateGroupOp(me, ids) => CreateKeeps(t, me, ids);
    case DeleteGroupOp(_, _) =>
    case SetRoleOp(me, id, u, role) => SetRoleKeeps(t, me, id, u, role);
    case AddOp(me, id, ids) => AddKeeps(t, me, id, ids);
    case RemoveOp(me, id, u) => RemoveKeeps(t, me, id, u);
    case UpdateUserOp(_, _, _, _) => hide MayUpdate;
    case DeleteUserOp(me, id, permanent, heirs) => if permanent { PurgeKeeps(t, id, heirs); }
  }

  lemma CreateKeeps(t: Tables, me: UserId, ids: seq<UserId>)
    requires GroupsOk(t)
    ensures GroupsOk(CreateGroup(t, me, ids))
  {
  }

  lemma SetRoleKeeps(t: Tables, me: UserId, id: GroupId, u: UserId, role: Role)
    requires GroupsOk(t)
    ensures GroupsOk(SetRole(t, me, id, u, role))
  {
  }

  lemma AddKeeps(t: Tables, me: UserId, id: GroupId, ids: seq<UserId>)
    requires GroupsOk(t)
    ensures GroupsOk(AddMembers(t, me, id, ids))
  {
  }

  lemma RemoveKeeps(t: Tables, me: UserId, id: GroupId, u: UserId)
    requires GroupsOk(t)
    ensures GroupsOk(RemoveMember(t, me, id, u))
  {
  }

  lemma PurgeKeeps(t: Tables, id: UserId, heirs: Heirs)
    requires GroupsOk(t) && HeirsFit(t, id, heirs)
    ensures GroupsOk(Purge(t, id, heirs))
  {
    var s := Purge(t, id, heirs);
    forall g | g in s.groups ensures InCharge(s.groups[g]) && forall u :: u in s.groups[g].members ==> u in s.users {
      assert InCharge(t.groups[g]);
    }
  }

  lemma {:induction false} GroupsInEveryRun(t: Tables, ops: seq<Op>)
    requires GroupsOk(t) && Possible(t, ops)
    ensures GroupsOk(Run(t, ops))
    decreases ops
  {
    hide GroupsOk, Step, Enabled;
    if ops != [] {
      GroupStep(t, ops[0]);
      GroupsInEveryRun(Step(t, ops[0]), ops[1..]);
    }
  }

  /** Whatever the requests, every group's creator is one of its members and in charge of it. */
  lemma {:induction false} CreatorInCharge(ops: seq<Op>, g: GroupId)
    requires Possible(EMPTY, ops) && g in Run(EMPTY, ops).groups
    ensures InCharge(Run(EMPTY, ops).groups[g])
  {
    GroupsInEveryRun(EMPTY, ops);
    hide Run, Possible, InCharge;
  }

  /** A purge deletes exactly the account's groups nobody else is in, and hands on every other one. */
  lemma PurgeIsExact(t: Tables, id: UserId, heirs: Heirs)
    requires GroupsOk(t) && HeirsFit(t, id, heirs)
    ensures var s := Purge(t, id, heirs);
            && (forall g :: g in t.groups ==>
                  (g !in s.groups <==> t.groups[g].createdBy == id && t.groups[g].members.Keys == {id}))
            && (forall g :: g in s.groups ==> g in t.groups && s.groups[g].members.Keys == t.groups[g].members.Keys - {id})
            && (forall g :: g in s.groups && t.groups[g].createdBy != id ==> s.groups[g].createdBy == t.groups[g].createdBy)
            && (forall g :: g in s.groups && t.groups[g].createdBy == id ==> HandedOn(t.groups[g], s.groups[g], id))
  {
    var s := Purge(t, id, heirs);
    forall g | g in t.groups ensures g !in s.groups <==> t.groups[g].createdBy == id && t.groups[g].members.Keys == {id} {
      assert InCharge(t.groups[g]);
    }
    forall g | g in s.groups
      ensures s.groups[g].members.Keys == t.groups[g].members.Keys - {id}
      ensures t.groups[g].createdBy == id ==> HandedOn(t.groups[g], s.groups[g], id)
    {
      if t.groups[g].createdBy == id { HandOver(t.groups[g], id, heirs[g]); }
    }
  }

  /** The new creator was another member, an administrator if there was one, and is one now. */
  ghost predicate HandedOn(g: Group, h: Group, id: UserId) {
    && h.createdBy in Others(g, id) && h.createdBy in h.members && h.members[h.createdBy] == Admin
    && ((exists v :: v in Others(g, id) && g.members[v] == Admin) ==> g.members[h.createdBy] == Admin)
  }

  lemma HandOver(g: Group, id: UserId, heir: UserId)
    requires g.createdBy == id && IsHeir(g, id, heir)
    ensures HandedOn(g, Inherited(g, id, heir), id)
    ensures Inherited(g, id, heir).members.Keys == g.members.Keys - {id}
  {
    if v :| v in Others(g, id) && g.members[v] == Admin {
      assert Before(g, heir, v);
    }
  }

  /** There is always exactly one heir to choose. */
  lemma {:induction false} HeirExists(g: Group, id: UserId)
    requires Others(g, id) != {}
    ensures exists heir :: IsHeir(g, id, heir)
    ensures forall u, v :: IsHeir(g, id, u) && IsHeir(g, id, v) ==> u == v
  {
    var heir := First(g, Others(g, id));
    assert IsHeir(g, id, heir);
    forall u, v | IsHeir(g, id, u) && IsHeir(g, id, v) ensures u == v {
      assert Before(g, u, v) && Before(g, v, u);
    }
  }

  lemma First(g: Group, s: set<UserId>) returns (u: UserId)
    requires s != {} && s <= g.members.Keys
    ensures u in s && forall v :: v in s ==> Before(g, u, v)
    decreases s
  {
    SomeUser(s);
    var x :| x in s;
    u := x;
    if s - {x} != {} {
      var w := First(g, s - {x});
      if Before(g, w, x) { u := w; }
    }
    forall v | v in s ensures Before(g, u, v) {
      assert v != x ==> v in s - {x};
    }
  }

  // ---- a removal whose guard is out of date ----

  /** The statement behind a removal, without the guard of the handler. */
  function BareRemoval(t: Tables, id: GroupId, u: UserId): Tables {
    if id in t.groups then t.(groups := t.groups[id := WithoutMember(t.groups[id], u)]) else t
  }

  /** Directly after the guard it is the removal. */
  lemma PromptRemoval(t: Tables, me: UserId, id: GroupId, u: UserId)
    requires MayRemove(t, me, id, u)
    ensures BareRemoval(t, id, u) == RemoveMember(t, me, id, u)
  {
  }

  /**
   The guard is read first. With any run of other requests between the guard and the statement, every
   group's creator stays in charge if and only if the member removed is not by then the creator.
   */
  lemma {:induction false} LateRemoval(t: Tables, me: UserId, id: GroupId, u: UserId, ops: seq<Op>)
    requires GroupsOk(t) && MayRemove(t, me, id, u) && Possible(t, ops)
    ensures var s := Run(t, ops); GroupsOk(BareRemoval(s, id, u)) <==> !(id in s.groups && s.groups[id].createdBy == u)
  {
    GroupsInEveryRun(t, ops);
    hide Run, Possible, MayRemove;
    var s := Run(t, ops);
    if id in s.groups && s.groups[id].createdBy == u {
      assert id in BareRemoval(s, id, u).groups && !InCharge(BareRemoval(s, id, u).groups[id]);
    }
  }

  lemma {:induction false} OneMore(t: Tables, ops: seq<Op>, op: Op)
    requires Possible(t, ops) && Enabled(Run(t, ops), op)
    ensures Possible(t, ops + [op]) && Run(t, ops + [op]) == Step(Run(t, ops), op)
    decreases ops
  {
    hide Enabled, Step;
    if ops == [] {
      assert [op][1..] == [];
    } else {
      OneMore(Step(t, ops[0]), ops[1..], op);
      assert (ops + [op])[1..] == ops[1..] + [op];
    }
  }

  /** 1 administers; 2 has made a group with 3 in it. */
  lemma SmallGroup() returns (ops: seq<Op>)
    ensures var t := Run(EMPTY, ops);
            && Possible(EMPTY, ops) && t.users == map[1 := Account(true, false, false), 2 := Account(false, false, false), 3 := Account(false, false, false)]
            && t.groups == map[0 := Group(2, Roster(2, [3]))]
  {
    var a, b, c, d := CreateUserOp(1, true), CreateUserOp(2, false), CreateUserOp(3, false), CreateGroupOp(2, [3]);
    assert Possible(EMPTY, []) && Run(EMPTY, []) == EMPTY && [] + [a] == [a];
    hide Run, Possible, Roster;
    OneMore(EMPTY, [], a);
    OneMore(EMPTY, [a], b);
    OneMore(EMPTY, [a] + [b], c);
    OneMore(EMPTY, [a] + [b] + [c], d);
    ops := [a] + [b] + [c] + [d];
  }

  /**
   A run: 3 is about to leave the group, 2 is purged meanwhile and the group handed to 3, and 3's departure
   leaves a group whose creator is not in it.
   */
  lemma LateRemovalRun() returns (ops: seq<Op>)
    ensures Possible(EMPTY, ops) && MayRemove(Run(EMPTY, ops), 3, 0, 3)
    ensures var purge := DeleteUserOp(1, 2, true, map[0 := 3]); var s := Step(Run(EMPTY, ops), purge);
            && Possible(EMPTY, ops + [purge]) && 0 in s.groups && s.groups[0].createdBy == 3
            && !InCharge(BareRemoval(s, 0, 3).groups[0])
  {
    ops := SmallGroup();
    var t, heirs: Heirs := Run(EMPTY, ops), map[0 := 3];
    RosterIs(2, [3], t.groups[0]);
    GroupsInEveryRun(EMPTY, ops);
    assert GroupsOk(t) by { hide *; }
    hide Run, Possible, Roster, GroupsOk;
    assert Others(t.groups[0], 2) == {3};
    assert HeirsFit(t, 2, heirs);
    PurgeIsExact(t, 2, heirs);
    OneMore(EMPTY, ops, DeleteUserOp(1, 2, true, heirs));
    hide Purge, HeirsFit;
  }

  // ---- somebody can always administer ----

  lemma AdminsAfter(t: Tables, s: Tables, id: UserId)
    requires forall u :: u != id ==> (u in s.users <==> u in t.users) && (u in t.users ==> s.users[u] == t.users[u])
    ensures EnabledAdmins(t) - {id} <= EnabledAdmins(s)
  {
  }

  lemma OneLeft(s: set<UserId>, id: UserId)
    requires |s| > 1
    ensures s - {id} != {}
  {
    if s - {id} == {} {
      assert s <= {id};
      SubsetSize(s, {id});
    }
  }

  lemma SubsetSize(a: set<UserId>, b: set<UserId>)
    requires a <= b
    ensures |a| <= |b|
  {
    if a != {} {
      SomeUser(a);
      var x :| x in a;
      SubsetSize(a - {x}, b - {x});
    }
  }

  /** No request takes the last enabled administrator away. */
  lemma AdminStep(t: Tables, op: Op)
    requires EnabledAdmins(t) != {}
    ensures EnabledAdmins(Step(t, op)) != {}
  {
    var s := Step(t, op);
    match op
    case UpdateUserOp(me, id, admin, disabled) =>
      if MayUpdate(t, me, id, admin, disabled) {
        AdminsAfter(t, s, id);
        if Usable(t.users[id]) && !Usable(s.users[id]) { OneLeft(EnabledAdmins(t), id); }
        else if Usable(t.users[id]) { assert id in EnabledAdmins(s); }
        else { assert id !in EnabledAdmins(t); }
      }
    case DeleteUserOp(me, id, permanent, heirs) =>
      if MayDelete(t, me, id, permanent) {
        AdminsAfter(t, s, id);
        if Usable(t.users[id]) { OneLeft(EnabledAdmins(t), id); } else { assert id !in EnabledAdmins(t); }
      }
    case CreateUserOp(u, _) =>
      AdminsAfter(t, s, u);
      assert u in t.users ==> s == t;
      assert u !in t.users ==> u !in EnabledAdmins(t);
    case _ => assert s.users == t.users;
  }

  /** Once there is an enabled administrator, there always is one. */
  lemma {:induction false} NeverWithoutAdmin(t: Tables, ops: seq<Op>)
    requires EnabledAdmins(t) != {}
    ensures EnabledAdmins(Run(t, ops)) != {}
    decreases ops
  {
    hide EnabledAdmins, Step;
    if ops != [] {
      AdminStep(t, ops[0]);
      NeverWithoutAdmin(Step(t, ops[0]), ops[1..]);
    }
  }
}
