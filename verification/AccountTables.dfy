/** The tables behind accounts and groups, changed in place, and the handlers in front of them. */
module AccountTables {
  import opened Media
  import opened Accounts

  class Db {
    var users: map<UserId, Account>
    var groups: map<GroupId, Group>
    var next: GroupId

    constructor ()
      ensures View() == EMPTY
    {
      users, groups, next := map[], map[], 0;
    }

    ghost function View(): Tables
      reads this
    {
      Tables(users, groups, next)
    }

    // ---- statements ----

    method CountEnabledAdmins() returns (n: nat)
      ensures n == |EnabledAdmins(View())|
    {
      n := 0;
      var rest := users.Keys;
      ghost var found := {};
      while rest != {}
        invariant rest <= users.Keys && n == |found|
        invariant forall u :: u in found <==> u in users && u !in rest && Usable(users[u])
      {
        SomeUser(rest);
        var u :| u in rest;
        if users[u].admin && !users[u].disabled && !users[u].deleted {
          n := n + 1;
          found := found + {u};
        }
        rest := rest - {u};
      }
      forall u ensures u in found <==> u in EnabledAdmins(View()) {}
      assert found == EnabledAdmins(View());
    }

    /** The creator is put in front of the list; repeated ids are skipped. */
    method CreateGroup(createdBy: UserId, ids: seq<UserId>)
      modifies `groups, `next
      ensures View() == old(View()).(groups := old(groups)[old(next) := Group(createdBy, Roster(createdBy, ids))], next := old(next) + 1)
    {
      var members := [createdBy] + ids;
      var seen: set<UserId> := {};
      var rows: map<UserId, Role> := map[];
      for i := 0 to |members|
        invariant seen == set u | u in members[..i]
        invariant rows == map u | u in members[..i] :: if u == createdBy then Owner else Member
      {
        assert members[..i + 1] == members[..i] + [members[i]];
        if members[i] in seen { continue; }
        seen := seen + {members[i]};
        var role := Member;
        if members[i] == createdBy {
          role := Owner;
        }
        rows := rows[members[i] := role];
      }
      assert members[..|members|] == members && rows == Roster(createdBy, ids);
      groups := groups[next := Group(createdBy, rows)];
      next := next + 1;
    }

    /** Insert whoever is not in the group yet. */
    method AddGroupMembers(id: GroupId, ids: seq<UserId>)
      requires id in groups
      modifies `groups
      ensures groups == old(groups)[id := WithMembers(old(groups)[id], ids)]
    {
      var g := groups[id];
      var rows := g.members;
      for i := 0 to |ids|
        invariant rows == WithMembers(g, ids[..i]).members
      {
        assert ids[..i + 1] == ids[..i] + [ids[i]];
        if ids[i] !in rows {
          rows := rows[ids[i] := Member];
        }
      }
      assert ids[..|ids|] == ids;
      groups := groups[id := g.(members := rows)];
    }

    method RemoveGroupMember(id: GroupId, u: UserId)
      requires id in groups
      modifies `groups
      ensures groups == old(groups)[id := WithoutMember(old(groups)[id], u)]
    {
      groups := groups[id := groups[id].(members := groups[id].members - {u})];
    }

    method SetGroupMemberRole(id: GroupId, u: UserId, role: Role)
      requires id in groups
      modifies `groups
      ensures groups == old(groups)[id := WithRole(old(groups)[id], u, role)]
    {
      if u in groups[id].members && groups[id].members[u] != Owner {
        groups := groups[id := groups[id].(members := groups[id].members[u := role])];
      } else {
        assert groups[id := groups[id]] == groups;
      }
    }

    /** The given fields, one statement at a time. */
    method UpdateFields(id: UserId, admin: Option<bool>, disabled: Option<bool>)
      requires id in users
      modifies `users
      ensures users == old(users)[id := Updated(old(users)[id], admin, disabled)]
    {
      assert users[id := users[id]] == users;
      if admin.Some? {
        users := users[id := users[id].(admin := admin.value)];
      }
      if disabled.Some? {
        users := users[id := users[id].(disabled := disabled.value)];
      }
    }

    method AnonymizeUser(id: UserId)
      modifies `users
      ensures View() == Anonymize(old(View()), id)
    {
      if id in users {
        users := users[id := Account(false, true, true)];
      }
    }

    /** The first other member in the line of succession, if there is any. */
    method FindHeir(g: Group, id: UserId) returns (heir: Option<UserId>)
      ensures heir.None? <==> Others(g, id) == {}
      ensures heir.Some? ==> IsHeir(g, id, heir.value)
    {
      heir := None;
      var rest := g.members.Keys - {id};
      while rest != {}
        invariant rest <= Others(g, id)
        invariant heir.None? ==> rest == Others(g, id)
        invariant heir.Some? ==> heir.value in Others(g, id) - rest
        invariant heir.Some? ==> forall v :: v in Others(g, id) - rest ==> Before(g, heir.value, v)
      {
        SomeUser(rest);
        var u :| u in rest;
        ghost var last, done := heir, Others(g, id) - rest;
        if heir.None? || Before(g, u, heir.value) {
          heir := Some(u);
        }
        rest := rest - {u};
        forall v | v in Others(g, id) - rest ensures Before(g, heir.value, v) {
          assert v == u || v in done;
          if last.Some? { InLine(g, u, last.value, v); }
        }
      }
    }

    /** The line of succession is a line. */
    static lemma InLine(g: Group, u: UserId, v: UserId, w: UserId)
      requires u in g.members && v in g.members && w in g.members
      ensures Before(g, u, v) || Before(g, v, u)
      ensures Before(g, u, v) && Before(g, v, w) ==> Before(g, u, w)
    {
    }

    /** The groups that `id` created are closed or handed on one by one; then the account goes, and its rows with it. */
    method PurgeUser(id: UserId) returns (ghost heirs: Heirs)
      modifies `users, `groups
      ensures HeirsFit(old(View()), id, heirs) && View() == Purge(old(View()), id, heirs)
    {
      heirs := HandOn(id);
      ghost var handed := groups;
      Cascade(id);
      PurgeIs(old(View()), id, heirs, handed);
    }

    static lemma PurgeIs(t: Tables, id: UserId, heirs: Heirs, handed: map<GroupId, Group>)
      requires handed.Keys <= t.groups.Keys
      requires forall g :: g in t.groups ==> Settled(t.groups[g], g, id, heirs, handed)
      ensures HeirsFit(t, id, heirs)
      ensures (map g | g in handed :: WithoutMember(handed[g], id)) == Purge(t, id, heirs).groups
    {
      hide IsHeir;
    }

    method HandOn(id: UserId) returns (ghost heirs: Heirs)
      modifies `groups
      ensures groups.Keys <= old(groups).Keys
      ensures forall g :: g in old(groups) ==> Settled(old(groups)[g], g, id, heirs, groups)
    {
      hide IsHeir, Others;
      heirs := map[];
      ghost var was := groups;
      var rest := set g | g in groups && groups[g].createdBy == id;
      while rest != {}
        invariant rest <= groups.Keys <= was.Keys
        invariant forall g :: g in rest ==> was[g].createdBy == id && groups[g] == was[g]
        invariant forall g :: g in was && g !in rest ==> Settled(was[g], g, id, heirs, groups)
      {
        var g :| g in rest;
        var heir := FindHeir(groups[g], id);
        rest := rest - {g};
        if heir.None? {
          groups := groups - {g};
        } else {
          heirs := heirs[g := heir.value];
          var h := groups[g].(createdBy := heir.value);
          groups := groups[g := h.(members := h.members[heir.value := Admin])];
        }
      }
    }

    /** Deleting an account deletes its memberships. */
    method Cascade(id: UserId)
      modifies `users, `groups
      ensures users == old(users) - {id}
      ensures groups == map g | g in old(groups) :: WithoutMember(old(groups)[g], id)
    {
      users := users - {id};
      groups := map g | g in groups :: groups[g].(members := groups[g].members - {id});
    }

    // ---- handlers ----

    method HandleUpdateUser(me: UserId, id: UserId, admin: Option<bool>, disabled: Option<bool>) returns (ok: bool)
      modifies `users
      ensures View() == UpdateUser(old(View()), me, id, admin, disabled) && ok == MayUpdate(old(View()), me, id, admin, disabled)
    {
      hide EnabledAdmins;
      if id !in users || users[id].deleted { return false; }
      var target := users[id];
      if admin.Some? && admin.value != target.admin {
        if id == me { return false; }
        if target.admin {
          var count := CountEnabledAdmins();
          if (!target.disabled && count <= 1) || (target.disabled && count == 0) { return false; }
        }
      }
      if disabled == Some(true) && target.admin && !target.disabled {
        var count := CountEnabledAdmins();
        if count <= 1 { return false; }
      }
      if disabled == Some(true) && id == me { return false; }
      UpdateFields(id, admin, disabled);
      return true;
    }

    method HandleDeleteUser(me: UserId, id: UserId, permanent: bool) returns (ok: bool, ghost heirs: Heirs)
      modifies `users, `groups
      ensures ok == MayDelete(old(View()), me, id, permanent)
      ensures ok && permanent ==> HeirsFit(old(View()), id, heirs)
      ensures View() == DeleteUser(old(View()), me, id, permanent, heirs)
    {
      hide EnabledAdmins, HeirsFit, Purge, Anonymize;
      heirs := map[];
      if id == me || id !in users || (users[id].deleted && !permanent) { return false, heirs; }
      if users[id].admin && !users[id].disabled && !users[id].deleted {
        var admins := CountEnabledAdmins();
        if admins <= 1 { return false, heirs; }
      }
      if permanent {
        heirs := PurgeUser(id);
      } else {
        AnonymizeUser(id);
      }
      return true, heirs;
    }

    method CanManageGroup(g: Group, me: UserId) returns (ok: bool)
      ensures ok == CanManage(View(), g, me)
    {
      if g.createdBy == me || (me in users && users[me].admin) { return true; }
      return me in g.members && g.members[me] == Admin;
    }

    method HandleRemoveGroupMember(me: UserId, id: GroupId, u: UserId) returns (ok: bool)
      modifies `groups
      ensures View() == RemoveMember(old(View()), me, id, u) && ok == MayRemove(old(View()), me, id, u)
    {
      if id !in groups { return false; }
      var g := groups[id];
      var may := CanManageGroup(g, me);
      if u != me && !may { return false; }
      if u == g.createdBy { return false; }
      if u !in g.members { return false; }
      RemoveGroupMember(id, u);
      return true;
    }

    method HandleSetGroupMemberRole(me: UserId, id: GroupId, u: UserId, role: Role) returns (ok: bool)
      modifies `groups
      ensures View() == SetRole(old(View()), me, id, u, role) && ok == MaySetRole(old(View()), me, id, u, role)
    {
      if id !in groups { return false; }
      if groups[id].createdBy != me && !(me in users && users[me].admin) { return false; }
      if u == groups[id].createdBy || role == Owner { return false; }
      SetGroupMemberRole(id, u, role);
      return true;
    }

    method HandleCreateGroup(me: UserId, ids: seq<UserId>) returns (ok: bool)
      requires me in users
      modifies `groups, `next
      ensures View() == Accounts.CreateGroup(old(View()), me, ids) && ok == MayCreate(old(View()), me, ids)
    {
      for i := 0 to |ids|
        invariant forall j :: 0 <= j < i && ids[j] != me ==> Available(View(), ids[j])
      {
        if ids[i] == me { continue; }
        if ids[i] !in users || users[ids[i]].disabled {
          assert ids[i] in ids;
          return false;
        }
      }
      CreateGroup(me, ids);
      return true;
    }

    method HandleAddGroupMembers(me: UserId, id: GroupId, ids: seq<UserId>) returns (ok: bool)
      modifies `groups
      ensures View() == AddMembers(old(View()), me, id, ids) && ok == MayAdd(old(View()), me, id, ids)
    {
      if id !in groups { return false; }
      var may := CanManageGroup(groups[id], me);
      if !may { return false; }
      for i := 0 to |ids|
        invariant forall j :: 0 <= j < i ==> Available(View(), ids[j])
      {
        if ids[i] !in users || users[ids[i]].disabled {
          assert ids[i] in ids;
          return false;
        }
      }
      AddGroupMembers(id, ids);
      return true;
    }
  }

  /** What the purge loop has made of a group it has dealt with, or left alone. */
  ghost predicate Settled(was: Group, g: GroupId, id: UserId, heirs: Heirs, groups: map<GroupId, Group>) {
    if was.createdBy != id then g in groups && groups[g] == was
    else if Others(was, id) == {} then g !in groups
    else g in heirs && IsHeir(was, id, heirs[g]) && g in groups && groups[g] == Group(heirs[g], was.members[heirs[g] := Admin])
  }
}
