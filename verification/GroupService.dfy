/**
 The group service and its binding service as objects over the shared database and broker. log lists
 the effects in the order in which they happen; each method is proved to append exactly the list that
 the specification gives for it.
 */
module GroupServices {
  import opened Wrappers
  import opened Groups
  import opened GroupCoherence

  /** BindUserToGroup reports an error if any of its calls failed. */
  predicate BindSucceeds(devices: seq<Id>, f: BindFaults) {
    !f.list && (devices == [] || (!f.channel && forall d :: d in devices ==> d !in f.declare && d !in f.bind))
  }

  class GroupService {
    ghost const start: World
    var world: World
    ghost var log: seq<Effect>

    ghost predicate Valid()
      reads this
    {
      world == PerformAll(start, log)
    }

    constructor (w: World)
      ensures Valid() && start == w && log == []
    {
      start, world, log := w, w, [];
    }

    /** One database write or broker call that takes effect. */
    method Do(e: Effect)
      requires Valid()
      modifies this
      ensures Valid() && log == old(log) + [e] && world == Perform(old(world), e)
      ensures BrokerOnly(e) ==> SameTables(old(world), world)
    {
      assert (log + [e])[..|log|] == log;
      world := Perform(world, e);
      log := log + [e];
    }

    // ---- The binding service

    method BindUserToGroup(group: Id, user: Id, f: BindFaults) returns (ok: bool)
      requires Valid()
      modifies this
      ensures Valid() && log == old(log) + Groups.BindUserToGroup(old(world), group, user, f)
      ensures SameTables(old(world), world)
      ensures ok <==> BindSucceeds(Devices(world, user), f)
    {
      hide PerformAll, Perform, Valid;
      var devices := Devices(world, user);
      if f.list {
        return false;
      }
      if |devices| == 0 {
        return true;
      }
      if f.channel {
        return false;
      }
      var errs := 0;
      for i := 0 to |devices|
        invariant Valid() && log == old(log) + BindDevices(user, group, devices[..i], f)
        invariant SameTables(old(world), world)
        invariant errs == 0 <==> forall k :: 0 <= k < i ==> devices[k] !in f.declare && devices[k] !in f.bind
        invariant 0 <= errs
      {
        var q := Queue(user, devices[i]);
        assert devices[..i + 1][..i] == devices[..i];
        if q.device in f.declare {
          errs := errs + 1;
          continue;
        }
        Do(DeclareQueue(q));
        if q.device in f.bind {
          errs := errs + 1;
          continue;
        }
        Do(Effect.BindToGroup(q, group));
      }
      assert devices[..|devices|] == devices;
      return errs == 0;
    }

    method UnbindDevicesOf(group: Id, user: Id, devices: seq<Id>, fails: set<Id>) returns (errs: nat)
      requires Valid()
      modifies this
      ensures Valid() && log == old(log) + UnbindDevices(user, group, devices, fails)
      ensures SameTables(old(world), world)
      ensures errs == 0 <==> forall d :: d in devices ==> d !in fails
    {
      hide PerformAll, Perform, Valid;
      errs := 0;
      for i := 0 to |devices|
        invariant Valid() && log == old(log) + UnbindDevices(user, group, devices[..i], fails)
        invariant SameTables(old(world), world)
        invariant errs == 0 <==> forall k :: 0 <= k < i ==> devices[k] !in fails
      {
        assert devices[..i + 1][..i] == devices[..i];
        if devices[i] in fails {
          errs := errs + 1;
        } else {
          Do(UnbindFromGroup(Queue(user, devices[i]), group));
        }
      }
      assert devices[..|devices|] == devices;
    }

    method UnbindUserFromGroup(group: Id, user: Id, f: UnbindFaults) returns (ok: bool)
      requires Valid()
      modifies this
      ensures Valid() && log == old(log) + Groups.UnbindUserFromGroup(old(world), group, user, f)
      ensures SameTables(old(world), world)
    {
      if f.list {
        return false;
      }
      var devices := Devices(world, user);
      if |devices| == 0 {
        return true;
      }
      if f.channel {
        return false;
      }
      var errs := UnbindDevicesOf(group, user, devices, f.unbind);
      return errs == 0;
    }

    /** Reads the member list from the database, so it must run before the rows are deleted. */
    method UnbindAllFromGroup(group: Id, f: UnbindAllFaults) returns (ok: bool)
      requires Valid()
      modifies this
      ensures Valid() && log == old(log) + Groups.UnbindAllFromGroup(old(world), group, f)
      ensures SameTables(old(world), world)
    {
      hide PerformAll, Perform, Valid;
      if f.group || group !in world.groups {
        return false;
      }
      var members := Members(world.rows, group);
      if |members| == 0 {
        return true;
      }
      if f.channel {
        return false;
      }
      ok := true;
      UnbindNone(world, group, members, f);
      hide UnbindMembers, Groups.UnbindMember, Members;
      for i := 0 to |members|
        invariant Valid() && log == old(log) + UnbindMembers(old(world), group, members[..i], f)
        invariant SameTables(old(world), world)
      {
        UnbindNext(old(world), group, members, i, f);
        var done := UnbindMember(old(world), group, members[i], f);
        ok := ok && done;
      }
      assert members[..|members|] == members;
    }

    method UnbindMember(ghost before: World, group: Id, user: Id, f: UnbindAllFaults) returns (ok: bool)
      requires Valid() && SameTables(before, world)
      modifies this
      ensures Valid() && log == old(log) + Groups.UnbindMember(before, group, user, f)
      ensures SameTables(before, world)
    {
      hide PerformAll, Perform, Valid, UnbindDevices;
      if user in f.list {
        return false;
      }
      var devices := Devices(world, user);
      var errs := UnbindDevicesOf(group, user, devices, FailingDevices(user, devices, f.unbind));
      return errs == 0;
    }

    method ProvisionDeviceQueue(q: Queue, f: ProvisionFaults) returns (ok: bool)
      requires Valid()
      modifies this
      ensures Valid() && log == old(log) + Groups.ProvisionDeviceQueue(old(world), q, f)
      ensures SameTables(old(world), world)
      ensures ok <==> ProvisionSucceeds(old(world), q, f)
    {
      hide PerformAll, Perform, Valid;
      if f.channel || f.declare {
        return false;
      }
      Do(DeclareQueue(q));
      if f.bindUser {
        return false;
      }
      Do(Effect.BindToUser(q));
      if f.list {
        return false;
      }
      var groups := GroupsOf(world, world.rows, q.user);
      SameGroupsOf(old(world), world, world.rows, q.user);
      hide GroupsOf, BindGroups;
      var errs := BindDeviceToGroups(q, groups, f.bind);
      if errs > 0 {
        return false;
      }
      Do(Provisioned(q));
      return true;
    }

    /** The loop of bindDeviceToAllGroups. */
    method BindDeviceToGroups(q: Queue, groups: seq<Id>, fails: set<Id>) returns (errs: nat)
      requires Valid()
      modifies this
      ensures Valid() && log == old(log) + BindGroups(q, groups, fails)
      ensures SameTables(old(world), world)
      ensures errs == 0 <==> forall g :: g in groups ==> g !in fails
    {
      hide PerformAll, Perform, Valid;
      errs := 0;
      for i := 0 to |groups|
        invariant Valid() && log == old(log) + BindGroups(q, groups[..i], fails)
        invariant SameTables(old(world), world)
        invariant errs == 0 <==> forall k :: 0 <= k < i ==> groups[k] !in fails
      {
        assert groups[..i + 1][..i] == groups[..i];
        if groups[i] in fails {
          errs := errs + 1;
        } else {
          Do(Effect.BindToGroup(q, groups[i]));
        }
      }
      assert groups[..|groups|] == groups;
    }

    // ---- The group service

    method Enrol(group: Id, actor: Id, user: Id, f: BindFaults)
      requires Valid()
      modifies this
      ensures Valid() && log == old(log) + Groups.Enrol(old(world), group, actor, user, f)
      ensures world.devices == old(world.devices) && world.groups == old(world.groups)
    {
      Do(InsertRow(Row(group, user)));
      var _ := BindUserToGroup(group, user, f);
      Do(Announce(group, Joined, actor, user));
    }

    method TryEnrol(ghost before: World, group: Id, owner: Id, a: Attempt)
      requires Valid() && world.devices == before.devices
      modifies this
      ensures Valid() && log == old(log) + Groups.TryEnrol(before, group, owner, a)
      ensures world.devices == before.devices
    {
      hide PerformAll, Perform, Valid;
      if a.user == None || !a.known || !a.rowOk {
        return;
      }
      SameDevicesEnrol(before, world, group, owner, a.user.value, a.faults);
      hide Groups.Enrol;
      Enrol(group, owner, a.user.value, a.faults);
    }

    method EnrolMembers(ghost before: World, group: Id, owner: Id, attempts: seq<Attempt>)
      requires Valid() && world.devices == before.devices
      modifies this
      ensures Valid() && log == old(log) + EnrolAll(before, group, owner, attempts)
    {
      hide PerformAll, Perform, Valid, Groups.TryEnrol;
      assert old(log) + EnrolAll(before, group, owner, attempts[..0]) == old(log);
      hide EnrolAll;
      for i := 0 to |attempts|
        invariant Valid() && log == old(log) + EnrolAll(before, group, owner, attempts[..i])
        invariant world.devices == before.devices
      {
        EnrolOneMore(before, group, owner, attempts, i);
        TryEnrol(before, group, owner, attempts[i]);
        assert log == (old(log) + EnrolAll(before, group, owner, attempts[..i]))
                      + Groups.TryEnrol(before, group, owner, attempts[i]);
      }
      assert attempts[..|attempts|] == attempts;
    }

    /** The group row and, if its insert succeeds, the owner's row. */
    method StartGroup(group: Id, owner: Id, ownerOk: bool)
      requires Valid()
      modifies this
      ensures Valid() && world.devices == old(world.devices)
      ensures log == old(log) + (if ownerOk then [InsertGroup(group, owner), InsertRow(Row(group, owner))]
                                 else [InsertGroup(group, owner)])
    {
      Do(InsertGroup(group, owner));
      if ownerOk {
        Do(InsertRow(Row(group, owner)));
      }
    }

    method CreateGroup(name: string, group: Id, owner: Id, groupOk: bool, ownerOk: bool, ownerFaults: BindFaults,
                       attempts: seq<Attempt>) returns (ok: bool)
      requires Valid()
      modifies this
      ensures Valid()
      ensures log == old(log) + Effects(old(world), Op.CreateGroup(name, group, owner, groupOk, ownerOk, ownerFaults, attempts))
      ensures ok <==> name != "" && groupOk && ownerOk
    {
      hide PerformAll, Perform, Valid, Groups.BindUserToGroup, EnrolAll;
      if name == "" || !groupOk {
        return false;
      }
      ghost var rows := [InsertGroup(group, owner), InsertRow(Row(group, owner))];
      ghost var binds := Groups.BindUserToGroup(world, group, owner, ownerFaults);
      ghost var enrol := EnrolAll(world, group, owner, attempts);
      assert ownerOk ==> Effects(world, Op.CreateGroup(name, group, owner, groupOk, ownerOk, ownerFaults, attempts))
                         == rows + binds + enrol;
      StartGroup(group, owner, ownerOk);
      if !ownerOk {
        return false;
      }
      hide Effects;
      SameDevicesEnrol(old(world), world, group, owner, owner, ownerFaults);
      var _ := BindUserToGroup(group, owner, ownerFaults);
      EnrolMembers(old(world), group, owner, attempts);
      Appended(old(log), rows, binds, enrol);
      return true;
    }

    method DeleteGroup(group: Id, caller: Id, f: UnbindAllFaults, deleteOk: bool) returns (ok: bool)
      requires Valid()
      modifies this
      ensures Valid() && log == old(log) + Effects(old(world), Op.DeleteGroup(group, caller, f, deleteOk))
    {
      hide PerformAll, Perform, Valid;
      if group !in world.groups || world.groups[group] != caller {
        return false;
      }
      var _ := UnbindAllFromGroup(group, f);
      if !deleteOk {
        return false;
      }
      Do(DeleteGroupRows(group));
      return true;
    }

    method AddMember(group: Id, caller: Id, user: Option<Id>, known: bool, rowOk: bool, f: BindFaults) returns (ok: bool)
      requires Valid()
      modifies this
      ensures Valid() && log == old(log) + Effects(old(world), Op.AddMember(group, caller, user, known, rowOk, f))
      ensures ok <==> log != old(log)
    {
      hide PerformAll, Perform, Valid;
      if !IsMember(world, group, caller) || user == None || !known || !rowOk || group !in world.groups {
        return false;
      }
      Enrol(group, caller, user.value, f);
      return true;
    }

    /** Announces the exit, unbinds, and only then deletes the rows, whatever the unbind returned. */
    method RemoveMember(group: Id, caller: Id, target: Id, f: UnbindFaults, deleteOk: bool) returns (ok: bool)
      requires Valid()
      modifies this
      ensures Valid() && log == old(log) + Effects(old(world), Op.RemoveMember(group, caller, target, f, deleteOk))
    {
      hide PerformAll, Perform, Valid;
      if group !in world.groups || (world.groups[group] != caller && caller != target) {
        return false;
      }
      Do(Announce(group, if caller == target then Left else Removed, caller, target));
      var _ := UnbindUserFromGroup(group, target, f);
      if !deleteOk {
        return false;
      }
      Do(DeleteRows(Row(group, target)));
      return true;
    }

    method RedeemInvite(group: Id, caller: Id, invite: Invite, rowOk: bool, f: BindFaults)
      requires Valid()
      modifies this
      ensures Valid() && log == old(log) + Effects(old(world), Op.RedeemInvite(group, caller, invite, rowOk, f))
    {
      if !invite.found {
        return;
      }
      if invite.expiresAt.Some? && invite.now > invite.expiresAt.value {
        return;
      }
      if invite.useCount >= invite.maxUses {
        return;
      }
      if !invite.countOk {
        return;
      }
      if rowOk && group in world.groups {
        Enrol(group, caller, caller, f);
      }
    }
  }

  lemma UnbindNone(w: World, group: Id, users: seq<Id>, f: UnbindAllFaults)
    ensures UnbindMembers(w, group, users[..0], f) == []
  {
  }

  lemma UnbindNext(w: World, group: Id, users: seq<Id>, i: nat, f: UnbindAllFaults)
    requires i < |users|
    ensures UnbindMembers(w, group, users[..i + 1], f)
         == UnbindMembers(w, group, users[..i], f) + UnbindMember(w, group, users[i], f)
  {
    assert users[..i + 1][..i] == users[..i];
  }

  lemma EnrolOneMore(w: World, group: Id, owner: Id, attempts: seq<Attempt>, i: nat)
    requires i < |attempts|
    ensures EnrolAll(w, group, owner, attempts[..i + 1])
         == EnrolAll(w, group, owner, attempts[..i]) + TryEnrol(w, group, owner, attempts[i])
  {
    assert attempts[..i + 1][..i] == attempts[..i];
  }

  lemma Appended(log: seq<Effect>, a: seq<Effect>, b: seq<Effect>, c: seq<Effect>)
    ensures log + a + b + c == log + (a + b + c)
  {
  }

  lemma SameDevicesEnrol(w: World, w': World, group: Id, actor: Id, user: Id, f: BindFaults)
    requires w'.devices == w.devices
    ensures Groups.Enrol(w', group, actor, user, f) == Groups.Enrol(w, group, actor, user, f)
    ensures Groups.BindUserToGroup(w', group, user, f) == Groups.BindUserToGroup(w, group, user, f)
  {
  }

  lemma {:induction false} SameGroupsOf(w: World, w': World, rows: seq<Row>, user: Id)
    requires w'.groups == w.groups
    ensures GroupsOf(w', rows, user) == GroupsOf(w, rows, user)
  {
    if rows != [] {
      SameGroupsOf(w, w', rows[..|rows| - 1], user);
    }
  }
}
