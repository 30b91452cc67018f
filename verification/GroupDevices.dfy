/** Exactness for one device: what failed before its last provision, or for other users, does not matter. */
module GroupDevices {
  import opened Wrappers
  import opened Groups
  import opened GroupCoherence
  import opened GroupSafety
  import opened GroupExactness

  /** The device is bound only to groups of its user. */
  ghost predicate NoStray(w: World, q: Queue) {
    RowsHaveGroups(w) && forall g :: (q, g) in w.bound ==> IsMember(w, g, q.user)
  }

  /** The device is bound to all groups of its user. */
  ghost predicate AllBound(w: World, q: Queue) {
    q.device in Devices(w, q.user) && forall g :: IsMember(w, g, q.user) ==> (q, g) in w.bound
  }

  predicate BindReaches(f: BindFaults, q: Queue) {
    !f.list && !f.channel && q.device !in f.declare && q.device !in f.bind
  }

  predicate AttemptsReach(attempts: seq<Attempt>, q: Queue) {
    forall a :: a in attempts && a.user == Some(q.user) ==> BindReaches(a.faults, q)
  }

  /** The operation unbinds this device from the group that its user leaves or that is deleted. */
  predicate UnbindsReach(w: World, op: Op, q: Queue) {
    && (op.RemoveMember? && op.target == q.user ==> Unbinds(op.unbindFaults, q.device))
    && (op.DeleteGroup? && IsMember(w, op.group, q.user) ==> UnbindsInDelete(op.unbindAllFaults, q))
  }

  /** The operation binds this device to the group that its user joins, and completes what it unbinds. */
  predicate BindsReach(w: World, op: Op, q: Queue) {
    match op
    case CreateGroup(_, _, owner, _, _, f, attempts) =>
      (owner == q.user ==> BindReaches(f, q)) && AttemptsReach(attempts, q)
    case AddMember(_, _, user, _, _, f) => user == Some(q.user) ==> BindReaches(f, q)
    case RedeemInvite(_, caller, _, _, f) => caller == q.user ==> BindReaches(f, q)
    case RemoveMember(_, _, target, _, deleteOk) => target == q.user ==> deleteOk
    case DeleteGroup(g, _, _, deleteOk) => IsMember(w, g, q.user) ==> deleteOk
    case _ => true
  }

  // ---- Joining

  lemma JoinDevice(w0: World, w: World, g: Id, user: Id, f: BindFaults, q: Queue)
    requires w.devices == w0.devices && g in w.groups
    ensures var w' := PerformAll(Perform(w, InsertRow(Row(g, user))), BindUserToGroup(w0, g, user, f));
            && w'.devices == w.devices && w'.groups == w.groups
            && (NoStray(w, q) ==> NoStray(w', q))
            && (AllBound(w, q) && (user == q.user ==> BindReaches(f, q)) ==> AllBound(w', q))
  {
    var w1, es := Perform(w, InsertRow(Row(g, user))), BindUserToGroup(w0, g, user, f);
    BindUserIsAllowed(w0, w1, g, user, f);
    if user == q.user && BindReaches(f, q) && q.device in Devices(w0, user) {
      BindDevicesEmits(user, g, Devices(w0, user), f, BindToGroup(q, g));
      assert BindToGroup(q, g) in es;
    }
    hide BindUserToGroup;
    BrokerOnlyKeeps(w1, es);
    forall h ensures (q, h) in PerformAll(w1, es).bound <==> (q, h) in w1.bound || BindToGroup(q, h) in es {
      BoundAfterBinds(w1, es, q, h);
    }
    hide PerformAll, AllBrokerOnly;
  }

  lemma EnrolPerforms(w0: World, w: World, g: Id, actor: Id, user: Id, f: BindFaults)
    ensures PerformAll(w, Enrol(w0, g, actor, user, f))
         == PerformAll(Perform(w, InsertRow(Row(g, user))), BindUserToGroup(w0, g, user, f))
  {
    var row, binds, joined := [InsertRow(Row(g, user))], BindUserToGroup(w0, g, user, f), [Announce(g, Joined, actor, user)];
    hide BindUserToGroup;
    PerformConcat(w, row + binds, joined);
    PerformConcat(w, row, binds);
    assert row[..0] == [] && joined[..0] == [];
    assert PerformAll(PerformAll(w, row + binds), joined) == PerformAll(w, row + binds);
  }

  lemma {:induction false} EnrolAllDevice(w0: World, w: World, g: Id, owner: Id, attempts: seq<Attempt>, q: Queue)
    requires w.devices == w0.devices && g in w.groups
    ensures var w' := PerformAll(w, EnrolAll(w0, g, owner, attempts));
            && w'.devices == w.devices && w'.groups == w.groups
            && (NoStray(w, q) ==> NoStray(w', q))
            && (AllBound(w, q) && AttemptsReach(attempts, q) ==> AllBound(w', q))
  {
    hide NoStray, AllBound, Enrol, BindReaches;
    if attempts != [] {
      var n := |attempts| - 1;
      var front, a := EnrolAll(w0, g, owner, attempts[..n]), attempts[n];
      assert attempts == attempts[..n] + [a];
      EnrolAllDevice(w0, w, g, owner, attempts[..n], q);
      if a.user.Some? && a.known && a.rowOk {
        var w1 := PerformAll(w, front);
        EnrolPerforms(w0, w1, g, owner, a.user.value, a.faults);
        JoinDevice(w0, w1, g, a.user.value, a.faults, q);
        PerformConcat(w, front, Enrol(w0, g, owner, a.user.value, a.faults));
      } else {
        assert front + [] == front;
      }
    }
  }

  /** A fresh group has no rows yet. */
  lemma FreshGroup(w: World, g: Id, owner: Id, q: Queue)
    ensures var w' := Perform(w, InsertGroup(g, owner));
            && w'.devices == w.devices && g in w'.groups
            && (NoStray(w, q) ==> NoStray(w', q)) && (AllBound(w, q) ==> AllBound(w', q))
  {
  }

  lemma CreateGroupDevice(w: World, op: Op, q: Queue)
    requires op.CreateGroup?
    ensures var w' := PerformAll(w, Effects(w, op));
            && (NoStray(w, q) ==> NoStray(w', q)) && (AllBound(w, q) && BindsReach(w, op, q) ==> AllBound(w', q))
  {
    var g, owner := op.group, op.owner;
    var insert, row := InsertGroup(g, owner), InsertRow(Row(g, owner));
    var w1 := Perform(w, insert);
    FreshGroup(w, g, owner, q);
    assert BindsReach(w, op, q) ==> owner == q.user ==> BindReaches(op.ownerFaults, q);
    hide NoStray, AllBound, BindReaches;
    assert PerformAll(w, [insert]) == w1 by { assert [insert][..0] == []; }
    if op.name != "" && op.groupOk && op.ownerOk {
      var binds, enrol := BindUserToGroup(w, g, owner, op.ownerFaults), EnrolAll(w, g, owner, op.attempts);
      JoinDevice(w, w1, g, owner, op.ownerFaults, q);
      EnrolAllDevice(w, PerformAll(Perform(w1, row), binds), g, owner, op.attempts, q);
      CreateGroupEffects(w, op);
      assert PerformAll(w, [insert, row]) == Perform(w1, row) by { assert [insert, row][..1] == [insert]; }
      hide PerformAll, Perform, Effects;
      assert [insert, row] + (binds + enrol) == [insert, row] + binds + enrol;
      PerformConcat(w, [insert, row], binds);
      PerformConcat(w, [insert, row] + binds, enrol);
    }
  }

  lemma EnrolDevice(w: World, g: Id, actor: Id, user: Id, f: BindFaults, q: Queue)
    requires g in w.groups
    ensures var w' := PerformAll(w, Enrol(w, g, actor, user, f));
            && (NoStray(w, q) ==> NoStray(w', q))
            && (AllBound(w, q) && (user == q.user ==> BindReaches(f, q)) ==> AllBound(w', q))
  {
    EnrolPerforms(w, w, g, actor, user, f);
    JoinDevice(w, w, g, user, f, q);
    hide PerformAll, NoStray, AllBound;
  }

  // ---- Leaving

  lemma UnbindsDevice(w: World, es: seq<Effect>, q: Queue)
    requires forall e :: e in es ==> e.UnbindFromGroup?
    ensures var w' := PerformAll(w, es);
            SameTables(w, w') && forall h :: (q, h) in w'.bound <==> (q, h) in w.bound && UnbindFromGroup(q, h) !in es
  {
    BrokerOnlyKeeps(w, es);
    forall h ensures (q, h) in PerformAll(w, es).bound <==> (q, h) in w.bound && UnbindFromGroup(q, h) !in es {
      BoundAfterUnbinds(w, es, q, h);
    }
  }

  lemma DropRows(w: World, w1: World, row: Row, q: Queue)
    requires SameTables(w, w1) && forall h :: h != row.group || q.user != row.user ==> ((q, h) in w1.bound <==> (q, h) in w.bound)
    requires (q, row.group) in w1.bound ==> (q, row.group) in w.bound
    ensures var w' := Perform(w1, DeleteRows(row));
            && (NoStray(w, q) && (q.user == row.user ==> (q, row.group) !in w1.bound) ==> NoStray(w', q))
            && (AllBound(w, q) ==> AllBound(w', q))
  {
    forall r ensures r in Without(w.rows, row) <==> r in w.rows && r != row {
      WithoutContents(w.rows, row, r);
    }
    hide Without;
  }

  lemma DropGroup(w: World, w1: World, g: Id, q: Queue)
    requires SameTables(w, w1) && forall h :: h != g ==> ((q, h) in w1.bound <==> (q, h) in w.bound)
    ensures var w' := Perform(w1, DeleteGroupRows(g));
            && (NoStray(w, q) && (q, g) !in w1.bound ==> NoStray(w', q))
            && (AllBound(w, q) ==> AllBound(w', q))
  {
    forall r ensures r in WithoutGroup(w.rows, g) <==> r in w.rows && r.group != g {
      WithoutGroupContents(w.rows, g, r);
    }
    hide WithoutGroup;
  }

  lemma UnbindUserDevice(w: World, g: Id, target: Id, f: UnbindFaults, q: Queue)
    ensures var w' := PerformAll(w, UnbindUserFromGroup(w, g, target, f));
            && SameTables(w, w')
            && (forall h :: h != g || q.user != target ==> ((q, h) in w'.bound <==> (q, h) in w.bound))
            && ((q, g) in w'.bound ==> (q, g) in w.bound)
            && (q.user == target && q.device in Devices(w, target) && Unbinds(f, q.device) ==> (q, g) !in w'.bound)
  {
    var es := UnbindUserFromGroup(w, g, target, f);
    forall e | e in es ensures e.UnbindFromGroup? && e.group == g && e.queue.user == target {
      UnbindDevicesEmits(target, g, Devices(w, target), f.unbind, e);
    }
    UnbindDevicesEmits(target, g, Devices(w, target), f.unbind, UnbindFromGroup(q, g));
    hide UnbindDevices;
    UnbindsDevice(w, es, q);
    hide PerformAll;
  }

  lemma RemoveMemberPerforms(w: World, op: Op)
    requires op.RemoveMember? && Effects(w, op) != []
    ensures var w1 := PerformAll(w, UnbindUserFromGroup(w, op.group, op.target, op.unbindFaults));
            PerformAll(w, Effects(w, op)) == if op.deleteOk then Perform(w1, DeleteRows(Row(op.group, op.target))) else w1
  {
    var g, target, row := op.group, op.target, Row(op.group, op.target);
    var exit := [Announce(g, if op.caller == target then Left else Removed, op.caller, target)];
    var unbinds := UnbindUserFromGroup(w, g, target, op.unbindFaults);
    var rest := if op.deleteOk then [DeleteRows(row)] else [];
    hide UnbindUserFromGroup, PerformAll, Perform;
    assert Effects(w, op) == exit + unbinds + rest;
    hide Effects;
    PerformConcat(w, exit + unbinds, rest);
    PerformConcat(w, exit, unbinds);
    AnnounceIsSilent(w, exit[0]);
    PerformOne(PerformAll(w, unbinds), DeleteRows(row));
    PerformNone(PerformAll(w, unbinds));
  }

  lemma PerformOne(w: World, e: Effect)
    ensures PerformAll(w, [e]) == Perform(w, e)
  {
    assert [e][..0] == [];
  }

  lemma PerformNone(w: World)
    ensures PerformAll(w, []) == w
  {
  }

  lemma AnnounceIsSilent(w: World, e: Effect)
    requires e.Announce?
    ensures PerformAll(w, [e]) == w
  {
    PerformOne(w, e);
  }

  lemma RemoveMemberDevice(w: World, op: Op, q: Queue)
    requires op.RemoveMember? && Effects(w, op) != []
    ensures var w' := PerformAll(w, Effects(w, op));
            && (NoStray(w, q) && UnbindsReach(w, op, q) && q.device in Devices(w, q.user) ==> NoStray(w', q))
            && (AllBound(w, q) && BindsReach(w, op, q) ==> AllBound(w', q))
  {
    RemoveMemberPerforms(w, op);
    UnbindUserDevice(w, op.group, op.target, op.unbindFaults, q);
    var w1 := PerformAll(w, UnbindUserFromGroup(w, op.group, op.target, op.unbindFaults));
    if op.deleteOk {
      DropRows(w, w1, Row(op.group, op.target), q);
    }
    hide Effects, UnbindUserFromGroup, Unbinds, PerformAll, Perform;
  }

  lemma UnbindAllDevice(w: World, g: Id, f: UnbindAllFaults, q: Queue)
    requires g in w.groups
    ensures var w' := PerformAll(w, UnbindAllFromGroup(w, g, f));
            && SameTables(w, w') && (forall h :: h != g ==> ((q, h) in w'.bound <==> (q, h) in w.bound))
            && ((q, g) in w'.bound ==> (q, g) in w.bound)
            && (IsMember(w, g, q.user) && q.device in Devices(w, q.user) && UnbindsInDelete(f, q) ==> (q, g) !in w'.bound)
            && (!IsMember(w, g, q.user) ==> ((q, g) in w'.bound <==> (q, g) in w.bound))
  {
    var es := UnbindAllFromGroup(w, g, f);
    forall e | e in es ensures e.UnbindFromGroup? && e.group == g && IsMember(w, g, e.queue.user) {
      UnbindAllEmits(w, g, f, e);
    }
    UnbindAllEmits(w, g, f, UnbindFromGroup(q, g));
    hide UnbindAllFromGroup;
    UnbindsDevice(w, es, q);
    hide PerformAll, UnbindsInDelete, IsMember;
  }

  lemma DeleteGroupDevice(w: World, op: Op, q: Queue)
    requires op.DeleteGroup? && Effects(w, op) != []
    ensures var w' := PerformAll(w, Effects(w, op));
            && (NoStray(w, q) && UnbindsReach(w, op, q) && q.device in Devices(w, q.user) ==> NoStray(w', q))
            && (AllBound(w, q) && BindsReach(w, op, q) ==> AllBound(w', q))
  {
    var g, f := op.group, op.unbindAllFaults;
    var unbinds := UnbindAllFromGroup(w, g, f);
    var rest := if op.deleteOk then [DeleteGroupRows(g)] else [];
    assert Effects(w, op) == unbinds + rest && g in w.groups;
    UnbindAllDevice(w, g, f, q);
    hide Effects, UnbindAllFromGroup;
    PerformConcat(w, unbinds, rest);
    var w1 := PerformAll(w, unbinds);
    assert PerformAll(w1, [DeleteGroupRows(g)]) == Perform(w1, DeleteGroupRows(g)) by { assert [DeleteGroupRows(g)][..0] == []; }
    hide PerformAll, Perform, UnbindsInDelete;
    if op.deleteOk {
      DropGroup(w, w1, g, q);
      hide NoStray, AllBound, SameTables;
    }
  }

  // ---- Provisioning

  lemma ProvisionDevice(w: World, p: Queue, f: ProvisionFaults, q: Queue)
    ensures var w' := PerformAll(w, ProvisionDeviceQueue(w, p, f));
            && (NoStray(w, q) ==> NoStray(w', q)) && (AllBound(w, q) ==> AllBound(w', q))
            && (NoStray(w, q) && p == q && q.device in Devices(w, q.user) && ProvisionSucceeds(w, q, f) ==> AllBound(w', q))
  {
    var es := ProvisionDeviceQueue(w, p, f);
    ProvisionEmits(w, p, f);
    if p == q && ProvisionSucceeds(w, q, f) {
      forall g | IsMember(w, g, q.user) && RowsHaveGroups(w) ensures BindToGroup(q, g) in es {
        ProvisionBindsGroup(w, q, f, g);
      }
    }
    hide ProvisionDeviceQueue, ProvisionSucceeds;
    BrokerOnlyKeeps(w, es);
    forall h ensures (q, h) in PerformAll(w, es).bound <==> (q, h) in w.bound || BindToGroup(q, h) in es {
      BoundAfterBinds(w, es, q, h);
    }
    hide PerformAll, AllBrokerOnly;
  }

  lemma ProvisionEmits(w: World, p: Queue, f: ProvisionFaults)
    ensures var es := ProvisionDeviceQueue(w, p, f);
            && AllBrokerOnly(es)
            && forall e :: e in es ==> !e.UnbindFromGroup? && (e.BindToGroup? ==> e.queue == p && IsMember(w, e.group, p.user))
  {
    var gs := GroupsOf(w, w.rows, p.user);
    forall e | e in BindGroups(p, gs, f.bind) ensures e.BindToGroup? && e.queue == p && IsMember(w, e.group, p.user) {
      BindGroupsEmits(p, gs, f.bind, e);
      GroupsOfContents(w, w.rows, p.user, e.group);
    }
    hide BindGroups, GroupsOf, ProvisionSucceeds;
  }

  // ---- Operations and runs

  lemma OperationOnDevice(w: World, op: Op, q: Queue)
    requires q.device in Devices(w, q.user)
    ensures var w' := PerformAll(w, Effects(w, op));
            && q.device in Devices(w', q.user)
            && (NoStray(w, q) && UnbindsReach(w, op, q) ==> NoStray(w', q))
            && (AllBound(w, q) && BindsReach(w, op, q) ==> AllBound(w', q))
  {
    DevicesStay(w, Effects(w, op), q);
    if Effects(w, op) != [] {
      match op {
        case CreateGroup(_, _, _, _, _, _, _) => CreateGroupDevice(w, op, q);
        case DeleteGroup(_, _, _, _) => DeleteGroupDevice(w, op, q);
        case AddMember(g, caller, user, _, _, f) => EnrolDevice(w, g, caller, user.value, f, q);
        case RemoveMember(_, _, _, _, _) => RemoveMemberDevice(w, op, q);
        case RedeemInvite(g, caller, _, _, f) => EnrolDevice(w, g, caller, caller, f, q);
        case NewDevice(d) => NewDeviceElsewhere(w, d, q);
        case Provision(p, f) => ProvisionDevice(w, p, f, q);
      }
    }
    hide NoStray, AllBound, PerformAll, BindReaches, AttemptsReach, UnbindsReach;
  }

  lemma {:induction false} DevicesStay(w: World, es: seq<Effect>, q: Queue)
    requires q.device in Devices(w, q.user)
    ensures q.device in Devices(PerformAll(w, es), q.user)
  {
    if es != [] {
      DevicesStay(w, es[..|es| - 1], q);
    }
  }

  lemma NewDeviceElsewhere(w: World, d: Queue, q: Queue)
    ensures var w' := PerformAll(w, [InsertDevice(d)]);
            (NoStray(w, q) ==> NoStray(w', q)) && (AllBound(w, q) ==> AllBound(w', q))
  {
    assert [InsertDevice(d)][..0] == [];
    assert PerformAll(w, [InsertDevice(d)]) == Perform(w, InsertDevice(d));
  }

  /** No unbind for the device fails in the run. */
  ghost predicate UnbindsReachRun(w: World, ops: seq<Op>, q: Queue) {
    ops == [] || (UnbindsReachRun(w, ops[..|ops| - 1], q) && UnbindsReach(RunAll(w, ops[..|ops| - 1]), ops[|ops| - 1], q))
  }

  /** No bind for the device fails in the run, and nothing for its user stops half-way. */
  ghost predicate BindsReachRun(w: World, ops: seq<Op>, q: Queue) {
    ops == [] || (BindsReachRun(w, ops[..|ops| - 1], q) && BindsReach(RunAll(w, ops[..|ops| - 1]), ops[|ops| - 1], q))
  }

  lemma {:induction false} RunOnDevice(w: World, ops: seq<Op>, q: Queue)
    requires q.device in Devices(w, q.user) && NoStray(w, q) && UnbindsReachRun(w, ops, q)
    ensures var w' := RunAll(w, ops);
            q.device in Devices(w', q.user) && NoStray(w', q) && (AllBound(w, q) && BindsReachRun(w, ops, q) ==> AllBound(w', q))
  {
    if ops != [] {
      RunOnDevice(w, ops[..|ops| - 1], q);
      hide NoStray, AllBound, UnbindsReach, BindsReach, Effects, PerformAll;
      OperationOnDevice(RunAll(w, ops[..|ops| - 1]), ops[|ops| - 1], q);
    }
  }

  /**
   From a device's successful provision on, while no bind or unbind for it fails, it is bound exactly to the
   groups of its user: whatever binds failed for it before, and whatever fails for anybody else.
   */
  lemma ExactSinceProvision(w: World, before: seq<Op>, f: ProvisionFaults, after: seq<Op>, q: Queue, g: Id)
    requires q.device in Devices(w, q.user) && NoStray(w, q) && UnbindsReachRun(w, before, q)
    requires ProvisionSucceeds(RunAll(w, before), q, f)
    requires var w1 := PerformAll(RunAll(w, before), ProvisionDeviceQueue(RunAll(w, before), q, f));
             UnbindsReachRun(w1, after, q) && BindsReachRun(w1, after, q)
    ensures var w1 := PerformAll(RunAll(w, before), ProvisionDeviceQueue(RunAll(w, before), q, f));
            var w' := RunAll(w1, after); (q, g) in w'.bound <==> IsMember(w', g, q.user)
  {
    var w0 := RunAll(w, before);
    var w1 := PerformAll(w0, ProvisionDeviceQueue(w0, q, f));
    RunOnDevice(w, before, q);
    ProvisionDevice(w0, q, f, q);
    DevicesStay(w0, ProvisionDeviceQueue(w0, q, f), q);
    hide RunAll, PerformAll, ProvisionDeviceQueue, UnbindsReachRun, BindsReachRun, ProvisionSucceeds;
    RunOnDevice(w1, after, q);
  }

  /** A device whose queue is bound nowhere has no stray binding once it is registered. */
  lemma NewDeviceIsNotStray(w: World, q: Queue)
    requires RowsHaveGroups(w) && forall g :: (q, g) !in w.bound
    ensures var w' := Perform(w, InsertDevice(q)); q.device in Devices(w', q.user) && NoStray(w', q)
  {
  }
}
