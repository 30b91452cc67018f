/** Without failures the bindings of provisioned devices are exactly the memberships of their users. */
module GroupExactness {
  import opened Groups
  import opened GroupCoherence
  import opened GroupSafety

  /** No bind, unbind or row deletion fails. Inserts and provisions may fail freely. */
  predicate NoFaults(op: Op) {
    match op
    case CreateGroup(_, _, _, _, _, f, attempts) => f == NO_BIND_FAULTS && forall a :: a in attempts ==> a.faults == NO_BIND_FAULTS
    case DeleteGroup(_, _, f, deleteOk) => f == NO_UNBIND_ALL_FAULTS && deleteOk
    case AddMember(_, _, _, _, _, f) => f == NO_BIND_FAULTS
    case RemoveMember(_, _, _, f, deleteOk) => f == NO_UNBIND_FAULTS && deleteOk
    case RedeemInvite(_, _, _, _, f) => f == NO_BIND_FAULTS
    case _ => true
  }

  // ---- Enrolling

  /** The row, then the bindings of all the user's devices. */
  lemma JoinIsExact(w: World, w': World, g: Id, user: Id)
    requires Exact(w') && w'.devices == w.devices && g in w'.groups
    ensures var w'' := PerformAll(Perform(w', InsertRow(Row(g, user))), BindUserToGroup(w, g, user, NO_BIND_FAULTS));
            && Exact(w'') && w''.devices == w'.devices && w''.groups == w'.groups
            && forall d :: d in Devices(w, user) ==> (Queue(user, d), g) in w''.bound
  {
    var w1, es := Perform(w', InsertRow(Row(g, user))), BindUserToGroup(w, g, user, NO_BIND_FAULTS);
    BindUserIsAllowed(w, w1, g, user, NO_BIND_FAULTS);
    forall d | d in Devices(w, user) ensures BindToGroup(Queue(user, d), g) in es {
      BindDevicesEmits(user, g, Devices(w, user), NO_BIND_FAULTS, BindToGroup(Queue(user, d), g));
    }
    hide BindUserToGroup;
    assert Coherent(w1);
    hide Coherent;
    AllowedKeepsCoherent(w1, es);
    BindsKeepProvisioned(w1, es);
    hide AllBrokerOnly, BindsAllowed, PerformAll;
    var w'' := PerformAll(w1, es);
    forall q, h | q in w''.provisioned && IsMember(w'', h, q.user) ensures (q, h) in w''.bound {
      if !IsMember(w', h, q.user) {
        assert q == Queue(user, q.device) && h == g;
      }
    }
  }

  lemma BindsKeepProvisioned(w: World, es: seq<Effect>)
    requires AllBrokerOnly(es) && forall e :: e in es ==> !e.UnbindFromGroup?
    ensures var w' := PerformAll(w, es);
            && (forall q, g :: (q, g) in w'.bound <==> (q, g) in w.bound || BindToGroup(q, g) in es)
            && (forall q :: q in w'.provisioned <==> q in w.provisioned || Provisioned(q) in es)
            && w.declared <= w'.declared && w.userBound <= w'.userBound
  {
    forall q, g ensures (q, g) in PerformAll(w, es).bound <==> (q, g) in w.bound || BindToGroup(q, g) in es {
      BoundAfterBinds(w, es, q, g);
    }
    forall q ensures q in PerformAll(w, es).provisioned <==> q in w.provisioned || Provisioned(q) in es {
      ProvisionedAfter(w, es, q);
    }
    ProvisionedAfter(w, es, Queue("", ""));
  }

  lemma EnrolIsExact(w: World, w': World, g: Id, actor: Id, user: Id)
    requires Exact(w') && w'.devices == w.devices && g in w'.groups
    ensures var w'' := PerformAll(w', Enrol(w, g, actor, user, NO_BIND_FAULTS));
            Exact(w'') && w''.devices == w'.devices && w''.groups == w'.groups
  {
    JoinIsExact(w, w', g, user);
    EnrolSplits(w, w', g, actor, user);
  }

  lemma EnrolSplits(w: World, w': World, g: Id, actor: Id, user: Id)
    ensures PerformAll(w', Enrol(w, g, actor, user, NO_BIND_FAULTS))
         == PerformAll(Perform(w', InsertRow(Row(g, user))), BindUserToGroup(w, g, user, NO_BIND_FAULTS))
  {
    var row, joined := [InsertRow(Row(g, user))], [Announce(g, Joined, actor, user)];
    var binds := BindUserToGroup(w, g, user, NO_BIND_FAULTS);
    hide BindUserToGroup;
    PerformConcat(w', row + binds, joined);
    PerformConcat(w', row, binds);
    assert row[..0] == [] && joined[..0] == [];
    assert PerformAll(PerformAll(w', row + binds), joined) == PerformAll(w', row + binds);
  }

  lemma {:induction false} EnrolAllIsExact(w: World, w': World, g: Id, owner: Id, attempts: seq<Attempt>)
    requires Exact(w') && w'.devices == w.devices && g in w'.groups
    requires forall a :: a in attempts ==> a.faults == NO_BIND_FAULTS
    ensures var w'' := PerformAll(w', EnrolAll(w, g, owner, attempts));
            Exact(w'') && w''.devices == w'.devices && w''.groups == w'.groups
  {
    hide Exact, Enrol;
    if attempts != [] {
      var n := |attempts| - 1;
      var front := EnrolAll(w, g, owner, attempts[..n]);
      EnrolAllIsExact(w, w', g, owner, attempts[..n]);
      var a := attempts[n];
      if a.user.Some? && a.known && a.rowOk {
        EnrolIsExact(w, PerformAll(w', front), g, owner, a.user.value);
        PerformConcat(w', front, Enrol(w, g, owner, a.user.value, a.faults));
      } else {
        assert front + [] == front;
      }
    }
  }

  lemma CreateGroupIsExact(w: World, op: Op)
    requires Exact(w) && Admissible(w, op) && op.CreateGroup? && NoFaults(op)
    ensures Exact(PerformAll(w, Effects(w, op)))
  {
    var g, owner := op.group, op.owner;
    var insert, row := InsertGroup(g, owner), InsertRow(Row(g, owner));
    var w1 := Perform(w, insert);
    assert Exact(w1);
    hide Exact, BindUserToGroup, EnrolAll;
    assert PerformAll(w, [insert]) == w1 by { assert [insert][..0] == []; }
    if Effects(w, op) != [] && op.ownerOk {
      var binds, enrol := BindUserToGroup(w, g, owner, NO_BIND_FAULTS), EnrolAll(w, g, owner, op.attempts);
      JoinIsExact(w, w1, g, owner);
      EnrolAllIsExact(w, PerformAll(Perform(w1, row), binds), g, owner, op.attempts);
      assert PerformAll(w, [insert, row]) == Perform(w1, row) by { assert [insert, row][..1] == [insert]; }
      hide PerformAll, Perform;
      PerformConcat(w, [insert, row], binds);
      PerformConcat(w, [insert, row] + binds, enrol);
    }
  }

  // ---- Leaving

  lemma DeleteMemberKeepsExact(w: World, w1: World, row: Row)
    requires Exact(w) && SameTables(w, w1) && Coherent(Perform(w1, DeleteRows(row)))
    requires forall q, h :: (q, h) in w.bound && (q.user, h) != (row.user, row.group) ==> (q, h) in w1.bound
    requires w1.provisioned == w.provisioned && w.declared <= w1.declared && w.userBound <= w1.userBound
    ensures Exact(Perform(w1, DeleteRows(row)))
  {
    hide Coherent;
    forall r ensures r in Without(w.rows, row) <==> r in w.rows && r != row {
      WithoutContents(w.rows, row, r);
    }
    hide Without;
  }

  lemma RemoveMemberIsExact(w: World, op: Op)
    requires Exact(w) && op.RemoveMember? && NoFaults(op)
    ensures Exact(PerformAll(w, Effects(w, op)))
  {
    var g, target, row := op.group, op.target, Row(op.group, op.target);
    if Effects(w, op) != [] {
      var exit := [Announce(g, if op.caller == target then Left else Removed, op.caller, target)];
      var unbinds := UnbindUserFromGroup(w, g, target, NO_UNBIND_FAULTS);
      forall e ensures e in unbinds ==> e.UnbindFromGroup? && e.group == g && e.queue.user == target {
        UnbindDevicesEmits(target, g, Devices(w, target), {}, e);
      }
      UnbindUserClears(w, g, target);
      hide UnbindUserFromGroup, Exact, Coherent, SafeThroughout;
      assert Effects(w, op) == exit + unbinds + [DeleteRows(row)];
      PerformConcat(w, exit + unbinds, [DeleteRows(row)]);
      PerformConcat(w, exit, unbinds);
      assert PerformAll(w, exit) == w by { assert exit[..0] == []; }
      var w1 := PerformAll(w, unbinds);
      UnbindsKeepOthers(w, unbinds);
      assert PerformAll(w1, [DeleteRows(row)]) == Perform(w1, DeleteRows(row)) by { assert [DeleteRows(row)][..0] == []; }
      hide PerformAll;
      DeleteRowsIsSafe(w1, row);
      DeleteMemberKeepsExact(w, w1, row);
    }
  }

  lemma UnbindsKeepOthers(w: World, es: seq<Effect>)
    requires forall e :: e in es ==> e.UnbindFromGroup?
    ensures var w' := PerformAll(w, es);
            && (forall q, g :: (q, g) in w'.bound <==> (q, g) in w.bound && UnbindFromGroup(q, g) !in es)
            && w'.provisioned == w.provisioned && w.declared <= w'.declared && w.userBound <= w'.userBound
  {
    forall q, g ensures (q, g) in PerformAll(w, es).bound <==> (q, g) in w.bound && UnbindFromGroup(q, g) !in es {
      BoundAfterUnbinds(w, es, q, g);
    }
    forall q ensures q in PerformAll(w, es).provisioned <==> q in w.provisioned {
      ProvisionedAfter(w, es, q);
    }
    ProvisionedAfter(w, es, Queue("", ""));
  }

  lemma DeleteGroupEffects(w: World, op: Op)
    requires op.DeleteGroup? && NoFaults(op) && Effects(w, op) != []
    ensures Effects(w, op) == UnbindAllFromGroup(w, op.group, NO_UNBIND_ALL_FAULTS) + [DeleteGroupRows(op.group)]
  {
    hide UnbindAllFromGroup;
  }

  lemma DeleteRowsKeepsExact(w: World, w1: World, g: Id)
    requires Exact(w) && SameTables(w, w1) && Coherent(Perform(w1, DeleteGroupRows(g)))
    requires forall q, h :: (q, h) in w.bound && h != g ==> (q, h) in w1.bound
    requires w1.provisioned == w.provisioned && w.declared <= w1.declared && w.userBound <= w1.userBound
    ensures Exact(Perform(w1, DeleteGroupRows(g)))
  {
    hide Coherent;
    forall r ensures r in WithoutGroup(w.rows, g) <==> r in w.rows && r.group != g {
      WithoutGroupContents(w.rows, g, r);
    }
    hide WithoutGroup;
  }

  lemma DeleteGroupIsExact(w: World, op: Op)
    requires Exact(w) && op.DeleteGroup? && NoFaults(op)
    ensures Exact(PerformAll(w, Effects(w, op)))
  {
    var g := op.group;
    if Effects(w, op) != [] {
      DeleteGroupEffects(w, op);
      var unbinds := UnbindAllFromGroup(w, g, NO_UNBIND_ALL_FAULTS);
      forall e ensures e in unbinds ==> e.UnbindFromGroup? && e.group == g {
        UnbindMembersEmits(w, g, Members(w.rows, g), NO_UNBIND_ALL_FAULTS, e);
      }
      UnbindAllClears(w, g);
      hide UnbindAllFromGroup, Effects, Exact, SafeThroughout, Coherent;
      PerformConcat(w, unbinds, [DeleteGroupRows(g)]);
      var w1 := PerformAll(w, unbinds);
      UnbindsKeepOthers(w, unbinds);
      assert PerformAll(w1, [DeleteGroupRows(g)]) == Perform(w1, DeleteGroupRows(g)) by { assert [DeleteGroupRows(g)][..0] == []; }
      hide PerformAll;
      DeleteGroupIsSafe(w1, g);
      DeleteRowsKeepsExact(w, w1, g);
    }
  }

  // ---- Provisioning

  /** One successful provision makes the device's bindings exact, whatever binds failed before. */
  lemma ProvisionRepairs(w: World, q: Queue, f: ProvisionFaults)
    requires Coherent(w) && q.device in Devices(w, q.user) && ProvisionSucceeds(w, q, f)
    ensures var w' := PerformAll(w, ProvisionDeviceQueue(w, q, f));
            && q in w'.provisioned && q in w'.declared && q in w'.userBound
            && forall g :: (q, g) in w'.bound <==> IsMember(w', g, q.user)
  {
    var es := ProvisionDeviceQueue(w, q, f);
    ProvisionIsAllowed(w, q, f);
    AllowedKeepsCoherent(w, es);
    var w' := PerformAll(w, es);
    ProvisionedAfter(w, es, q);
    assert es[0] == DeclareQueue(q) && es[1] == BindToUser(q) && es[|es| - 1] == Provisioned(q);
    forall g | IsMember(w, g, q.user) ensures (q, g) in w'.bound {
      ProvisionBindsGroup(w, q, f, g);
      BoundAfterBinds(w, es, q, g);
    }
    hide PerformAll, ProvisionDeviceQueue;
  }

  lemma ProvisionBindsGroup(w: World, q: Queue, f: ProvisionFaults, g: Id)
    requires RowsHaveGroups(w) && IsMember(w, g, q.user) && ProvisionSucceeds(w, q, f)
    ensures BindToGroup(q, g) in ProvisionDeviceQueue(w, q, f)
  {
    GroupsOfContents(w, w.rows, q.user, g);
    BindGroupsEmits(q, GroupsOf(w, w.rows, q.user), f.bind, BindToGroup(q, g));
  }

  lemma ProvisionIsExact(w: World, q: Queue, f: ProvisionFaults)
    requires Exact(w) && q.device in Devices(w, q.user)
    ensures Exact(PerformAll(w, ProvisionDeviceQueue(w, q, f)))
  {
    hide Coherent, BindsAllowed, PerformAll;
    var es := ProvisionDeviceQueue(w, q, f);
    ProvisionIsAllowed(w, q, f);
    AllowedKeepsCoherent(w, es);
    BindsKeepProvisioned(w, es);
    forall e | e in es && e.Provisioned? ensures e.queue == q && ProvisionSucceeds(w, q, f) {
      BindGroupsEmits(q, GroupsOf(w, w.rows, q.user), f.bind, e);
    }
    if ProvisionSucceeds(w, q, f) {
      ProvisionRepairs(w, q, f);
    }
    hide ProvisionDeviceQueue, ProvisionSucceeds, AllBrokerOnly;
  }

  // ---- The theorems

  lemma OperationIsExact(w: World, op: Op)
    requires Exact(w) && Admissible(w, op) && NoFaults(op)
    ensures Exact(PerformAll(w, Effects(w, op)))
  {
    match op
    case CreateGroup(_, _, _, _, _, _, _) => CreateGroupIsExact(w, op);
    case DeleteGroup(_, _, _, _) => DeleteGroupIsExact(w, op);
    case RemoveMember(_, _, _, _, _) => RemoveMemberIsExact(w, op);
    case AddMember(g, caller, user, _, _, _) =>
      if Effects(w, op) != [] {
        EnrolIsExact(w, w, g, caller, user.value);
      }
    case RedeemInvite(g, caller, _, _, _) =>
      if Effects(w, op) != [] {
        EnrolIsExact(w, w, g, caller, caller);
      }
    case NewDevice(q) =>
      assert [InsertDevice(q)][..0] == [];
      assert PerformAll(w, [InsertDevice(q)]) == Perform(w, InsertDevice(q));
    case Provision(q, f) => ProvisionIsExact(w, q, f);
  }

  /** Run to completion. */
  function RunAll(w: World, ops: seq<Op>): World {
    if ops == [] then w else
      var w' := RunAll(w, ops[..|ops| - 1]);
      PerformAll(w', Effects(w', ops[|ops| - 1]))
  }

  ghost predicate AdmissibleOps(w: World, ops: seq<Op>) {
    ops == [] || (AdmissibleOps(w, ops[..|ops| - 1]) && Admissible(RunAll(w, ops[..|ops| - 1]), ops[|ops| - 1]))
  }

  /** In a failure-free run, a provisioned device is bound to a group exactly while its user is a member. */
  lemma {:induction false} BoundIffMember(ops: seq<Op>, q: Queue, g: Id)
    requires AdmissibleOps(EMPTY_WORLD, ops) && forall op :: op in ops ==> NoFaults(op)
    requires q in RunAll(EMPTY_WORLD, ops).provisioned
    ensures var w := RunAll(EMPTY_WORLD, ops);
            (q, g) in w.bound <==> IsMember(w, g, q.user)
  {
    ExactRun(ops);
    hide RunAll;
  }

  lemma {:induction false} ExactRun(ops: seq<Op>)
    requires AdmissibleOps(EMPTY_WORLD, ops) && forall op :: op in ops ==> NoFaults(op)
    ensures Exact(RunAll(EMPTY_WORLD, ops))
  {
    if ops != [] {
      var n := |ops| - 1;
      assert forall op :: op in ops[..n] ==> op in ops;
      ExactRun(ops[..n]);
      hide Exact, Effects;
      OperationIsExact(RunAll(EMPTY_WORLD, ops[..n]), ops[n]);
    }
  }

  // ---- Who hears about a change

  /** The removed member's provisioned devices are still bound when the exit is announced. */
  lemma ExitReachesTheLeaver(w: World, op: Op, q: Queue)
    requires Exact(w) && op.RemoveMember? && Effects(w, op) != []
    requires IsMember(w, op.group, op.target) && q in w.provisioned && q.user == op.target
    ensures var es := Effects(w, op);
            && es[0] == Announce(op.group, if op.caller == op.target then Left else Removed, op.caller, op.target)
            && (q, op.group) in PerformAll(w, es[..0]).bound
            && (NoFaults(op) ==> (q, op.group) !in PerformAll(w, es).bound)
  {
    if NoFaults(op) {
      RemoveMemberIsExact(w, op);
      var es := Effects(w, op);
      var front := es[..|es| - 1];
      WithoutContents(PerformAll(w, front).rows, Row(op.group, op.target), Row(op.group, op.target));
      assert !IsMember(PerformAll(w, es), op.group, op.target);
    }
  }

  /** Every device of a new member is bound before the join is announced. */
  lemma JoinReachesTheJoiner(w: World, op: Op, device: Id)
    requires Exact(w) && op.AddMember? && NoFaults(op) && Effects(w, op) != [] && device in Devices(w, op.user.value)
    ensures var es := Effects(w, op);
            && es[|es| - 1] == Announce(op.group, Joined, op.caller, op.user.value)
            && (Queue(op.user.value, device), op.group) in PerformAll(w, es[..|es| - 1]).bound
  {
    var g, user := op.group, op.user.value;
    var row, binds := [InsertRow(Row(g, user))], BindUserToGroup(w, g, user, NO_BIND_FAULTS);
    var es := Effects(w, op);
    assert es == row + binds + [Announce(g, Joined, op.caller, user)];
    JoinIsExact(w, w, g, user);
    hide BindUserToGroup, Exact;
    PerformConcat(w, row, binds);
    assert PerformAll(w, row) == Perform(w, row[0]) by { assert row[..0] == []; }
    assert es[..|es| - 1] == row + binds;
  }
}
