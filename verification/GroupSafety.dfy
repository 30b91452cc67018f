/**
 No outsider's device is ever bound to a group: at every intermediate point of every operation, as
 long as the unbinds succeed. Failed binds and stops in the middle do no harm.
 */
module GroupSafety {
  import opened Groups
  import opened GroupCoherence

  /** The world is coherent after each effect of the list. */
  ghost predicate SafeThroughout(w: World, es: seq<Effect>) {
    forall k :: 0 <= k <= |es| ==> Coherent(PerformAll(w, es[..k]))
  }

  lemma SafeConcat(w: World, a: seq<Effect>, b: seq<Effect>)
    requires SafeThroughout(w, a) && SafeThroughout(PerformAll(w, a), b)
    ensures SafeThroughout(w, a + b)
  {
    hide Coherent, PerformAll;
    forall k | 0 <= k <= |a + b| ensures Coherent(PerformAll(w, (a + b)[..k])) {
      if k <= |a| {
        assert (a + b)[..k] == a[..k];
      } else {
        assert (a + b)[..k] == a + b[..k - |a|];
        PerformConcat(w, a, b[..k - |a|]);
      }
    }
  }

  lemma SafeSingle(w: World, e: Effect)
    requires Coherent(w) && Coherent(Perform(w, e))
    ensures SafeThroughout(w, [e]) && PerformAll(w, [e]) == Perform(w, e)
  {
    hide Coherent, Perform;
    assert [e][..0] == [] && [e][..1] == [e];
  }

  lemma SafeAllowed(w: World, es: seq<Effect>)
    requires Coherent(w) && AllBrokerOnly(es) && BindsAllowed(w, es)
    ensures SafeThroughout(w, es) && Coherent(PerformAll(w, es)) && SameTables(w, PerformAll(w, es))
  {
    hide Coherent, PerformAll;
    forall k | 0 <= k <= |es| ensures Coherent(PerformAll(w, es[..k])) {
      AllowedKeepsCoherent(w, es[..k]);
    }
    AllowedKeepsCoherent(w, es);
  }

  // ---- Binding

  lemma BindUserIsAllowed(w: World, w': World, g: Id, user: Id, f: BindFaults)
    requires w'.devices == w.devices && IsMember(w', g, user)
    ensures AllBrokerOnly(BindUserToGroup(w, g, user, f)) && BindsAllowed(w', BindUserToGroup(w, g, user, f))
    ensures forall e :: e in BindUserToGroup(w, g, user, f) ==> !e.UnbindFromGroup? && !e.Provisioned?
  {
    forall e | e in BindUserToGroup(w, g, user, f)
      ensures e.DeclareQueue? || (e.BindToGroup? && e.group == g && e.queue.user == user && e.queue.device in Devices(w, user))
    {
      BindDevicesEmits(user, g, Devices(w, user), f, e);
    }
  }

  /** Inserting the row first makes every bind that follows an allowed one. */
  lemma EnrolIsSafe(w: World, w': World, g: Id, actor: Id, user: Id, f: BindFaults)
    requires Coherent(w') && w'.devices == w.devices && g in w'.groups
    ensures SafeThroughout(w', Enrol(w, g, actor, user, f))
    ensures var w'' := PerformAll(w', Enrol(w, g, actor, user, f));
            Coherent(w'') && w''.devices == w'.devices && w''.groups == w'.groups && w''.rows == w'.rows + [Row(g, user)]
  {
    var insert, rest := InsertRow(Row(g, user)), BindUserToGroup(w, g, user, f) + [Announce(g, Joined, actor, user)];
    var w1 := Perform(w', insert);
    SafeSingle(w', insert);
    BindUserIsAllowed(w, w1, g, user, f);
    hide BindUserToGroup, Coherent;
    SafeAllowed(w1, rest);
    hide SafeThroughout, PerformAll;
    assert [insert] + rest == Enrol(w, g, actor, user, f);
    SafeConcat(w', [insert], rest);
    PerformConcat(w', [insert], rest);
  }

  lemma {:induction false} EnrolAllIsSafe(w: World, w': World, g: Id, owner: Id, attempts: seq<Attempt>)
    requires Coherent(w') && w'.devices == w.devices && g in w'.groups
    ensures SafeThroughout(w', EnrolAll(w, g, owner, attempts))
    ensures var w'' := PerformAll(w', EnrolAll(w, g, owner, attempts));
            Coherent(w'') && w''.devices == w'.devices && w''.groups == w'.groups
  {
    hide Coherent, Enrol;
    if attempts == [] {
      var none: seq<Effect> := [];
      assert none[..0] == none;
    } else {
      var n := |attempts| - 1;
      var front := EnrolAll(w, g, owner, attempts[..n]);
      EnrolAllIsSafe(w, w', g, owner, attempts[..n]);
      var a := attempts[n];
      if a.user.Some? && a.known && a.rowOk {
        var w1 := PerformAll(w', front);
        var last := Enrol(w, g, owner, a.user.value, a.faults);
        EnrolIsSafe(w, w1, g, owner, a.user.value, a.faults);
        hide SafeThroughout, PerformAll;
        SafeConcat(w', front, last);
        PerformConcat(w', front, last);
      } else {
        assert front + [] == front;
      }
    }
  }

  // ---- Unbinding before the rows go

  lemma UnbindUserClears(w: World, g: Id, user: Id)
    requires Coherent(w)
    ensures var w' := PerformAll(w, UnbindUserFromGroup(w, g, user, NO_UNBIND_FAULTS));
            && SafeThroughout(w, UnbindUserFromGroup(w, g, user, NO_UNBIND_FAULTS))
            && Coherent(w') && SameTables(w, w')
            && forall q :: (q, g) in w'.bound ==> q.user != user
  {
    var es := UnbindUserFromGroup(w, g, user, NO_UNBIND_FAULTS);
    forall e ensures e in es <==> e.UnbindFromGroup? && e.group == g && e.queue.user == user && e.queue.device in Devices(w, user) {
      UnbindDevicesEmits(user, g, Devices(w, user), {}, e);
    }
    SafeAllowed(w, es);
    forall q | (q, g) in PerformAll(w, es).bound ensures q.user != user {
      BoundAfterUnbinds(w, es, q, g);
      assert UnbindFromGroup(q, g) !in es;
    }
  }

  lemma UnbindAllClears(w: World, g: Id)
    requires Coherent(w)
    ensures var w' := PerformAll(w, UnbindAllFromGroup(w, g, NO_UNBIND_ALL_FAULTS));
            && SafeThroughout(w, UnbindAllFromGroup(w, g, NO_UNBIND_ALL_FAULTS))
            && Coherent(w') && SameTables(w, w')
            && forall q :: (q, g) !in w'.bound
  {
    var es := UnbindAllFromGroup(w, g, NO_UNBIND_ALL_FAULTS);
    forall e | e in es ensures e.UnbindFromGroup? {
      UnbindMembersEmits(w, g, Members(w.rows, g), NO_UNBIND_ALL_FAULTS, e);
    }
    SafeAllowed(w, es);
    forall q ensures (q, g) !in PerformAll(w, es).bound {
      BoundAfterUnbinds(w, es, q, g);
      MembersContents(w.rows, g, q.user);
      UnbindMembersEmits(w, g, Members(w.rows, g), NO_UNBIND_ALL_FAULTS, UnbindFromGroup(q, g));
    }
  }

  lemma DeleteRowsIsSafe(w: World, row: Row)
    requires Coherent(w) && forall q :: (q, row.group) in w.bound ==> q.user != row.user
    ensures Coherent(Perform(w, DeleteRows(row)))
  {
    forall r ensures r in Without(w.rows, row) <==> r in w.rows && r != row {
      WithoutContents(w.rows, row, r);
    }
  }

  lemma DeleteGroupIsSafe(w: World, g: Id)
    requires Coherent(w) && forall q :: (q, g) !in w.bound
    ensures Coherent(Perform(w, DeleteGroupRows(g)))
  {
    forall r ensures r in WithoutGroup(w.rows, g) <==> r in w.rows && r.group != g {
      WithoutGroupContents(w.rows, g, r);
    }
  }

  // ---- Provisioning

  lemma ProvisionIsAllowed(w: World, q: Queue, f: ProvisionFaults)
    requires q.device in Devices(w, q.user)
    ensures var es := ProvisionDeviceQueue(w, q, f);
            AllBrokerOnly(es) && BindsAllowed(w, es) && forall e :: e in es ==> !e.UnbindFromGroup?
  {
    var es := ProvisionDeviceQueue(w, q, f);
    forall e | e in es
      ensures BrokerOnly(e) && !e.UnbindFromGroup? && (e.BindToGroup? ==> e.queue == q && IsMember(w, e.group, q.user))
    {
      var gs := GroupsOf(w, w.rows, q.user);
      BindGroupsEmits(q, gs, f.bind, e);
      if e.BindToGroup? {
        GroupsOfContents(w, w.rows, q.user, e.group);
      }
    }
  }

  // ---- The theorem for one operation

  /** Everything that an operation must unbind does get unbound. */
  predicate UnbindsSucceed(op: Op) {
    (op.RemoveMember? ==> op.unbindFaults == NO_UNBIND_FAULTS)
    && (op.DeleteGroup? ==> op.unbindAllFaults == NO_UNBIND_ALL_FAULTS)
  }

  lemma OperationIsSafe(w: World, op: Op)
    requires Coherent(w) && Admissible(w, op) && UnbindsSucceed(op)
    ensures SafeThroughout(w, Effects(w, op))
  {
    var es := Effects(w, op);
    match op
    case CreateGroup(_, _, _, _, _, _, _) => CreateGroupIsSafe(w, op);
    case DeleteGroup(g, _, _, deleteOk) =>
      if es != [] {
        UnbindAllClears(w, g);
        var front := UnbindAllFromGroup(w, g, NO_UNBIND_ALL_FAULTS);
        var w1 := PerformAll(w, front);
        DeleteGroupIsSafe(w1, g);
        hide Coherent, SafeThroughout, PerformAll, UnbindAllFromGroup, Perform;
        if deleteOk {
          SafeSingle(w1, DeleteGroupRows(g));
          SafeConcat(w, front, [DeleteGroupRows(g)]);
        } else {
          assert front + [] == front;
        }
      }
    case AddMember(g, caller, user, _, _, f) =>
      if es != [] {
        EnrolIsSafe(w, w, g, caller, user.value, f);
      }
    case RemoveMember(_, _, _, _, _) => RemoveMemberIsSafe(w, op);
    case RedeemInvite(g, caller, _, _, f) =>
      if es != [] {
        EnrolIsSafe(w, w, g, caller, caller, f);
      }
    case NewDevice(q) => SafeSingle(w, InsertDevice(q));
    case Provision(q, f) =>
      ProvisionIsAllowed(w, q, f);
      SafeAllowed(w, es);
  }

  lemma CreateGroupEffects(w: World, op: Op)
    requires op.CreateGroup? && op.name != "" && op.groupOk && op.ownerOk
    ensures Effects(w, op) == [InsertGroup(op.group, op.owner), InsertRow(Row(op.group, op.owner))]
                            + (BindUserToGroup(w, op.group, op.owner, op.ownerFaults)
                               + EnrolAll(w, op.group, op.owner, op.attempts))
  {
    hide BindUserToGroup, EnrolAll;
  }

  lemma CreateGroupIsSafe(w: World, op: Op)
    requires Coherent(w) && Admissible(w, op) && op.CreateGroup?
    ensures SafeThroughout(w, Effects(w, op))
  {
    var g, owner := op.group, op.owner;
    if op.name != "" && op.groupOk {
      var insert, row := InsertGroup(g, owner), InsertRow(Row(g, owner));
      hide Coherent, SafeThroughout, BindUserToGroup, EnrolAll, PerformAll;
      OwnerIsSafe(w, g, owner);
      SafeSingle(w, insert);
      if op.ownerOk {
        var w1 := Perform(w, insert);
        SafeSingle(w1, row);
        var w2 := Perform(w1, row);
        var rest := BindUserToGroup(w, g, owner, op.ownerFaults) + EnrolAll(w, g, owner, op.attempts);
        OwnerThenMembers(w, w2, g, owner, op.ownerFaults, op.attempts);
        hide Perform;
        PerformConcat(w, [insert], [row]);
        SafeConcat(w, [insert], [row]);
        assert [insert] + [row] == [insert, row];
        SafeConcat(w, [insert, row], rest);
        CreateGroupEffects(w, op);
        hide Effects;
      }
    }
  }

  lemma OwnerIsSafe(w: World, g: Id, owner: Id)
    requires Coherent(w) && g !in w.groups
    ensures var w1 := Perform(w, InsertGroup(g, owner));
            Coherent(w1) && Coherent(Perform(w1, InsertRow(Row(g, owner))))
  {
  }

  lemma OwnerThenMembers(w: World, w': World, g: Id, owner: Id, f: BindFaults, attempts: seq<Attempt>)
    requires Coherent(w') && w'.devices == w.devices && g in w'.groups && IsMember(w', g, owner)
    ensures SafeThroughout(w', BindUserToGroup(w, g, owner, f) + EnrolAll(w, g, owner, attempts))
  {
    var binds, enrol := BindUserToGroup(w, g, owner, f), EnrolAll(w, g, owner, attempts);
    BindUserIsAllowed(w, w', g, owner, f);
    SafeAllowed(w', binds);
    EnrolAllIsSafe(w, PerformAll(w', binds), g, owner, attempts);
    hide Coherent, SafeThroughout, BindUserToGroup, EnrolAll, PerformAll;
    SafeConcat(w', binds, enrol);
  }

  lemma RemoveMemberIsSafe(w: World, op: Op)
    requires Coherent(w) && op.RemoveMember? && UnbindsSucceed(op)
    ensures SafeThroughout(w, Effects(w, op))
  {
    var es := Effects(w, op);
    if es != [] {
      var g, user := op.group, op.target;
      var exit := Announce(g, if op.caller == user then Left else Removed, op.caller, user);
      var unbinds := UnbindUserFromGroup(w, g, user, NO_UNBIND_FAULTS);
      UnbindUserClears(w, g, user);
      SafeSingle(w, exit);
      var w1 := PerformAll(w, unbinds);
      DeleteRowsIsSafe(w1, Row(g, user));
      hide Coherent, SafeThroughout, PerformAll, UnbindUserFromGroup;
      SafeConcat(w, [exit], unbinds);
      PerformConcat(w, [exit], unbinds);
      if op.deleteOk {
        hide Perform;
        SafeSingle(w1, DeleteRows(Row(g, user)));
        SafeConcat(w, [exit] + unbinds, [DeleteRows(Row(g, user))]);
      } else {
        assert [exit] + unbinds + [] == [exit] + unbinds;
      }
    }
  }

  // ---- The theorem for whole runs

  /** An operation that stops after some of its effects. */
  datatype Attempted = Attempted(op: Op, done: nat)

  function Stopped(w: World, x: Attempted): seq<Effect> {
    var es := Effects(w, x.op);
    if x.done <= |es| then es[..x.done] else es
  }

  function RunOps(w: World, xs: seq<Attempted>): World {
    if xs == [] then w else
      var w' := RunOps(w, xs[..|xs| - 1]);
      PerformAll(w', Stopped(w', xs[|xs| - 1]))
  }

  ghost predicate AdmissibleRun(w: World, xs: seq<Attempted>) {
    xs == [] || (AdmissibleRun(w, xs[..|xs| - 1]) && Admissible(RunOps(w, xs[..|xs| - 1]), xs[|xs| - 1].op))
  }

  /** From the empty world, no run of possibly interrupted operations ever binds an outsider. */
  lemma {:induction false} NoOutsiderIsBound(xs: seq<Attempted>)
    requires AdmissibleRun(EMPTY_WORLD, xs) && forall x :: x in xs ==> UnbindsSucceed(x.op)
    ensures Coherent(RunOps(EMPTY_WORLD, xs))
  {
    if xs != [] {
      var n := |xs| - 1;
      assert forall x :: x in xs[..n] ==> x in xs;
      NoOutsiderIsBound(xs[..n]);
      var w := RunOps(EMPTY_WORLD, xs[..n]);
      var es := Effects(w, xs[n].op);
      OperationIsSafe(w, xs[n].op);
      hide Coherent, Effects, PerformAll;
      assert es[..|es|] == es;
    }
  }

  // ---- Exactly when a removal with failing unbinds leaves an outsider bound

  /** Whether the unbind of this device goes through. */
  predicate Unbinds(f: UnbindFaults, device: Id) {
    !f.list && !f.channel && device !in f.unbind
  }

  /** A completed removal keeps coherence exactly when every bound device of the target was unbound. */
  lemma RemovalCoherentIff(w: World, g: Id, caller: Id, target: Id, f: UnbindFaults)
    requires Coherent(w) && g in w.groups && (w.groups[g] == caller || caller == target)
    ensures Coherent(PerformAll(w, Effects(w, RemoveMember(g, caller, target, f, true))))
       <==> forall q :: (q, g) in w.bound && q.user == target ==> Unbinds(f, q.device)
  {
    var exit := [Announce(g, if caller == target then Left else Removed, caller, target)];
    var unbinds, row := UnbindUserFromGroup(w, g, target, f), Row(g, target);
    PerformConcat(w, exit + unbinds, [DeleteRows(row)]);
    PerformConcat(w, exit, unbinds);
    forall e ensures e in unbinds <==> e.UnbindFromGroup? && e.group == g && e.queue.user == target
                                       && e.queue.device in Devices(w, target) && Unbinds(f, e.queue.device) {
      UnbindDevicesEmits(target, g, Devices(w, target), f.unbind, e);
    }
    hide UnbindUserFromGroup;
    SafeAllowed(w, unbinds);
    assert exit[..0] == [];
    assert PerformAll(w, exit) == w;
    var w1 := PerformAll(w, unbinds);
    forall q ensures (q, g) in w1.bound && q.user == target <==> (q, g) in w.bound && q.user == target && !Unbinds(f, q.device) {
      BoundAfterUnbinds(w, unbinds, q, g);
    }
    assert [DeleteRows(row)][..0] == [];
    assert PerformAll(w1, [DeleteRows(row)]) == Perform(w1, DeleteRows(row));
    hide PerformAll, SafeThroughout;
    RemovalOfRows(w1, row);
  }

  lemma RemovalOfRows(w: World, row: Row)
    requires Coherent(w)
    ensures Coherent(Perform(w, DeleteRows(row))) <==> forall q :: (q, row.group) in w.bound ==> q.user != row.user
  {
    forall r ensures r in Without(w.rows, row) <==> r in w.rows && r != row {
      WithoutContents(w.rows, row, r);
    }
  }

  /** Whether DeleteGroup unbinds this queue. */
  predicate UnbindsInDelete(f: UnbindAllFaults, q: Queue) {
    !f.group && !f.channel && q.user !in f.list && q !in f.unbind
  }

  lemma UnbindAllEmits(w: World, g: Id, f: UnbindAllFaults, e: Effect)
    requires g in w.groups
    ensures e in UnbindAllFromGroup(w, g, f) <==>
            e.UnbindFromGroup? && e.group == g && IsMember(w, g, e.queue.user)
            && e.queue.device in Devices(w, e.queue.user) && UnbindsInDelete(f, e.queue)
  {
    UnbindMembersEmits(w, g, Members(w.rows, g), f, e);
    if e.UnbindFromGroup? {
      MembersContents(w.rows, g, e.queue.user);
    }
    hide UnbindMembers;
  }

  /** A deleted group leaves no outsider bound exactly when every queue bound to it was unbound. */
  lemma DeletionCoherentIff(w: World, g: Id, caller: Id, f: UnbindAllFaults)
    requires Coherent(w) && g in w.groups && w.groups[g] == caller
    ensures Coherent(PerformAll(w, Effects(w, DeleteGroup(g, caller, f, true))))
       <==> forall q :: (q, g) in w.bound ==> UnbindsInDelete(f, q)
  {
    var unbinds := UnbindAllFromGroup(w, g, f);
    forall e ensures e in unbinds <==> e.UnbindFromGroup? && e.group == g && IsMember(w, g, e.queue.user)
                                       && e.queue.device in Devices(w, e.queue.user) && UnbindsInDelete(f, e.queue) {
      UnbindAllEmits(w, g, f, e);
    }
    hide UnbindAllFromGroup;
    PerformConcat(w, unbinds, [DeleteGroupRows(g)]);
    SafeAllowed(w, unbinds);
    var w1 := PerformAll(w, unbinds);
    forall q ensures (q, g) in w1.bound <==> (q, g) in w.bound && !UnbindsInDelete(f, q) {
      BoundAfterUnbinds(w, unbinds, q, g);
    }
    assert [DeleteGroupRows(g)][..0] == [];
    assert PerformAll(w1, [DeleteGroupRows(g)]) == Perform(w1, DeleteGroupRows(g));
    hide PerformAll, SafeThroughout, UnbindsInDelete;
    DeletionOfRows(w1, g);
  }

  lemma DeletionOfRows(w: World, g: Id)
    requires Coherent(w)
    ensures Coherent(Perform(w, DeleteGroupRows(g))) <==> forall q :: (q, g) !in w.bound
  {
    forall r ensures r in WithoutGroup(w.rows, g) <==> r in w.rows && r.group != g {
      WithoutGroupContents(w.rows, g, r);
    }
    hide WithoutGroup;
  }
}
