/** What every operation and every call leaves in the tables and in the broker, under any failures. */
module GroupOutcomes {
  import opened Wrappers
  import opened Groups
  import opened GroupCoherence
  import opened GroupSafety
  import opened GroupDevices

  // ---- Single calls to the broker

  /** A failure for one device does not keep the others from being bound. */
  lemma BindUserUnderFailures(w: World, w1: World, g: Id, user: Id, f: BindFaults, q: Queue, h: Id)
    requires w1.devices == w.devices && IsMember(w1, g, user)
    ensures var w' := PerformAll(w1, BindUserToGroup(w, g, user, f));
            var reached := q.device in Devices(w, user) && !f.list && !f.channel && q.device !in f.declare && q.device !in f.bind;
            && SameTables(w1, w')
            && ((q, h) in w'.bound <==> (q, h) in w1.bound || (h == g && q.user == user && reached))
            && (reached && q.user == user ==> q in w'.declared)
  {
    var es := BindUserToGroup(w, g, user, f);
    BindUserIsAllowed(w, w1, g, user, f);
    BindDevicesEmits(user, g, Devices(w, user), f, BindToGroup(q, h));
    BindDevicesEmits(user, g, Devices(w, user), f, DeclareQueue(q));
    DeclaredAfter(w1, es, q);
    var reached := q.device in Devices(w, user) && !f.list && !f.channel && q.device !in f.declare && q.device !in f.bind;
    assert BindToGroup(q, h) in es <==> h == g && q.user == user && reached;
    hide BindUserToGroup;
    BrokerOnlyKeeps(w1, es);
    BoundAfterBinds(w1, es, q, h);
  }

  /** Nor from being unbound. */
  lemma UnbindUserUnderFailures(w: World, g: Id, user: Id, f: UnbindFaults, q: Queue, h: Id)
    ensures var w' := PerformAll(w, UnbindUserFromGroup(w, g, user, f));
            var reached := q.device in Devices(w, user) && !f.list && !f.channel && q.device !in f.unbind;
            && SameTables(w, w')
            && ((q, h) in w'.bound <==> (q, h) in w.bound && !(h == g && q.user == user && reached))
  {
    var es := UnbindUserFromGroup(w, g, user, f);
    forall e | e in es ensures e.UnbindFromGroup? {
      UnbindDevicesEmits(user, g, Devices(w, user), f.unbind, e);
    }
    UnbindDevicesEmits(user, g, Devices(w, user), f.unbind, UnbindFromGroup(q, h));
    hide UnbindDevices;
    UnbindsDevice(w, es, q);
    hide PerformAll;
  }

  lemma UnbindAllUnderFailures(w: World, g: Id, f: UnbindAllFaults, q: Queue, h: Id)
    requires g in w.groups
    ensures var w' := PerformAll(w, UnbindAllFromGroup(w, g, f));
            var reached := q.device in Devices(w, q.user) && !f.group && !f.channel && q.user !in f.list && q !in f.unbind;
            && SameTables(w, w')
            && ((q, h) in w'.bound <==> (q, h) in w.bound && !(h == g && IsMember(w, g, q.user) && reached))
  {
    var es := UnbindAllFromGroup(w, g, f);
    forall e | e in es ensures e.UnbindFromGroup? {
      UnbindAllEmits(w, g, f, e);
    }
    UnbindAllEmits(w, g, f, UnbindFromGroup(q, h));
    hide UnbindAllFromGroup;
    UnbindsDevice(w, es, q);
    hide PerformAll, IsMember;
  }

  lemma ProvisionEmitsIff(w: World, q: Queue, f: ProvisionFaults, p: Queue, h: Id)
    requires RowsHaveGroups(w)
    ensures var es, ready := ProvisionDeviceQueue(w, q, f), !f.channel && !f.declare;
            && (DeclareQueue(p) in es <==> p == q && ready)
            && (BindToUser(p) in es <==> p == q && ready && !f.bindUser)
            && (BindToGroup(p, h) in es <==>
                  p == q && IsMember(w, h, q.user) && ready && !f.bindUser && !f.list && h !in f.bind)
  {
    var gs := GroupsOf(w, w.rows, q.user);
    BindGroupsEmits(q, gs, f.bind, DeclareQueue(p));
    BindGroupsEmits(q, gs, f.bind, BindToUser(p));
    BindGroupsEmits(q, gs, f.bind, BindToGroup(p, h));
    GroupsOfContents(w, w.rows, q.user, h);
    hide BindGroups, GroupsOf, ProvisionSucceeds;
  }

  /** A provision declares, binds to the user, and binds to each of the user's groups whose bind succeeds. */
  lemma ProvisionUnderFailures(w: World, q: Queue, f: ProvisionFaults, p: Queue, h: Id)
    requires RowsHaveGroups(w)
    ensures var w', ready := PerformAll(w, ProvisionDeviceQueue(w, q, f)), !f.channel && !f.declare;
            var reached := ready && !f.bindUser && !f.list && h !in f.bind;
            && SameTables(w, w')
            && ((p, h) in w'.bound <==> (p, h) in w.bound || (p == q && IsMember(w, h, q.user) && reached))
            && (p in w'.declared <==> p in w.declared || (p == q && ready))
            && (p in w'.userBound <==> p in w.userBound || (p == q && ready && !f.bindUser))
  {
    var es := ProvisionDeviceQueue(w, q, f);
    ProvisionEmits(w, q, f);
    ProvisionEmitsIff(w, q, f, p, h);
    hide ProvisionDeviceQueue;
    BrokerOnlyKeeps(w, es);
    BoundAfterBinds(w, es, p, h);
    DeclaredAfter(w, es, p);
    hide PerformAll, AllBrokerOnly;
  }

  lemma {:induction false} DeclaredAfter(w: World, es: seq<Effect>, p: Queue)
    ensures p in PerformAll(w, es).declared <==> p in w.declared || DeclareQueue(p) in es
    ensures p in PerformAll(w, es).userBound <==> p in w.userBound || BindToUser(p) in es
  {
    if es != [] {
      DeclaredAfter(w, es[..|es| - 1], p);
      assert es == es[..|es| - 1] + [es[|es| - 1]];
    }
  }

  /** It reports success exactly when all its calls succeeded. */
  lemma ProvisionSucceedsIff(w: World, q: Queue, f: ProvisionFaults)
    requires RowsHaveGroups(w)
    ensures ProvisionSucceeds(w, q, f) <==>
            && !f.channel && !f.declare && !f.bindUser && !f.list
            && forall g :: IsMember(w, g, q.user) ==> g !in f.bind
  {
    forall g ensures g in GroupsOf(w, w.rows, q.user) <==> IsMember(w, g, q.user) {
      GroupsOfContents(w, w.rows, q.user, g);
    }
    hide GroupsOf;
  }

  /** Registering a device adds it to those of its user, and changes nothing else. */
  lemma NewDeviceIsListed(w: World, q: Queue, user: Id)
    ensures var w' := PerformAll(w, Effects(w, NewDevice(q)));
            && w'.(devices := w.devices) == w
            && Devices(w', user) == Devices(w, user) + if user == q.user then [q.device] else []
  {
    PerformOne(w, InsertDevice(q));
  }

  // ---- Who is a member afterwards

  /** Some entry of the list names the user, known to the server, and its row is inserted. */
  ghost predicate IsEnrolled(attempts: seq<Attempt>, user: Id) {
    exists i :: 0 <= i < |attempts| && attempts[i].user == Some(user) && attempts[i].known && attempts[i].rowOk
  }

  lemma EnrolTables(w0: World, w: World, g: Id, actor: Id, user: Id, f: BindFaults)
    requires w.devices == w0.devices
    ensures var w' := PerformAll(w, Enrol(w0, g, actor, user, f));
            w'.groups == w.groups && w'.devices == w.devices && w'.rows == w.rows + [Row(g, user)]
  {
    var w1 := Perform(w, InsertRow(Row(g, user)));
    EnrolPerforms(w0, w, g, actor, user, f);
    BindUserIsAllowed(w0, w1, g, user, f);
    hide BindUserToGroup;
    BrokerOnlyKeeps(w1, BindUserToGroup(w0, g, user, f));
  }

  lemma {:induction false} EnrolAllTables(w0: World, w: World, g: Id, owner: Id, attempts: seq<Attempt>)
    requires w.devices == w0.devices
    ensures var w' := PerformAll(w, EnrolAll(w0, g, owner, attempts));
            && w'.groups == w.groups && w'.devices == w.devices
            && forall h, u :: IsMember(w', h, u) <==> IsMember(w, h, u) || (h == g && IsEnrolled(attempts, u))
  {
    if attempts != [] {
      var n := |attempts| - 1;
      var front, a := EnrolAll(w0, g, owner, attempts[..n]), attempts[n];
      var w1, w' := PerformAll(w, front), PerformAll(w, EnrolAll(w0, g, owner, attempts));
      EnrolAllTables(w0, w, g, owner, attempts[..n]);
      EnrolledMore(attempts[..n], a);
      TryEnrolTables(w0, w1, g, owner, a);
      PerformConcat(w, front, TryEnrol(w0, g, owner, a));
      assert w' == PerformAll(w1, TryEnrol(w0, g, owner, a));
      assert attempts[..n] + [a] == attempts;
      hide IsEnrolled, TryEnrol, EnrolAll, PerformAll, IsMember;
      forall h, u ensures IsMember(w', h, u) <==> IsMember(w, h, u) || (h == g && IsEnrolled(attempts, u)) {
        assert IsEnrolled(attempts, u) <==> IsEnrolled(attempts[..n], u) || (a.user == Some(u) && a.known && a.rowOk);
      }
    }
  }

  lemma TryEnrolTables(w0: World, w: World, g: Id, owner: Id, a: Attempt)
    requires w.devices == w0.devices
    ensures var w' := PerformAll(w, TryEnrol(w0, g, owner, a));
            && w'.groups == w.groups && w'.devices == w.devices
            && forall h, u :: IsMember(w', h, u) <==>
                 IsMember(w, h, u) || (h == g && a.user == Some(u) && a.known && a.rowOk)
  {
    if a.user.Some? && a.known && a.rowOk {
      EnrolTables(w0, w, g, owner, a.user.value, a.faults);
      hide Enrol, PerformAll;
    }
  }

  lemma EnrolledMore(attempts: seq<Attempt>, a: Attempt)
    ensures forall u :: IsEnrolled(attempts + [a], u) <==>
              IsEnrolled(attempts, u) || (a.user == Some(u) && a.known && a.rowOk)
  {
    var more := attempts + [a];
    forall u ensures IsEnrolled(more, u) <==> IsEnrolled(attempts, u) || (a.user == Some(u) && a.known && a.rowOk) {
      if i :| 0 <= i < |attempts| && attempts[i].user == Some(u) && attempts[i].known && attempts[i].rowOk {
        assert more[i] == attempts[i];
      }
      assert more[|attempts|] == a;
    }
  }

  /** A new group has its owner and exactly the listed users who could be enrolled as members. */
  lemma CreateGroupEnrols(w: World, op: Op)
    requires RowsHaveGroups(w) && op.CreateGroup? && op.group !in w.groups
    ensures var w' := PerformAll(w, Effects(w, op));
            if op.name == "" || !op.groupOk then w' == w
            else if !op.ownerOk then w'.groups == w.groups[op.group := op.owner] && w'.rows == w.rows
            else
              && w'.groups == w.groups[op.group := op.owner]
              && (forall u :: IsMember(w', op.group, u) <==> u == op.owner || IsEnrolled(op.attempts, u))
              && (forall h, u :: h != op.group ==> (IsMember(w', h, u) <==> IsMember(w, h, u)))
  {
    if op.name != "" && op.groupOk {
      var g, owner := op.group, op.owner;
      var insert, row := InsertGroup(g, owner), InsertRow(Row(g, owner));
      assert forall u :: !IsMember(w, g, u);
      PerformOne(w, insert);
      if op.ownerOk {
        var w1 := Perform(Perform(w, insert), row);
        var binds, enrol := BindUserToGroup(w, g, owner, op.ownerFaults), EnrolAll(w, g, owner, op.attempts);
        CreateGroupEffects(w, op);
        assert PerformAll(w, [insert, row]) == w1 by { assert [insert, row][..1] == [insert]; }
        BindUserIsAllowed(w, w1, g, owner, op.ownerFaults);
        hide BindUserToGroup, EnrolAll, Effects, RowsHaveGroups, IsEnrolled;
        BrokerOnlyKeeps(w1, binds);
        EnrolAllTables(w, PerformAll(w1, binds), g, owner, op.attempts);
        hide PerformAll;
        assert [insert, row] + (binds + enrol) == [insert, row] + binds + enrol;
        PerformConcat(w, [insert, row], binds);
        PerformConcat(w, [insert, row] + binds, enrol);
      }
    }
  }

  /** Only a member adds a member, and the user must parse and be known. */
  lemma AddMemberEnrols(w: World, op: Op)
    requires op.AddMember?
    ensures var w' := PerformAll(w, Effects(w, op));
            var allowed := Row(op.group, op.caller) in w.rows && op.user.Some? && op.known && op.rowOk && op.group in w.groups;
            && (!allowed ==> w' == w)
            && (allowed ==> w'.groups == w.groups && w'.rows == w.rows + [Row(op.group, op.user.value)])
  {
    if op.user.Some? {
      EnrolTables(w, w, op.group, op.caller, op.user.value, op.faults);
    }
    hide Enrol;
  }

  /** An invite that is unknown, past its expiry, used up or cannot be counted changes nothing. */
  lemma RedeemInviteEnrols(w: World, op: Op)
    requires op.RedeemInvite?
    ensures var w', i := PerformAll(w, Effects(w, op)), op.invite;
            var refused := !i.found || (i.expiresAt.Some? && i.now > i.expiresAt.value) || i.useCount >= i.maxUses || !i.countOk;
            var allowed := !refused && op.rowOk && op.group in w.groups;
            && (!allowed ==> w' == w)
            && (allowed ==> w'.groups == w.groups && w'.rows == w.rows + [Row(op.group, op.caller)])
  {
    EnrolTables(w, w, op.group, op.caller, op.caller, op.faults);
    hide Enrol;
  }

  /** The owner removes anybody, and everybody else only themselves; nobody else's membership changes. */
  lemma RemoveMemberRemoves(w: World, op: Op)
    requires op.RemoveMember?
    ensures var w', g := PerformAll(w, Effects(w, op)), op.group;
            var allowed := g in w.groups && (w.groups[g] == op.caller || op.caller == op.target);
            && (!allowed ==> w' == w) && w'.groups == w.groups && w'.devices == w.devices
            && forall h, u :: IsMember(w', h, u) <==> IsMember(w, h, u) && !(allowed && op.deleteOk && h == g && u == op.target)
  {
    if Effects(w, op) != [] {
      var row := Row(op.group, op.target);
      RemoveMemberPerforms(w, op);
      UnbindUserUnderFailures(w, op.group, op.target, op.unbindFaults, Queue("", ""), "");
      forall r ensures r in Without(w.rows, row) <==> r in w.rows && r != row {
        WithoutContents(w.rows, row, r);
      }
      hide Without, PerformAll, UnbindUserFromGroup;
    }
  }

  /** Only the owner deletes a group, with all its memberships and no other. */
  lemma DeleteGroupRemoves(w: World, op: Op)
    requires op.DeleteGroup?
    ensures var w', g := PerformAll(w, Effects(w, op)), op.group;
            var allowed := g in w.groups && w.groups[g] == op.caller;
            && (!allowed ==> w' == w) && w'.devices == w.devices
            && w'.groups == (if allowed && op.deleteOk then w.groups - {g} else w.groups)
            && forall h, u :: IsMember(w', h, u) <==> IsMember(w, h, u) && !(allowed && op.deleteOk && h == g)
  {
    var g := op.group;
    if g in w.groups && w.groups[g] == op.caller {
      var unbinds, rest := UnbindAllFromGroup(w, g, op.unbindAllFaults), if op.deleteOk then [DeleteGroupRows(g)] else [];
      UnbindAllUnderFailures(w, g, op.unbindAllFaults, Queue("", ""), "");
      forall r ensures r in WithoutGroup(w.rows, g) <==> r in w.rows && r.group != g {
        WithoutGroupContents(w.rows, g, r);
      }
      assert Effects(w, op) == unbinds + rest;
      hide Effects, WithoutGroup, UnbindAllFromGroup;
      PerformConcat(w, unbinds, rest);
      PerformOne(PerformAll(w, unbinds), DeleteGroupRows(g));
      PerformNone(PerformAll(w, unbinds));
      hide PerformAll;
    }
  }

  // ---- Who is announced

  lemma EnrolAnnounces(w: World, g: Id, actor: Id, user: Id, f: BindFaults, e: Effect)
    requires e.Announce?
    ensures e in Enrol(w, g, actor, user, f) <==> e == Announce(g, Joined, actor, user)
  {
    BindUserIsAllowedQuiet(w, g, user, f);
    hide BindUserToGroup;
  }

  lemma BindUserIsAllowedQuiet(w: World, g: Id, user: Id, f: BindFaults)
    ensures forall e :: e in BindUserToGroup(w, g, user, f) ==> !e.Announce?
  {
    forall e | e in BindUserToGroup(w, g, user, f) ensures !e.Announce? {
      BindDevicesEmits(user, g, Devices(w, user), f, e);
    }
  }

  lemma {:induction false} EnrolAllAnnounces(w: World, g: Id, owner: Id, attempts: seq<Attempt>, e: Effect)
    requires e.Announce?
    ensures e in EnrolAll(w, g, owner, attempts) <==>
            e.group == g && e.kind == Joined && e.actor == owner && IsEnrolled(attempts, e.subject)
  {
    if attempts != [] {
      var n := |attempts| - 1;
      var a := attempts[n];
      EnrolAllAnnounces(w, g, owner, attempts[..n], e);
      EnrolledMore(attempts[..n], a);
      assert attempts == attempts[..n] + [a];
      if a.user.Some? {
        EnrolAnnounces(w, g, owner, a.user.value, a.faults, e);
      }
      hide IsEnrolled, Enrol;
    }
  }

  /** Creating a group announces every enrolled user, by the owner, and nothing else. */
  lemma CreateGroupAnnounces(w: World, op: Op, e: Effect)
    requires op.CreateGroup? && op.name != "" && op.groupOk && op.ownerOk && e.Announce?
    ensures e in Effects(w, op) <==>
            e.group == op.group && e.kind == Joined && e.actor == op.owner && IsEnrolled(op.attempts, e.subject)
  {
    CreateGroupEffects(w, op);
    EnrolAllAnnounces(w, op.group, op.owner, op.attempts, e);
    BindUserIsAllowedQuiet(w, op.group, op.owner, op.ownerFaults);
    hide Effects, BindUserToGroup, EnrolAll, IsEnrolled;
  }

  /** Adding a member and redeeming an invite announce the new member, and nothing else, exactly if there is one. */
  lemma JoinAnnounces(w: World, op: Op, e: Effect)
    requires (op.AddMember? || op.RedeemInvite?) && e.Announce?
    ensures var user := if op.AddMember? then op.user else Some(op.caller);
            e in Effects(w, op) <==> Effects(w, op) != [] && user.Some? && e == Announce(op.group, Joined, op.caller, user.value)
  {
    if op.AddMember? && op.user.Some? {
      EnrolAnnounces(w, op.group, op.caller, op.user.value, op.faults, e);
    } else if op.RedeemInvite? {
      EnrolAnnounces(w, op.group, op.caller, op.caller, op.faults, e);
    }
    hide Enrol;
  }

  /** An exit that is allowed is announced, by the caller and as what it is; nothing else is, nor is a deletion. */
  lemma ExitAnnounces(w: World, op: Op, e: Effect)
    requires (op.RemoveMember? || op.DeleteGroup?) && e.Announce?
    ensures e in Effects(w, op) <==>
            && op.RemoveMember? && op.group in w.groups && (w.groups[op.group] == op.caller || op.caller == op.target)
            && e.group == op.group && e.actor == op.caller && e.subject == op.target
            && (if op.caller == op.target then e.kind == Left else e.kind == Removed)
  {
    if op.RemoveMember? {
      UnbindDevicesEmits(op.target, op.group, Devices(w, op.target), op.unbindFaults.unbind, e);
    } else if op.group in w.groups {
      UnbindAllEmits(w, op.group, op.unbindAllFaults, e);
      hide UnbindAllFromGroup;
    }
    hide UnbindDevices;
  }
}
