/** The broker's group bindings agree with the membership rows. */
module GroupCoherence {
  import opened Groups

  // ---- The two invariants

  ghost predicate RowsHaveGroups(w: World) {
    forall row :: row in w.rows ==> row.group in w.groups
  }

  /** A bound queue belongs to a registered device of a current member. */
  ghost predicate BoundAreMembers(w: World) {
    forall q, g :: (q, g) in w.bound ==> IsMember(w, g, q.user) && q.device in Devices(w, q.user)
  }

  ghost predicate Coherent(w: World) {
    RowsHaveGroups(w) && BoundAreMembers(w)
  }

  ghost predicate ProvisionedAreBound(w: World) {
    && (forall q :: q in w.provisioned ==> q.device in Devices(w, q.user) && q in w.declared && q in w.userBound)
    && (forall q, g :: q in w.provisioned && IsMember(w, g, q.user) ==> (q, g) in w.bound)
  }

  /** For a provisioned device, bound and being a member are the same thing. */
  ghost predicate Exact(w: World) {
    Coherent(w) && ProvisionedAreBound(w)
  }

  // ---- Tables

  lemma {:induction false} WithoutContents(rows: seq<Row>, row: Row, r: Row)
    ensures r in Without(rows, row) <==> r in rows && r != row
  {
    if rows != [] {
      WithoutContents(rows[..|rows| - 1], row, r);
      assert rows == rows[..|rows| - 1] + [rows[|rows| - 1]];
    }
  }

  lemma {:induction false} WithoutGroupContents(rows: seq<Row>, group: Id, r: Row)
    ensures r in WithoutGroup(rows, group) <==> r in rows && r.group != group
  {
    if rows != [] {
      WithoutGroupContents(rows[..|rows| - 1], group, r);
      assert rows == rows[..|rows| - 1] + [rows[|rows| - 1]];
    }
  }

  lemma {:induction false} MembersContents(rows: seq<Row>, group: Id, user: Id)
    ensures user in Members(rows, group) <==> Row(group, user) in rows
  {
    if rows != [] {
      MembersContents(rows[..|rows| - 1], group, user);
      assert rows == rows[..|rows| - 1] + [rows[|rows| - 1]];
    }
  }

  lemma {:induction false} GroupsOfContents(w: World, rows: seq<Row>, user: Id, group: Id)
    ensures group in GroupsOf(w, rows, user) <==> Row(group, user) in rows && group in w.groups
  {
    if rows != [] {
      GroupsOfContents(w, rows[..|rows| - 1], user, group);
      assert rows == rows[..|rows| - 1] + [rows[|rows| - 1]];
    }
  }

  // ---- Effect lists

  lemma {:induction false} PerformConcat(w: World, a: seq<Effect>, b: seq<Effect>)
    ensures PerformAll(w, a + b) == PerformAll(PerformAll(w, a), b)
  {
    if b == [] {
      assert a + b == a;
    } else {
      assert (a + b)[..|a + b| - 1] == a + b[..|b| - 1];
      PerformConcat(w, a, b[..|b| - 1]);
    }
  }

  /** Effects that touch bindings and queues but no table. */
  predicate BrokerOnly(e: Effect) {
    e.DeclareQueue? || e.BindToUser? || e.BindToGroup? || e.UnbindFromGroup? || e.Provisioned? || e.Announce?
  }

  ghost predicate SameTables(w: World, w': World) {
    w'.groups == w.groups && w'.rows == w.rows && w'.devices == w.devices
  }

  ghost predicate AllBrokerOnly(es: seq<Effect>) {
    forall e :: e in es ==> BrokerOnly(e)
  }

  /** Every binding in the list is allowed by the tables. */
  ghost predicate BindsAllowed(w: World, es: seq<Effect>) {
    forall q, g :: BindToGroup(q, g) in es ==> IsMember(w, g, q.user) && q.device in Devices(w, q.user)
  }

  lemma {:induction false} BrokerOnlyKeeps(w: World, es: seq<Effect>)
    requires AllBrokerOnly(es)
    ensures SameTables(w, PerformAll(w, es))
  {
    if es != [] {
      assert es == es[..|es| - 1] + [es[|es| - 1]] && BrokerOnly(es[|es| - 1]);
      BrokerOnlyKeeps(w, es[..|es| - 1]);
    }
  }

  /** Allowed bindings and any unbindings keep coherence, in whatever order and number. */
  lemma {:induction false} AllowedKeepsCoherent(w: World, es: seq<Effect>)
    requires Coherent(w) && AllBrokerOnly(es) && BindsAllowed(w, es)
    ensures Coherent(PerformAll(w, es)) && SameTables(w, PerformAll(w, es))
  {
    if es != [] {
      var front, e := es[..|es| - 1], es[|es| - 1];
      assert es == front + [e] && e in es && BrokerOnly(e);
      AllowedKeepsCoherent(w, front);
    }
  }

  // ---- What the bindings are after a list of broker effects

  lemma {:induction false} BoundAfterBinds(w: World, es: seq<Effect>, q: Queue, g: Id)
    requires AllBrokerOnly(es) && forall e :: e in es ==> !e.UnbindFromGroup?
    ensures (q, g) in PerformAll(w, es).bound <==> (q, g) in w.bound || BindToGroup(q, g) in es
  {
    if es != [] {
      BoundAfterBinds(w, es[..|es| - 1], q, g);
      assert es == es[..|es| - 1] + [es[|es| - 1]];
    }
  }

  lemma {:induction false} BoundAfterUnbinds(w: World, es: seq<Effect>, q: Queue, g: Id)
    requires AllBrokerOnly(es) && forall e :: e in es ==> !e.BindToGroup?
    ensures (q, g) in PerformAll(w, es).bound <==> (q, g) in w.bound && UnbindFromGroup(q, g) !in es
  {
    if es != [] {
      BoundAfterUnbinds(w, es[..|es| - 1], q, g);
      assert es == es[..|es| - 1] + [es[|es| - 1]];
    }
  }

  lemma {:induction false} ProvisionedAfter(w: World, es: seq<Effect>, q: Queue)
    ensures q in PerformAll(w, es).provisioned <==> q in w.provisioned || Provisioned(q) in es
    ensures w.declared <= PerformAll(w, es).declared && w.userBound <= PerformAll(w, es).userBound
    ensures DeclareQueue(q) in es ==> q in PerformAll(w, es).declared
    ensures BindToUser(q) in es ==> q in PerformAll(w, es).userBound
  {
    if es != [] {
      ProvisionedAfter(w, es[..|es| - 1], q);
      assert es == es[..|es| - 1] + [es[|es| - 1]];
    }
  }

  // ---- What each loop emits

  lemma {:induction false} BindDevicesEmits(user: Id, g: Id, ds: seq<Id>, f: BindFaults, e: Effect)
    ensures e in BindDevices(user, g, ds, f) <==>
            || (e.DeclareQueue? && e.queue.user == user && e.queue.device in ds && e.queue.device !in f.declare)
            || (e.BindToGroup? && e.group == g && e.queue.user == user && e.queue.device in ds
                && e.queue.device !in f.declare && e.queue.device !in f.bind)
  {
    if ds != [] {
      BindDevicesEmits(user, g, ds[..|ds| - 1], f, e);
      assert ds == ds[..|ds| - 1] + [ds[|ds| - 1]];
    }
  }

  lemma {:induction false} UnbindDevicesEmits(user: Id, g: Id, ds: seq<Id>, fails: set<Id>, e: Effect)
    ensures e in UnbindDevices(user, g, ds, fails) <==>
            e.UnbindFromGroup? && e.group == g && e.queue.user == user && e.queue.device in ds && e.queue.device !in fails
  {
    if ds != [] {
      UnbindDevicesEmits(user, g, ds[..|ds| - 1], fails, e);
      assert ds == ds[..|ds| - 1] + [ds[|ds| - 1]];
    }
  }

  lemma {:induction false} UnbindMembersEmits(w: World, g: Id, users: seq<Id>, f: UnbindAllFaults, e: Effect)
    ensures e in UnbindMembers(w, g, users, f) <==>
            e.UnbindFromGroup? && e.group == g && e.queue.user in users && e.queue.user !in f.list
            && e.queue.device in Devices(w, e.queue.user) && e.queue !in f.unbind
  {
    if users != [] {
      var u := users[|users| - 1];
      UnbindMembersEmits(w, g, users[..|users| - 1], f, e);
      UnbindDevicesEmits(u, g, Devices(w, u), FailingDevices(u, Devices(w, u), f.unbind), e);
      assert users == users[..|users| - 1] + [u];
      assert e.UnbindFromGroup? && e.queue.user == u ==> e.queue == Queue(u, e.queue.device);
    }
  }

  lemma {:induction false} BindGroupsEmits(q: Queue, gs: seq<Id>, fails: set<Id>, e: Effect)
    ensures e in BindGroups(q, gs, fails) <==> e.BindToGroup? && e.queue == q && e.group in gs && e.group !in fails
  {
    if gs != [] {
      BindGroupsEmits(q, gs[..|gs| - 1], fails, e);
      assert gs == gs[..|gs| - 1] + [gs[|gs| - 1]];
    }
  }
}
