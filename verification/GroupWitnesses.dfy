/** Runs in which a failed unbind leaves a queue bound to a group whose members its user is not among. */
module GroupWitnesses {
  import opened Groups
  import opened GroupCoherence
  import opened GroupSafety

  function Registered(q: Queue): World {
    EMPTY_WORLD.(devices := map[q.user := [q.device]])
  }

  function Founded(q: Queue, g: Id): World {
    Registered(q).(groups := map[g := q.user], rows := [Row(g, q.user)], declared := {q}, bound := {(q, g)})
  }

  function Found(q: Queue, g: Id): Op {
    CreateGroup("name", g, q.user, true, true, NO_BIND_FAULTS, [])
  }

  /** A user with one device creates a group of one, and then leaves or deletes it. */
  function History(q: Queue, g: Id, last: Op): seq<Attempted> {
    [Attempted(NewDevice(q), 9)] + [Attempted(Found(q, g), 9)] + [Attempted(last, 9)]
  }

  /** The last operation: opening the channel for its unbinds fails, deleting its rows does not. */
  predicate LeavesOrDeletes(q: Queue, g: Id, last: Op) {
    || last == RemoveMember(g, q.user, q.user, UnbindFaults(false, true, {}), true)
    || last == DeleteGroup(g, q.user, UnbindAllFaults(false, true, {}, {}), true)
  }

  lemma PerformNext(w: World, es: seq<Effect>, e: Effect)
    ensures PerformAll(w, es + [e]) == Perform(PerformAll(w, es), e)
  {
    assert (es + [e])[..|es|] == es;
  }

  lemma RunNext(w: World, xs: seq<Attempted>, x: Attempted)
    requires AdmissibleRun(w, xs) && Admissible(RunOps(w, xs), x.op)
    ensures AdmissibleRun(w, xs + [x])
    ensures RunOps(w, xs + [x]) == PerformAll(RunOps(w, xs), Stopped(RunOps(w, xs), x))
  {
    assert (xs + [x])[..|xs|] == xs;
  }

  lemma Registers(q: Queue)
    ensures PerformAll(EMPTY_WORLD, Effects(EMPTY_WORLD, NewDevice(q))) == Registered(q)
  {
    PerformNext(EMPTY_WORLD, [], InsertDevice(q));
    assert [] + [InsertDevice(q)] == [InsertDevice(q)] && Devices(EMPTY_WORLD, q.user) + [q.device] == [q.device];
  }

  lemma Founds(q: Queue, g: Id)
    ensures PerformAll(Registered(q), Effects(Registered(q), Found(q, g))) == Founded(q, g)
  {
    var w, a, b, c, d := Registered(q), InsertGroup(g, q.user), InsertRow(Row(g, q.user)), DeclareQueue(q), BindToGroup(q, g);
    FoundsEffects(q, g);
    PerformNext(w, [], a);
    PerformNext(w, [] + [a], b);
    PerformNext(w, [] + [a] + [b], c);
    PerformNext(w, [] + [a] + [b] + [c], d);
    assert w.rows + [Row(g, q.user)] == [Row(g, q.user)];
    hide Effects, PerformAll;
  }

  lemma FoundsEffects(q: Queue, g: Id)
    ensures Effects(Registered(q), Found(q, g))
         == [] + [InsertGroup(g, q.user)] + [InsertRow(Row(g, q.user))] + [DeclareQueue(q)] + [BindToGroup(q, g)]
  {
    var ds := [q.device];
    assert ds[..0] == [];
    assert BindDevices(q.user, g, ds, NO_BIND_FAULTS) == [] + BindDevice(q.user, g, q.device, NO_BIND_FAULTS);
  }

  lemma LeaveEffects(q: Queue, g: Id)
    ensures Effects(Founded(q, g), RemoveMember(g, q.user, q.user, UnbindFaults(false, true, {}), true))
         == [] + [Announce(g, Left, q.user, q.user)] + [DeleteRows(Row(g, q.user))]
  {
    hide UnbindDevices;
  }

  lemma DeleteEffects(q: Queue, g: Id)
    ensures Effects(Founded(q, g), DeleteGroup(g, q.user, UnbindAllFaults(false, true, {}, {}), true))
         == [] + [DeleteGroupRows(g)]
  {
    hide UnbindMembers;
  }

  lemma RowsGone(w: World, w': World, q: Queue, g: Id, e: Effect)
    requires w' == Perform(w, e) && (q, g) in w.bound && (e == DeleteRows(Row(g, q.user)) || e == DeleteGroupRows(g))
    ensures (q, g) in w'.bound && !IsMember(w', g, q.user)
  {
    WithoutGroupContents(w.rows, g, Row(g, q.user));
    WithoutContents(w.rows, Row(g, q.user), Row(g, q.user));
    hide Without, WithoutGroup;
  }

  lemma LastLeavesBound(q: Queue, g: Id, last: Op)
    requires LeavesOrDeletes(q, g, last)
    ensures var w := PerformAll(Founded(q, g), Effects(Founded(q, g), last));
            (q, g) in w.bound && !IsMember(w, g, q.user)
  {
    var w, exit := Founded(q, g), Announce(g, Left, q.user, q.user);
    LeaveEffects(q, g);
    DeleteEffects(q, g);
    assert PerformAll(w, []) == w && Perform(w, exit) == w && (q, g) in w.bound;
    hide Effects, PerformAll, Founded, IsMember, Perform;
    if last.DeleteGroup? {
      PerformNext(w, [], DeleteGroupRows(g));
      RowsGone(w, Perform(w, DeleteGroupRows(g)), q, g, DeleteGroupRows(g));
    } else {
      var gone := DeleteRows(Row(g, q.user));
      PerformNext(w, [], exit);
      PerformNext(w, [] + [exit], gone);
      RowsGone(w, Perform(w, gone), q, g, gone);
    }
  }

  lemma NotCutShort(w: World, op: Op)
    requires |Effects(w, op)| < 9
    ensures Stopped(w, Attempted(op, 9)) == Effects(w, op)
  {
    hide Effects;
  }

  lemma StrayBinding(w: World, q: Queue, g: Id)
    requires (q, g) in w.bound && !IsMember(w, g, q.user)
    ensures !Coherent(w)
  {
  }

  lemma AllAdmissible(q: Queue, g: Id, last: Op)
    requires LeavesOrDeletes(q, g, last)
    ensures Admissible(EMPTY_WORLD, NewDevice(q)) && Admissible(Registered(q), Found(q, g)) && Admissible(Founded(q, g), last)
  {
  }

  /** The run up to the last operation. */
  lemma FoundingRun(q: Queue, g: Id)
    ensures var xs := [] + [Attempted(NewDevice(q), 9)] + [Attempted(Found(q, g), 9)];
            AdmissibleRun(EMPTY_WORLD, xs) && RunOps(EMPTY_WORLD, xs) == Founded(q, g)
  {
    var last := DeleteGroup(g, q.user, UnbindAllFaults(false, true, {}, {}), true);
    EmptyRun();
    AllAdmissible(q, g, last);
    FewEffects(q, g, last);
    NotCutShort(EMPTY_WORLD, NewDevice(q));
    NotCutShort(Registered(q), Found(q, g));
    Registers(q);
    Founds(q, g);
    hide *;
    RunNext(EMPTY_WORLD, [], Attempted(NewDevice(q), 9));
    RunNext(EMPTY_WORLD, [] + [Attempted(NewDevice(q), 9)], Attempted(Found(q, g), 9));
  }

  /** After leaving or deleting with a failed unbind, an outsider's queue is still bound. */
  lemma FailedUnbindLeavesOutsider(q: Queue, g: Id, last: Op)
    requires LeavesOrDeletes(q, g, last)
    ensures AdmissibleRun(EMPTY_WORLD, History(q, g, last))
    ensures var w := RunOps(EMPTY_WORLD, History(q, g, last));
            (q, g) in w.bound && !IsMember(w, g, q.user) && !Coherent(w)
  {
    var xs := [] + [Attempted(NewDevice(q), 9)] + [Attempted(Found(q, g), 9)];
    assert History(q, g, last) == xs + [Attempted(last, 9)];
    FoundingRun(q, g);
    AllAdmissible(q, g, last);
    FewEffects(q, g, last);
    NotCutShort(Founded(q, g), last);
    LastLeavesBound(q, g, last);
    StrayBinding(PerformAll(Founded(q, g), Effects(Founded(q, g), last)), q, g);
    hide *;
    RunNext(EMPTY_WORLD, xs, Attempted(last, 9));
  }

  lemma EmptyRun()
    ensures AdmissibleRun(EMPTY_WORLD, []) && RunOps(EMPTY_WORLD, []) == EMPTY_WORLD
  {
  }

  /** None of the three operations is cut short. */
  lemma FewEffects(q: Queue, g: Id, last: Op)
    requires LeavesOrDeletes(q, g, last)
    ensures |Effects(EMPTY_WORLD, NewDevice(q))| < 9 && |Effects(Registered(q), Found(q, g))| < 9
    ensures |Effects(Founded(q, g), last)| < 9
  {
    FoundsEffects(q, g);
    LeaveEffects(q, g);
    DeleteEffects(q, g);
    hide BindUserToGroup, UnbindAllFromGroup, UnbindUserFromGroup, EnrolAll;
  }
}
