/**
 Group membership in the database and group bindings in the broker. Every operation is the ordered
 list of effects it performs under given faults; it may stop after any of them.
 */
module Groups {
  import opened Wrappers

  type Id = string

  datatype Queue = Queue(user: Id, device: Id)
  datatype Row = Row(group: Id, user: Id)
  datatype EventKind = Joined | Left | Removed

  /**
   The tables groups (group to owner), group_members and user_devices, and the broker's queues and
   bindings. provisioned is history: the queues whose ProvisionDeviceQueue has succeeded once.
   */
  datatype World = World(
    groups: map<Id, Id>,
    rows: seq<Row>,
    devices: map<Id, seq<Id>>,
    declared: set<Queue>,
    userBound: set<Queue>,
    bound: set<(Queue, Id)>,
    provisioned: set<Queue>)

  const EMPTY_WORLD := World(map[], [], map[], {}, {}, {}, {})

  function Devices(w: World, user: Id): seq<Id> {
    if user in w.devices then w.devices[user] else []
  }

  predicate IsMember(w: World, group: Id, user: Id) {
    Row(group, user) in w.rows
  }

  // ---- Effects

  datatype Effect =
    | InsertGroup(group: Id, owner: Id)
    | InsertRow(row: Row)
    | DeleteRows(row: Row)
    | DeleteGroupRows(group: Id)
    | InsertDevice(queue: Queue)
    | DeclareQueue(queue: Queue)
    | BindToUser(queue: Queue)
    | BindToGroup(queue: Queue, group: Id)
    | UnbindFromGroup(queue: Queue, group: Id)
    | Provisioned(queue: Queue)
    | Announce(group: Id, kind: EventKind, actor: Id, subject: Id)

  function Without(rows: seq<Row>, row: Row): seq<Row> {
    if rows == [] then []
    else Without(rows[..|rows| - 1], row) + (if rows[|rows| - 1] == row then [] else [rows[|rows| - 1]])
  }

  function WithoutGroup(rows: seq<Row>, group: Id): seq<Row> {
    if rows == [] then []
    else WithoutGroup(rows[..|rows| - 1], group) + (if rows[|rows| - 1].group == group then [] else [rows[|rows| - 1]])
  }

  function Perform(w: World, e: Effect): World {
    match e
    case InsertGroup(g, owner) => w.(groups := w.groups[g := owner])
    case InsertRow(row) => w.(rows := w.rows + [row])
    case DeleteRows(row) => w.(rows := Without(w.rows, row))
    case DeleteGroupRows(g) => w.(rows := WithoutGroup(w.rows, g), groups := w.groups - {g})
    case InsertDevice(q) => w.(devices := w.devices[q.user := Devices(w, q.user) + [q.device]])
    case DeclareQueue(q) => w.(declared := w.declared + {q})
    case BindToUser(q) => w.(userBound := w.userBound + {q})
    case BindToGroup(q, g) => w.(bound := w.bound + {(q, g)})
    case UnbindFromGroup(q, g) => w.(bound := w.bound - {(q, g)})
    case Provisioned(q) => w.(provisioned := w.provisioned + {q})
    case Announce(_, _, _, _) => w
  }

  function PerformAll(w: World, es: seq<Effect>): World {
    if es == [] then w else Perform(PerformAll(w, es[..|es| - 1]), es[|es| - 1])
  }

  // ---- Which calls fail

  /** Failures of ListDevicesByUserID, of opening the channel, and of the calls for single devices. */
  datatype BindFaults = BindFaults(list: bool, channel: bool, declare: set<Id>, bind: set<Id>)
  datatype UnbindFaults = UnbindFaults(list: bool, channel: bool, unbind: set<Id>)
  datatype UnbindAllFaults = UnbindAllFaults(group: bool, channel: bool, list: set<Id>, unbind: set<Queue>)
  datatype ProvisionFaults = ProvisionFaults(channel: bool, declare: bool, bindUser: bool, list: bool, bind: set<Id>)

  const NO_BIND_FAULTS := BindFaults(false, false, {}, {})
  const NO_UNBIND_FAULTS := UnbindFaults(false, false, {})
  const NO_UNBIND_ALL_FAULTS := UnbindAllFaults(false, false, {}, {})

  // ---- The binding service

  function BindDevice(user: Id, group: Id, device: Id, f: BindFaults): seq<Effect> {
    var q := Queue(user, device);
    if device in f.declare then []
    else if device in f.bind then [DeclareQueue(q)]
    else [DeclareQueue(q), BindToGroup(q, group)]
  }

  function BindDevices(user: Id, group: Id, ds: seq<Id>, f: BindFaults): seq<Effect> {
    if ds == [] then []
    else BindDevices(user, group, ds[..|ds| - 1], f) + BindDevice(user, group, ds[|ds| - 1], f)
  }

  function BindUserToGroup(w: World, group: Id, user: Id, f: BindFaults): seq<Effect> {
    if f.list || Devices(w, user) == [] || f.channel then [] else BindDevices(user, group, Devices(w, user), f)
  }

  function UnbindDevice(q: Queue, group: Id, fails: bool): seq<Effect> {
    if fails then [] else [UnbindFromGroup(q, group)]
  }

  function UnbindDevices(user: Id, group: Id, ds: seq<Id>, fails: set<Id>): seq<Effect> {
    if ds == [] then []
    else
      var d := ds[|ds| - 1];
      UnbindDevices(user, group, ds[..|ds| - 1], fails) + UnbindDevice(Queue(user, d), group, d in fails)
  }

  function UnbindUserFromGroup(w: World, group: Id, user: Id, f: UnbindFaults): seq<Effect> {
    if f.list || Devices(w, user) == [] || f.channel then []
    else UnbindDevices(user, group, Devices(w, user), f.unbind)
  }

  /** The users of a group's rows, in row order, once per row. */
  function Members(rows: seq<Row>, group: Id): seq<Id> {
    if rows == [] then []
    else Members(rows[..|rows| - 1], group) + (if rows[|rows| - 1].group == group then [rows[|rows| - 1].user] else [])
  }

  function FailingDevices(user: Id, ds: seq<Id>, fails: set<Queue>): set<Id> {
    set d | d in ds && Queue(user, d) in fails
  }

  function UnbindMember(w: World, group: Id, user: Id, f: UnbindAllFaults): seq<Effect> {
    if user in f.list then []
    else UnbindDevices(user, group, Devices(w, user), FailingDevices(user, Devices(w, user), f.unbind))
  }

  function UnbindMembers(w: World, group: Id, users: seq<Id>, f: UnbindAllFaults): seq<Effect> {
    if users == [] then []
    else UnbindMembers(w, group, users[..|users| - 1], f) + UnbindMember(w, group, users[|users| - 1], f)
  }

  function UnbindAllFromGroup(w: World, group: Id, f: UnbindAllFaults): seq<Effect> {
    if f.group || group !in w.groups || Members(w.rows, group) == [] || f.channel then []
    else UnbindMembers(w, group, Members(w.rows, group), f)
  }

  /** ListGroupsForUser: one entry per membership row whose group exists. */
  function GroupsOf(w: World, rows: seq<Row>, user: Id): seq<Id> {
    if rows == [] then []
    else
      var row := rows[|rows| - 1];
      GroupsOf(w, rows[..|rows| - 1], user) + (if row.user == user && row.group in w.groups then [row.group] else [])
  }

  function BindGroups(q: Queue, gs: seq<Id>, fails: set<Id>): seq<Effect> {
    if gs == [] then []
    else BindGroups(q, gs[..|gs| - 1], fails) + (if gs[|gs| - 1] in fails then [] else [BindToGroup(q, gs[|gs| - 1])])
  }

  predicate ProvisionSucceeds(w: World, q: Queue, f: ProvisionFaults) {
    !f.channel && !f.declare && !f.bindUser && !f.list && forall g :: g in GroupsOf(w, w.rows, q.user) ==> g !in f.bind
  }

  function ProvisionDeviceQueue(w: World, q: Queue, f: ProvisionFaults): seq<Effect> {
    if f.channel || f.declare then []
    else if f.bindUser then [DeclareQueue(q)]
    else if f.list then [DeclareQueue(q), BindToUser(q)]
    else [DeclareQueue(q), BindToUser(q)] + BindGroups(q, GroupsOf(w, w.rows, q.user), f.bind)
         + (if ProvisionSucceeds(w, q, f) then [Provisioned(q)] else [])
  }

  // ---- The group service

  /** One entry of CreateGroup's member list: what parsing, the user lookup and the insert yield. */
  datatype Attempt = Attempt(user: Option<Id>, known: bool, rowOk: bool, faults: BindFaults)

  function Enrol(w: World, group: Id, actor: Id, user: Id, f: BindFaults): seq<Effect> {
    [InsertRow(Row(group, user))] + BindUserToGroup(w, group, user, f) + [Announce(group, Joined, actor, user)]
  }

  function EnrolAll(w: World, group: Id, owner: Id, attempts: seq<Attempt>): seq<Effect> {
    if attempts == [] then []
    else EnrolAll(w, group, owner, attempts[..|attempts| - 1]) + TryEnrol(w, group, owner, attempts[|attempts| - 1])
  }

  /** An unparsable id, an unknown user or a failed insert is skipped. */
  function TryEnrol(w: World, group: Id, owner: Id, a: Attempt): seq<Effect> {
    if a.user.Some? && a.known && a.rowOk then Enrol(w, group, owner, a.user.value, a.faults) else []
  }

  /** A group invite as looked up at a time, with the outcome of the lookup and of counting its use. */
  datatype Invite = Invite(found: bool, expiresAt: Option<int>, now: int, useCount: int, maxUses: int, countOk: bool)

  /** Not yet past its expiry, and not used up. */
  predicate Usable(i: Invite) {
    i.found && (i.expiresAt.Some? ==> i.now <= i.expiresAt.value) && i.useCount < i.maxUses && i.countOk
  }

  /** An operation with its arguments and the outcome of every call it makes. */
  datatype Op =
    | CreateGroup(name: string, group: Id, owner: Id, groupOk: bool, ownerOk: bool, ownerFaults: BindFaults,
                  attempts: seq<Attempt>)
    | DeleteGroup(group: Id, caller: Id, unbindAllFaults: UnbindAllFaults, deleteOk: bool)
    | AddMember(group: Id, caller: Id, user: Option<Id>, known: bool, rowOk: bool, faults: BindFaults)
    | RemoveMember(group: Id, caller: Id, target: Id, unbindFaults: UnbindFaults, deleteOk: bool)
    | RedeemInvite(group: Id, caller: Id, invite: Invite, rowOk: bool, faults: BindFaults)
    | NewDevice(queue: Queue)
    | Provision(queue: Queue, provisionFaults: ProvisionFaults)

  /** The foreign key lets a row in only for an existing group. */
  function Effects(w: World, op: Op): seq<Effect> {
    match op
    case CreateGroup(name, g, owner, groupOk, ownerOk, f, attempts) =>
      if name == "" || !groupOk then []
      else if !ownerOk then [InsertGroup(g, owner)]
      else [InsertGroup(g, owner), InsertRow(Row(g, owner))] + BindUserToGroup(w, g, owner, f)
           + EnrolAll(w, g, owner, attempts)
    case DeleteGroup(g, caller, f, deleteOk) =>
      if g !in w.groups || w.groups[g] != caller then []
      else UnbindAllFromGroup(w, g, f) + (if deleteOk then [DeleteGroupRows(g)] else [])
    case AddMember(g, caller, user, known, rowOk, f) =>
      if !IsMember(w, g, caller) || user == None || !known || !rowOk || g !in w.groups then []
      else Enrol(w, g, caller, user.value, f)
    case RemoveMember(g, caller, target, f, deleteOk) =>
      if g !in w.groups || (w.groups[g] != caller && caller != target) then []
      else [Announce(g, if caller == target then Left else Removed, caller, target)]
           + UnbindUserFromGroup(w, g, target, f)
           + (if deleteOk then [DeleteRows(Row(g, target))] else [])
    case RedeemInvite(g, caller, invite, rowOk, f) =>
      if !Usable(invite) || !rowOk || g !in w.groups then [] else Enrol(w, g, caller, caller, f)
    case NewDevice(q) => [InsertDevice(q)]
    case Provision(q, f) => ProvisionDeviceQueue(w, q, f)
  }

  /** What the callers guarantee: new ids are fresh, and only a registered device is provisioned. */
  predicate Admissible(w: World, op: Op) {
    match op
    case CreateGroup(_, g, _, _, _, _, _) => g !in w.groups
    case NewDevice(q) => q.device !in Devices(w, q.user)
    case Provision(q, _) => q.device in Devices(w, q.user)
    case _ => true
  }
}
