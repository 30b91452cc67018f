/**
 The clients map: which (user, device) sessions exist, which connections each has, and when a
 session is torn down.
 */
module Clients {
  import opened Wrappers

  function SessionKey(user: string, device: string): string {
    user + "|" + device
  }

  /** A userState in the map, by number, with its open connections. */
  datatype Entry = Entry(state: nat, conns: set<string>)

  /** created counts the userStates; cleaned lists those given to cleanupUserState, in order. */
  datatype Registry = Registry(clients: map<string, Entry>, created: nat, cleaned: seq<nat>)

  const EMPTY := Registry(map[], 0, [])

  /** opens says whether provisioning the queue and opening a channel would succeed. */
  datatype Op =
    | Register(user: string, device: string, connId: string, opens: bool)
    | Unregister(user: string, device: string, connId: string)

  function OpKey(op: Op): string {
    SessionKey(op.user, op.device)
  }

  /** A new session needs ids that parse. */
  predicate Admits(parse: string -> Option<string>, op: Op) {
    op.Register? && parse(op.user).Some? && parse(op.device).Some? && op.opens
  }

  function Apply(parse: string -> Option<string>, r: Registry, op: Op): Registry {
    var key := OpKey(op);
    match op
    case Register(_, _, c, _) =>
      if key in r.clients then
        r.(clients := r.clients[key := r.clients[key].(conns := r.clients[key].conns + {c})])
      else if Admits(parse, op) then
        r.(clients := r.clients[key := Entry(r.created, {c})], created := r.created + 1)
      else r
    case Unregister(_, _, c) =>
      if key !in r.clients then r
      else
        var rest := r.clients[key].conns - {c};
        if rest == {} then r.(clients := r.clients - {key}, cleaned := r.cleaned + [r.clients[key].state])
        else r.(clients := r.clients[key := r.clients[key].(conns := rest)])
  }

  function Run(parse: string -> Option<string>, ops: seq<Op>): Registry {
    if ops == [] then EMPTY else Apply(parse, Run(parse, ops[..|ops| - 1]), ops[|ops| - 1])
  }

  // ---- What the map should hold, read off the history alone

  /** The connections of a key that registered and have not unregistered since. */
  function Connected(parse: string -> Option<string>, ops: seq<Op>, key: string): set<string> {
    if ops == [] then {}
    else
      var before, op := Connected(parse, ops[..|ops| - 1], key), ops[|ops| - 1];
      if OpKey(op) != key then before
      else match op
           case Register(_, _, c, _) => if before != {} || Admits(parse, op) then before + {c} else before
           case Unregister(_, _, c) => before - {c}
  }

  ghost predicate Matches(parse: string -> Option<string>, r: Registry, ops: seq<Op>) {
    && (forall k :: k in r.clients <==> Connected(parse, ops, k) != {})
    && (forall k :: k in r.clients ==> r.clients[k].conns == Connected(parse, ops, k))
  }

  /** A key is in the map exactly while it has a live connection, and lists exactly those. */
  lemma {:induction false} ClientsAreTheConnected(parse: string -> Option<string>, ops: seq<Op>)
    ensures Matches(parse, Run(parse, ops), ops)
  {
    if ops != [] {
      ClientsAreTheConnected(parse, ops[..|ops| - 1]);
    }
  }

  /** An Unregister tears a session down exactly when it removes its only live connection. */
  lemma TearDownIffLastConnection(parse: string -> Option<string>, ops: seq<Op>, user: string, device: string, connId: string)
    ensures var r := Run(parse, ops);
            var r' := Apply(parse, r, Unregister(user, device, connId));
            && (r'.cleaned != r.cleaned <==> Connected(parse, ops, SessionKey(user, device)) == {connId})
            && (connId !in Connected(parse, ops, SessionKey(user, device)) ==> r' == r)
  {
    ClientsAreTheConnected(parse, ops);
    var key := SessionKey(user, device);
    if key in Run(parse, ops).clients && connId !in Connected(parse, ops, key) {
      assert Run(parse, ops).clients[key].conns - {connId} == Run(parse, ops).clients[key].conns;
    }
  }

  /** A userState in the map is there under one key and has not been cleaned up. */
  ghost predicate MapHoldsLiveStates(clients: map<string, Entry>, created: nat, cleaned: seq<nat>) {
    && (forall k :: k in clients ==> clients[k].state < created && clients[k].state !in cleaned)
    && (forall j, k :: j in clients && k in clients && clients[j].state == clients[k].state ==> j == k)
  }

  ghost predicate CleanedOnce(created: nat, cleaned: seq<nat>) {
    && (forall i, j :: 0 <= i < j < |cleaned| ==> cleaned[i] != cleaned[j])
    && (forall n :: n in cleaned ==> n < created)
  }

  ghost predicate EveryStateKept(clients: map<string, Entry>, created: nat, cleaned: seq<nat>) {
    forall n: nat :: n < created ==> n in cleaned || exists k :: k in clients && clients[k].state == n
  }

  /** Every userState is in the map under one key, or was cleaned up once; never both. */
  ghost predicate EachStateOnce(r: Registry) {
    && MapHoldsLiveStates(r.clients, r.created, r.cleaned)
    && CleanedOnce(r.created, r.cleaned)
    && EveryStateKept(r.clients, r.created, r.cleaned)
  }

  lemma {:induction false} CleanupOncePerState(parse: string -> Option<string>, ops: seq<Op>)
    ensures EachStateOnce(Run(parse, ops))
  {
    if ops != [] {
      CleanupOncePerState(parse, ops[..|ops| - 1]);
      StepKeepsStates(parse, Run(parse, ops[..|ops| - 1]), ops[|ops| - 1]);
    }
  }

  lemma StepKeepsStates(parse: string -> Option<string>, r: Registry, op: Op)
    requires EachStateOnce(r)
    ensures EachStateOnce(Apply(parse, r, op))
  {
    StepLosesNoState(parse, r, op);
    StepCleansOnce(parse, r, op);
    hide EveryStateKept, CleanedOnce, MapHoldsLiveStates;
    if op.Register? {
      RegisterHolds(parse, r, op);
    } else {
      UnregisterHolds(parse, r, op);
    }
  }

  lemma RegisterHolds(parse: string -> Option<string>, r: Registry, op: Op)
    requires MapHoldsLiveStates(r.clients, r.created, r.cleaned) && CleanedOnce(r.created, r.cleaned) && op.Register?
    ensures var r' := Apply(parse, r, op); MapHoldsLiveStates(r'.clients, r'.created, r'.cleaned)
  {
  }

  lemma UnregisterHolds(parse: string -> Option<string>, r: Registry, op: Op)
    requires MapHoldsLiveStates(r.clients, r.created, r.cleaned) && op.Unregister?
    ensures var r' := Apply(parse, r, op); MapHoldsLiveStates(r'.clients, r'.created, r'.cleaned)
  {
  }

  lemma StepCleansOnce(parse: string -> Option<string>, r: Registry, op: Op)
    requires MapHoldsLiveStates(r.clients, r.created, r.cleaned) && CleanedOnce(r.created, r.cleaned)
    ensures CleanedOnce(Apply(parse, r, op).created, Apply(parse, r, op).cleaned)
  {
  }

  lemma StepLosesNoState(parse: string -> Option<string>, r: Registry, op: Op)
    requires EachStateOnce(r)
    ensures var r' := Apply(parse, r, op); EveryStateKept(r'.clients, r'.created, r'.cleaned)
  {
    var r', key := Apply(parse, r, op), OpKey(op);
    forall n: nat | n < r'.created
      ensures n in r'.cleaned || exists k :: k in r'.clients && r'.clients[k].state == n
    {
      if n == r.created {
        assert r'.clients[key].state == n;
      } else if n !in r.cleaned {
        var k :| k in r.clients && r.clients[k].state == n;
        if k in r'.clients {
          assert r'.clients[k].state == n;
        } else {
          assert r'.cleaned[|r.cleaned|] == n;
        }
      }
    }
  }

  // ---- The online check by prefix

  predicate HasPrefix(s: string, p: string) {
    |p| <= |s| && s[..|p|] == p
  }

  ghost predicate ScanFinds(r: Registry, user: string) {
    exists k :: k in r.clients && HasPrefix(k, user + "|")
  }

  predicate BarFree(s: string) {
    '|' !in s
  }

  /** No session is opened for an id with a bar; tokens carry canonical ids, which have none. */
  ghost predicate BarFreeIds(parse: string -> Option<string>, ops: seq<Op>) {
    forall i :: 0 <= i < |ops| && Admits(parse, ops[i]) ==> BarFree(ops[i].user) && BarFree(ops[i].device)
  }

  /** This exact user id has a live session. */
  ghost predicate IsOnline(parse: string -> Option<string>, ops: seq<Op>, user: string) {
    exists i: nat :: i < |ops| && Admits(parse, ops[i]) && ops[i].user == user && Connected(parse, ops, OpKey(ops[i])) != {}
  }

  /** A prefix up to a bar pins the user id, since neither id of a session holds a bar. */
  lemma PrefixPinsUser(user: string, device: string, asked: string)
    requires BarFree(user) && BarFree(device)
    ensures HasPrefix(SessionKey(user, device), asked + "|") <==> asked == user
  {
    var k, p := SessionKey(user, device), asked + "|";
    assert p[|asked|] == '|';
    if asked == user {
      assert k[..|p|] == p;
    }
    if HasPrefix(k, p) {
      assert k[|asked|] == p[|asked|];
      assert forall i :: 0 <= i < |k| && k[i] == '|' ==> i == |user|;
      assert k[..|user|] == user && p[..|asked|] == asked;
      assert k[..|p|][..|asked|] == k[..|asked|];
    }
  }

  /** A live session was opened by a registration that passed every check. */
  lemma {:induction false} KeysComeFromRegister(parse: string -> Option<string>, ops: seq<Op>, key: string)
    requires Connected(parse, ops, key) != {}
    ensures exists i: nat :: i < |ops| && Admits(parse, ops[i]) && OpKey(ops[i]) == key
  {
    var n := |ops| - 1;
    if !(Admits(parse, ops[n]) && OpKey(ops[n]) == key) {
      KeysComeFromRegister(parse, ops[..n], key);
      var i: nat :| i < n && Admits(parse, ops[..n][i]) && OpKey(ops[..n][i]) == key;
      assert ops[i] == ops[..n][i];
    }
  }

  /** For every asked string the scan says whether that exact user id has a live session. */
  lemma ScanIsExact(parse: string -> Option<string>, ops: seq<Op>, asked: string)
    requires BarFreeIds(parse, ops)
    ensures ScanFinds(Run(parse, ops), asked) <==> IsOnline(parse, ops, asked)
  {
    var r := Run(parse, ops);
    ClientsAreTheConnected(parse, ops);
    if ScanFinds(r, asked) {
      var k :| k in r.clients && HasPrefix(k, asked + "|");
      KeysComeFromRegister(parse, ops, k);
      var i: nat :| i < |ops| && Admits(parse, ops[i]) && OpKey(ops[i]) == k;
      PrefixPinsUser(ops[i].user, ops[i].device, asked);
    }
    if IsOnline(parse, ops, asked) {
      var i: nat :| i < |ops| && Admits(parse, ops[i]) && ops[i].user == asked && Connected(parse, ops, OpKey(ops[i])) != {};
      PrefixPinsUser(ops[i].user, ops[i].device, asked);
      assert OpKey(ops[i]) in r.clients;
    }
  }

  // ---- One session for each user and device

  /** Ids without bars make one key for one device of one user. */
  lemma SessionKeyIsInjective(user: string, device: string, user': string, device': string)
    requires BarFree(user) && BarFree(user')
    ensures SessionKey(user, device) == SessionKey(user', device') <==> user == user' && device == device'
  {
    var k, k' := SessionKey(user, device), SessionKey(user', device');
    if k == k' {
      assert k[|user|] == '|' && k'[|user'|] == '|';
      assert forall i :: 0 <= i < |user| ==> k[i] != '|';
      assert forall i :: 0 <= i < |user'| ==> k'[i] != '|';
      assert |user| == |user'|;
      assert k[..|user|] == user && k'[..|user'|] == user';
      assert k[|user| + 1..] == device && k'[|user'| + 1..] == device';
    }
  }

  /** A session of the map, or no connections. */
  function Conns(r: Registry, user: string, device: string): set<string> {
    var key := SessionKey(user, device);
    if key in r.clients then r.clients[key].conns else {}
  }

  /** What an operation for one device does to the session of any device. */
  lemma OperationTouchesOneSession(parse: string -> Option<string>, ops: seq<Op>, op: Op, user: string, device: string)
    requires BarFree(op.user) && BarFree(user)
    ensures var r := Run(parse, ops);
            var r' := Run(parse, ops + [op]);
            if (user, device) != (op.user, op.device) then Conns(r', user, device) == Conns(r, user, device)
            else if op.Unregister? then Conns(r', user, device) == Conns(r, user, device) - {op.connId}
            else if Conns(r, user, device) == {} && (parse(user).None? || parse(device).None? || !op.opens) then
              Conns(r', user, device) == {}
            else Conns(r', user, device) == Conns(r, user, device) + {op.connId}
  {
    assert (ops + [op])[..|ops|] == ops;
    SessionKeyIsInjective(op.user, op.device, user, device);
    ClientsAreTheConnected(parse, ops);
    ClientsAreTheConnected(parse, ops + [op]);
    hide Matches, Run, SessionKey, BarFree;
    assert Matches(parse, Run(parse, ops), ops);
    LiveHasConns(parse, ops, SessionKey(user, device));
    RunNext(parse, ops, op);
  }

  lemma RunNext(parse: string -> Option<string>, ops: seq<Op>, op: Op)
    ensures Run(parse, ops + [op]) == Apply(parse, Run(parse, ops), op)
  {
    assert (ops + [op])[..|ops|] == ops;
  }

  lemma LiveHasConns(parse: string -> Option<string>, ops: seq<Op>, key: string)
    ensures key in Run(parse, ops).clients ==> Run(parse, ops).clients[key].conns != {}
  {
    ClientsAreTheConnected(parse, ops);
  }

  /** Two devices that are online have a userState each, so each has its own consumer. */
  lemma DevicesHaveOwnStates(parse: string -> Option<string>, ops: seq<Op>, user: string, device: string,
                           user': string, device': string)
    requires BarFree(user) && BarFree(user') && (user, device) != (user', device')
    requires Conns(Run(parse, ops), user, device) != {} && Conns(Run(parse, ops), user', device') != {}
    ensures var m := Run(parse, ops).clients;
            m[SessionKey(user, device)].state != m[SessionKey(user', device')].state
  {
    SessionKeyIsInjective(user, device, user', device');
    CleanupOncePerState(parse, ops);
    hide Run, SessionKey;
  }

  /** A listed connection has registered, and has not unregistered since. */
  lemma {:induction false} ListedIsRegistered(parse: string -> Option<string>, ops: seq<Op>, key: string, c: string) returns (i: nat)
    requires c in Connected(parse, ops, key)
    ensures i < |ops| && ops[i].Register? && OpKey(ops[i]) == key && ops[i].connId == c
    ensures forall j :: i < j < |ops| && ops[j].Unregister? && OpKey(ops[j]) == key ==> ops[j].connId != c
  {
    var n := |ops| - 1;
    if ops[n].Register? && OpKey(ops[n]) == key && ops[n].connId == c {
      i := n;
    } else {
      i := ListedIsRegistered(parse, ops[..n], key, c);
      assert forall j :: 0 <= j < n ==> ops[..n][j] == ops[j];
    }
  }

  /** A connection that passed every check is listed until it unregisters. */
  lemma {:induction false} RegisteredIsListed(parse: string -> Option<string>, ops: seq<Op>, i: nat)
    requires i < |ops| && ops[i].Register? && parse(ops[i].user).Some? && parse(ops[i].device).Some? && ops[i].opens
    requires forall j :: i < j < |ops| && ops[j].Unregister? && OpKey(ops[j]) == OpKey(ops[i]) ==> ops[j].connId != ops[i].connId
    ensures ops[i].connId in Connected(parse, ops, OpKey(ops[i]))
  {
    var n := |ops| - 1;
    if i < n {
      assert forall j :: 0 <= j < n ==> ops[..n][j] == ops[j];
      RegisteredIsListed(parse, ops[..n], i);
    }
  }

  // ---- The object itself

  class ConnectionManager {
    var clients: map<string, Entry>
    var created: nat
    ghost var cleaned: seq<nat>

    ghost function Model(): Registry
      reads this
    {
      Registry(clients, created, cleaned)
    }

    constructor ()
      ensures Model() == EMPTY
    {
      clients, created, cleaned := map[], 0, [];
    }

    /** Returns whether the connection was added; a refused one is closed by the code. */
    method Register(parse: string -> Option<string>, user: string, device: string, connId: string, opens: bool)
      returns (added: bool)
      modifies this
      ensures Model() == Apply(parse, old(Model()), Op.Register(user, device, connId, opens))
      ensures added <==> SessionKey(user, device) in clients
    {
      var key := SessionKey(user, device);
      var entry := Entry(created, {});
      if key in clients {
        entry := clients[key];
      } else {
        if parse(user).None? || parse(device).None? {
          return false;
        }
        if !opens {
          return false;
        }
        created := created + 1;
        assert entry.conns + {connId} == {connId};
      }
      clients := clients[key := entry.(conns := entry.conns + {connId})];
      return true;
    }

    /** Returns the userState to clean up, if this was its last connection. */
    method Unregister(ghost parse: string -> Option<string>, user: string, device: string, connId: string)
      returns (toClean: Option<nat>)
      modifies this
      ensures Model() == Apply(parse, old(Model()), Op.Unregister(user, device, connId))
      ensures cleaned == old(cleaned) + (if toClean.Some? then [toClean.value] else [])
    {
      var key := SessionKey(user, device);
      if key !in clients {
        return None;
      }
      var entry := clients[key];
      var remaining := entry.conns - {connId};
      if remaining == {} {
        clients := clients - {key};
        cleaned := cleaned + [entry.state];
        return Some(entry.state);
      }
      clients := clients[key := entry.(conns := remaining)];
      return None;
    }

    /** The loop over all keys that looks for the user's prefix. */
    method UserHasAnyOnlineSession(user: string) returns (online: bool)
      ensures online <==> ScanFinds(Model(), user)
    {
      var prefix := user + "|";
      var todo := clients.Keys;
      while todo != {}
        invariant todo <= clients.Keys
        invariant forall k :: k in clients && k !in todo ==> !HasPrefix(k, prefix)
        decreases todo
      {
        var k :| k in todo;
        if HasPrefix(k, prefix) {
          return true;
        }
        todo := todo - {k};
      }
      return false;
    }
  }
}
