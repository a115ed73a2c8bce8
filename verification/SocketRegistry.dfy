/** The WebSocket gateway's presence registry: two indexes over the registered
    sockets and the online and offline broadcasts. Registration is one step, but
    a connection authenticates, joins its rooms and registers at different
    moments, and may drop in between. */
module SocketRegistry {
  import opened Prelude

  datatype Identity = Identity(user: string, org: string)

  datatype Broadcast = Online(user: string) | Offline(user: string)

  type Index = map<string, set<nat>>

  datatype Registry = Registry(users: Index, orgs: Index, broadcasts: seq<Broadcast>)

  function Add(index: Index, key: string, socket: nat): Index {
    index[key := (if key in index then index[key] else {}) + {socket}]
  }

  /** Deletes the socket, and the key with its last socket. */
  function Remove(index: Index, key: string, socket: nat): Index {
    if key !in index then index
    else if index[key] - {socket} == {} then index - {key}
    else index[key := index[key] - {socket}]
  }

  function Register(reg: Registry, socket: nat, id: Identity): Registry {
    var users := Add(reg.users, id.user, socket);
    var wasOffline := |users[id.user]| == 1;
    Registry(users, Add(reg.orgs, id.org, socket),
             if wasOffline then reg.broadcasts + [Online(id.user)] else reg.broadcasts)
  }

  /** The disconnect handler; `data` is what authentication stored on the socket. */
  function Unregister(reg: Registry, socket: nat, data: Option<Identity>): Registry {
    if data.None? then reg
    else
      var id := data.value;
      var users := if id.user != "" then Remove(reg.users, id.user, socket) else reg.users;
      var wentOffline := id.user in reg.users && id.user !in users;
      Registry(users, if id.org != "" then Remove(reg.orgs, id.org, socket) else reg.orgs,
               if wentOffline && id.org != "" then reg.broadcasts + [Offline(id.user)] else reg.broadcasts)
  }

  /** A removal takes away this socket, and the keys of which it was the only socket. */
  lemma RemoveIs(index: Index, key: string, socket: nat)
    ensures var index' := Remove(index, key, socket);
            && (forall k :: k in index' <==> k in index && (k == key ==> !(index[k] <= {socket})))
            && (forall k :: k in index' ==> index'[k] == if k == key then index[k] - {socket} else index[k])
  {
  }

  /** A disconnection: the socket leaves both indexes, and the user is broadcast as
      offline exactly if it was their only one. */
  lemma UnregisterIs(reg: Registry, socket: nat, id: Identity)
    requires id.user != "" && id.org != ""
    ensures var reg' := Unregister(reg, socket, Some(id));
            && reg'.users == Remove(reg.users, id.user, socket) && reg'.orgs == Remove(reg.orgs, id.org, socket)
            && reg'.broadcasts
               == reg.broadcasts
                  + if id.user in reg.users && reg.users[id.user] <= {socket} then [Offline(id.user)] else []
  {
    RemoveIs(reg.users, id.user, socket);
  }

  predicate IsUserOnline(reg: Registry, user: string) {
    user in reg.users && |reg.users[user]| > 0
  }

  // ----- runs -----

  /** `live` are the sockets registered and not disconnected since, `open` those
      not disconnected yet, `checking` those whose token is being checked, `joining`
      those authenticated but not registered. A socket may drop in any of these. */
  datatype State = State(
    reg: Registry, data: map<nat, Identity>, live: map<nat, Identity>, open: set<nat>, checking: set<nat>,
    joining: set<nat>, used: set<nat>)

  datatype Step =
    | Connect(socket: nat)
    | Authenticate(socket: nat, id: Identity)
    | Reject(socket: nat)
    | FailJoin(socket: nat)
    | Join(socket: nat)
    | Disconnect(socket: nat)

  /** Socket ids are fresh and tokens name a user and an organisation. */
  predicate CanStep(s: State, step: Step) {
    match step
    case Connect(socket) => socket !in s.used
    case Authenticate(socket, id) => socket in s.checking && id.user != "" && id.org != ""
    case Reject(socket) => socket in s.checking
    case FailJoin(socket) => socket in s.joining
    case Join(socket) => socket in s.joining && socket in s.data
    case Disconnect(socket) => socket in s.open
  }

  function DataOf(s: State, socket: nat): Option<Identity> {
    if socket in s.data then Some(s.data[socket]) else None
  }

  function Apply(s: State, step: Step): State
    requires CanStep(s, step)
  {
    match step
    case Connect(socket) =>
      s.(open := s.open + {socket}, checking := s.checking + {socket}, used := s.used + {socket})
    case Authenticate(socket, id) =>
      s.(data := s.data[socket := id], checking := s.checking - {socket}, joining := s.joining + {socket})
    case Reject(socket) => s.(checking := s.checking - {socket})
    case FailJoin(socket) => s.(joining := s.joining - {socket})
    case Join(socket) =>
      var id := s.data[socket];
      s.(reg := Register(s.reg, socket, id), live := s.live[socket := id], joining := s.joining - {socket})
    case Disconnect(socket) =>
      s.(reg := Unregister(s.reg, socket, DataOf(s, socket)), live := s.live - {socket}, open := s.open - {socket})
  }

  predicate Valid(s: State, run: seq<Step>)
    decreases |run|
  {
    run == [] || (CanStep(s, run[0]) && Valid(Apply(s, run[0]), run[1..]))
  }

  function Exec(s: State, run: seq<Step>): State
    requires Valid(s, run)
    decreases |run|
  {
    if run == [] then s else Exec(Apply(s, run[0]), run[1..])
  }

  function Start(): State {
    State(Registry(map[], map[], []), map[], map[], {}, {}, {}, {})
  }

  // ----- what the indexes mean -----

  ghost function UserOf(live: map<nat, Identity>): map<nat, string> {
    map s | s in live :: live[s].user
  }

  ghost function OrgOf(live: map<nat, Identity>): map<nat, string> {
    map s | s in live :: live[s].org
  }

  ghost function SocketsWith(keyOf: map<nat, string>, key: string): set<nat> {
    set s | s in keyOf && keyOf[s] == key
  }

  /** The index holds exactly these sockets, grouped by key, with no empty entry. */
  ghost predicate Exact(index: Index, keyOf: map<nat, string>) {
    forall key: string ::
      && (key in index <==> SocketsWith(keyOf, key) != {})
      && (key in index ==> index[key] == SocketsWith(keyOf, key))
  }

  /** The last broadcast about this user was "online". */
  predicate LastOnline(broadcasts: seq<Broadcast>, user: string) {
    broadcasts != [] &&
    var last := broadcasts[|broadcasts| - 1];
    if last.user == user then last.Online? else LastOnline(broadcasts[..|broadcasts| - 1], user)
  }

  /** The broadcasts about this user strictly alternate, starting with "online". */
  predicate Alternates(broadcasts: seq<Broadcast>, user: string) {
    broadcasts == [] ||
    var last, before := broadcasts[|broadcasts| - 1], broadcasts[..|broadcasts| - 1];
    Alternates(before, user) && (last.user == user ==> (last.Online? <==> !LastOnline(before, user)))
  }

  ghost predicate TraceOk(reg: Registry) {
    forall u: string :: Alternates(reg.broadcasts, u) && (LastOnline(reg.broadcasts, u) <==> u in reg.users)
  }

  ghost predicate IndexesOk(s: State) {
    Exact(s.reg.users, UserOf(s.live)) && Exact(s.reg.orgs, OrgOf(s.live)) && TraceOk(s.reg)
  }

  /** Who is where in setting up, and that only authenticated sockets register. */
  ghost predicate SetsOk(s: State) {
    && s.joining <= s.data.Keys <= s.used && s.open <= s.used && s.checking <= s.used && s.checking !! s.data.Keys
    && (forall k :: k in s.live ==> k in s.data && s.data[k] == s.live[k] && k !in s.joining)
    && (forall k :: k in s.data ==> s.data[k].user != "" && s.data[k].org != "")
  }

  ghost predicate Inv(s: State) { IndexesOk(s) && SetsOk(s) }

  lemma BroadcastOne(broadcasts: seq<Broadcast>, b: Broadcast, user: string)
    ensures LastOnline(broadcasts + [b], user) == if b.user == user then b.Online? else LastOnline(broadcasts, user)
    ensures Alternates(broadcasts + [b], user)
            <==> Alternates(broadcasts, user) && (b.user == user ==> (b.Online? <==> !LastOnline(broadcasts, user)))
  {
    assert (broadcasts + [b])[..|broadcasts|] == broadcasts;
  }

  lemma FirstOfKey(index: Index, key: string, socket: nat)
    requires key in index ==> index[key] != {} && socket !in index[key]
    ensures |Add(index, key, socket)[key]| == 1 <==> key !in index
  {
    if key in index {
      var other :| other in index[key];
      assert {other, socket} <= index[key] + {socket};
      assert |index[key] + {socket}| == |index[key]| + 1;
      assert index[key] - {other} + {other} == index[key];
    } else {
      assert {} + {socket} == {socket};
    }
  }

  lemma ExactAdd(index: Index, keyOf: map<nat, string>, socket: nat, key: string)
    requires Exact(index, keyOf) && socket !in keyOf
    ensures Exact(Add(index, key, socket), keyOf[socket := key])
  {
    var keyOf' := keyOf[socket := key];
    forall k: string
      ensures SocketsWith(keyOf', k) == SocketsWith(keyOf, k) + if k == key then {socket} else {}
    {
    }
    assert socket in SocketsWith(keyOf', key);
  }

  lemma ExactRemove(index: Index, keyOf: map<nat, string>, socket: nat, key: string)
    requires Exact(index, keyOf) && (socket in keyOf ==> keyOf[socket] == key)
    ensures Exact(Remove(index, key, socket), keyOf - {socket})
  {
    forall k: string
      ensures SocketsWith(keyOf - {socket}, k) == SocketsWith(keyOf, k) - {socket}
    {
    }
  }

  lemma ExactJoin(s: State, socket: nat)
    requires Inv(s) && CanStep(s, Join(socket))
    ensures var t := Apply(s, Join(socket));
            Exact(t.reg.users, UserOf(t.live)) && Exact(t.reg.orgs, OrgOf(t.live))
  {
    var id := s.data[socket];
    ExactAdd(s.reg.users, UserOf(s.live), socket, id.user);
    ExactAdd(s.reg.orgs, OrgOf(s.live), socket, id.org);
    assert UserOf(s.live[socket := id]) == UserOf(s.live)[socket := id.user];
    assert OrgOf(s.live[socket := id]) == OrgOf(s.live)[socket := id.org];
  }

  lemma FirstOfUser(s: State, socket: nat)
    requires Inv(s) && CanStep(s, Join(socket))
    ensures |Add(s.reg.users, s.data[socket].user, socket)[s.data[socket].user]| == 1
            <==> s.data[socket].user !in s.reg.users
  {
    FirstOfKey(s.reg.users, s.data[socket].user, socket);
  }

  lemma TraceJoin(reg: Registry, socket: nat, id: Identity)
    requires TraceOk(reg)
    requires |Register(reg, socket, id).users[id.user]| == 1 <==> id.user !in reg.users
    ensures TraceOk(Register(reg, socket, id))
  {
    forall u: string
      ensures LastOnline(reg.broadcasts + [Online(id.user)], u)
              == if u == id.user then true else LastOnline(reg.broadcasts, u)
      ensures u != id.user || id.user !in reg.users ==> Alternates(reg.broadcasts + [Online(id.user)], u)
    {
      BroadcastOne(reg.broadcasts, Online(id.user), u);
    }
  }

  lemma ExactDisconnect(s: State, socket: nat)
    requires Inv(s) && CanStep(s, Disconnect(socket))
    ensures var t := Apply(s, Disconnect(socket));
            Exact(t.reg.users, UserOf(t.live)) && Exact(t.reg.orgs, OrgOf(t.live))
  {
    assert UserOf(s.live - {socket}) == UserOf(s.live) - {socket};
    assert OrgOf(s.live - {socket}) == OrgOf(s.live) - {socket};
    if socket in s.data {
      ExactRemove(s.reg.users, UserOf(s.live), socket, s.data[socket].user);
      ExactRemove(s.reg.orgs, OrgOf(s.live), socket, s.data[socket].org);
    } else {
      assert s.live - {socket} == s.live;
    }
  }

  lemma TraceDisconnect(reg: Registry, socket: nat, id: Identity)
    requires TraceOk(reg) && id.user != "" && id.org != ""
    ensures TraceOk(Unregister(reg, socket, Some(id)))
  {
    forall u: string
      ensures LastOnline(reg.broadcasts + [Offline(id.user)], u)
              == if u == id.user then false else LastOnline(reg.broadcasts, u)
      ensures u != id.user || id.user in reg.users ==> Alternates(reg.broadcasts + [Offline(id.user)], u)
    {
      BroadcastOne(reg.broadcasts, Offline(id.user), u);
    }
  }

  lemma SetsStep(s: State, step: Step)
    requires SetsOk(s) && CanStep(s, step)
    ensures SetsOk(Apply(s, step))
  {
  }

  lemma IndexesStep(s: State, step: Step)
    requires Inv(s) && CanStep(s, step)
    ensures IndexesOk(Apply(s, step))
  {
    if step.Join? {
      ExactJoin(s, step.socket);
      FirstOfUser(s, step.socket);
      TraceJoin(s.reg, step.socket, s.data[step.socket]);
    } else if step.Disconnect? {
      ExactDisconnect(s, step.socket);
      if step.socket in s.data {
        TraceDisconnect(s.reg, step.socket, s.data[step.socket]);
      }
    }
  }

  lemma InvStep(s: State, step: Step)
    requires Inv(s) && CanStep(s, step)
    ensures Inv(Apply(s, step))
  {
    IndexesStep(s, step);
    SetsStep(s, step);
  }

  lemma {:induction false} InvRun(s: State, run: seq<Step>)
    requires Inv(s) && Valid(s, run)
    ensures Inv(Exec(s, run))
    decreases |run|
  {
    if run != [] {
      InvStep(s, run[0]);
      InvRun(Apply(s, run[0]), run[1..]);
    }
  }

  lemma StartInv()
    ensures Inv(Start())
  {
  }

  /** Over every run both indexes hold exactly the registered sockets, a user is
      online exactly while a registered socket of theirs exists, and the
      broadcasts about each user strictly alternate, the last one telling the
      user's present state. */
  lemma RegistryIsExact(run: seq<Step>, user: string)
    requires Valid(Start(), run)
    ensures var t := Exec(Start(), run);
            && Exact(t.reg.users, UserOf(t.live)) && Exact(t.reg.orgs, OrgOf(t.live))
            && (IsUserOnline(t.reg, user) <==> exists s :: s in t.live && t.live[s].user == user)
            && Alternates(t.reg.broadcasts, user)
            && (LastOnline(t.reg.broadcasts, user) <==> IsUserOnline(t.reg, user))
  {
    StartInv();
    InvRun(Start(), run);
    var t := Exec(Start(), run);
    var sockets := SocketsWith(UserOf(t.live), user);
    if sockets != {} {
      var s :| s in sockets;
      assert t.live[s].user == user;
    }
    if s :| s in t.live && t.live[s].user == user {
      assert s in sockets;
    }
  }

  // ----- equal totals -----

  ghost function Entries(index: Index): set<(string, nat)> {
    set key, s | key in index && s in index[key] :: (key, s)
  }

  ghost function Tagged(keyOf: map<nat, string>, sockets: set<nat>): set<(string, nat)>
    requires sockets <= keyOf.Keys
  {
    set s | s in sockets :: (keyOf[s], s)
  }

  lemma {:induction false} TaggedSize(keyOf: map<nat, string>, sockets: set<nat>)
    requires sockets <= keyOf.Keys
    ensures |Tagged(keyOf, sockets)| == |sockets|
    decreases |sockets|
  {
    if sockets != {} {
      var s :| s in sockets;
      TaggedSize(keyOf, sockets - {s});
      assert Tagged(keyOf, sockets) == Tagged(keyOf, sockets - {s}) + {(keyOf[s], s)};
    }
  }

  lemma ExactEntries(index: Index, keyOf: map<nat, string>)
    requires Exact(index, keyOf)
    ensures |Entries(index)| == |keyOf|
  {
    forall key: string, s: nat
      ensures (key, s) in Entries(index) <==> (key, s) in Tagged(keyOf, keyOf.Keys)
    {
      if s in keyOf && keyOf[s] == key {
        assert s in SocketsWith(keyOf, key);
      }
    }
    assert Entries(index) == Tagged(keyOf, keyOf.Keys);
    TaggedSize(keyOf, keyOf.Keys);
  }

  /** The two indexes always have the same number of entries: one per socket. */
  lemma EqualTotals(run: seq<Step>)
    requires Valid(Start(), run)
    ensures var t := Exec(Start(), run);
            |Entries(t.reg.users)| == |Entries(t.reg.orgs)| == |t.live|
  {
    StartInv();
    InvRun(Start(), run);
    var t := Exec(Start(), run);
    ExactEntries(t.reg.users, UserOf(t.live));
    ExactEntries(t.reg.orgs, OrgOf(t.live));
    assert UserOf(t.live).Keys == t.live.Keys == OrgOf(t.live).Keys;
    assert |UserOf(t.live)| == |UserOf(t.live).Keys| && |OrgOf(t.live)| == |OrgOf(t.live).Keys|;
  }

  // ----- sockets that drop while joining -----

  /** The sockets whose registration ran after their own disconnect. */
  function LateJoins(s: State, run: seq<Step>): set<nat>
    requires Valid(s, run)
    decreases |run|
  {
    if run == [] then {}
    else
      (if run[0].Join? && run[0].socket !in s.open then {run[0].socket} else {})
      + LateJoins(Apply(s, run[0]), run[1..])
  }

  lemma {:induction false} StaleEntries(s: State, run: seq<Step>)
    requires Inv(s) && Valid(s, run)
    ensures var t := Exec(s, run);
            t.live.Keys - t.open == (s.live.Keys - s.open) + LateJoins(s, run)
    decreases |run|
  {
    hide IndexesOk, Register, Unregister;
    if run != [] {
      InvStep(s, run[0]);
      StaleEntries(Apply(s, run[0]), run[1..]);
    }
  }

  /** Registered sockets are all still connected exactly if no registration ran
      after its socket's own disconnect; each one that did is registered for ever,
      and keeps its user online. */
  lemma NoStaleEntryIff(run: seq<Step>)
    requires Valid(Start(), run)
    ensures var t := Exec(Start(), run);
            && (t.live.Keys <= t.open <==> LateJoins(Start(), run) == {})
            && (forall s :: s in LateJoins(Start(), run) ==>
                  s in t.live && s !in t.open && IsUserOnline(t.reg, t.live[s].user))
  {
    StartInv();
    InvRun(Start(), run);
    StaleEntries(Start(), run);
    var t := Exec(Start(), run);
    forall s | s in LateJoins(Start(), run)
      ensures s in t.live && s !in t.open && IsUserOnline(t.reg, t.live[s].user)
    {
      assert s in t.live.Keys - t.open;
      RegistryIsExact(run, t.live[s].user);
    }
  }

  /** No socket drops while its connection is being set up. */
  predicate SetUpUndisturbed(s: State, run: seq<Step>)
    requires Valid(s, run)
    decreases |run|
  {
    run != [] ==>
      && (run[0].Disconnect? ==> run[0].socket !in s.checking && run[0].socket !in s.joining)
      && SetUpUndisturbed(Apply(s, run[0]), run[1..])
  }

  lemma {:induction false} NoLateJoins(s: State, run: seq<Step>)
    requires Valid(s, run) && SetUpUndisturbed(s, run) && s.checking <= s.open && s.joining <= s.open
    ensures LateJoins(s, run) == {}
    decreases |run|
  {
    if run != [] {
      NoLateJoins(Apply(s, run[0]), run[1..]);
    }
  }

  /** If neither the token check nor joining a room lets other events of the runtime
      in, as with the default in-memory adapter, every registered socket is still
      connected. */
  lemma PromptSetUpIsSafe(run: seq<Step>)
    requires Valid(Start(), run) && SetUpUndisturbed(Start(), run)
    ensures Exec(Start(), run).live.Keys <= Exec(Start(), run).open
  {
    NoLateJoins(Start(), run);
    NoStaleEntryIff(run);
  }

  lemma Cons(s: State, step: Step, rest: seq<Step>)
    requires CanStep(s, step) && Valid(Apply(s, step), rest)
    ensures Valid(s, [step] + rest)
    ensures LateJoins(s, [step] + rest)
            == (if step.Join? && step.socket !in s.open then {step.socket} else {}) + LateJoins(Apply(s, step), rest)
  {
    assert ([step] + rest)[1..] == rest;
  }

  /** If one of them does, as an adapter over a network would, a socket can drop in
      between and be registered afterwards: while joining a room, or already while
      its token is checked. */
  lemma LateJoinExample(whileJoining: bool) returns (run: seq<Step>)
    ensures Valid(Start(), run) && LateJoins(Start(), run) == {1}
  {
    var drop, auth := Disconnect(1), Authenticate(1, Identity("u", "o"));
    var first, second := if whileJoining then auth else drop, if whileJoining then drop else auth;
    var s1 := Apply(Start(), Connect(1));
    var s2 := Apply(s1, first);
    var s3 := Apply(s2, second);
    Cons(s3, Join(1), []);
    Cons(s2, second, [Join(1)] + []);
    Cons(s1, first, [second] + ([Join(1)] + []));
    Cons(Start(), Connect(1), [first] + ([second] + ([Join(1)] + [])));
    run := [Connect(1)] + ([first] + ([second] + ([Join(1)] + [])));
  }
}
