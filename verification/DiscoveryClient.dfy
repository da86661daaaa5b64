/** `ServiceDiscovery` of src/ServiceDiscovery.cc as code that runs among other threads. Every request
    to ZooKeeper is one atomic step of the system in module Discovery, and before it is served the
    others may do anything: the tree changes, events arrive, the other thread reads and stores. So each
    request promises no more than `Served`, and the methods are proved against that. */
module DiscoveryClient {
  import opened Discovery
  import opened Paths

  function MethodPath(k: Key): string { PathOf([k.service, k.name]) }

  /** The key of the cache. */
  function KeyString(k: Key): string { k.service + "/" + k.name }

  /** Different methods have different entries. */
  lemma KeysDiffer(a: Key, b: Key)
    requires Name(a.service) && Name(b.service) && KeyString(a) == KeyString(b)
    ensures a == b
  {
    var i, j := |a.service|, |b.service|;
    assert KeyString(a)[i] == SLASH && KeyString(b)[j] == SLASH;
    assert forall k :: 0 <= k < i ==> KeyString(a)[k] == a.service[k] && a.service[k] in a.service;
    assert forall k :: 0 <= k < j ==> KeyString(b)[k] == b.service[k] && b.service[k] in b.service;
    assert i == j;
    assert a.service == KeyString(a)[..i] && b.service == KeyString(b)[..j];
    assert a.name == KeyString(a)[i + 1..] && b.name == KeyString(b)[j + 1..];
  }

  // ---------------------------------------------------------------- interference

  predicate By(a: Action, who: Who) {
    match a
    case Pop => who.Worker?
    case Begin(_) => who.Init?
    case List(w, _) => w == who
    case ReadInstance(w, _) => w == who
    case ReadOwn(w, _) => w == who
    case Store(w) => w == who
    case _ => false
  }

  /** What may happen while a thread waits for its request: anything by others, but nothing by `init`
      once it has returned. */
  predicate Foreign(a: Action, who: Who, returned: bool) { !By(a, who) && (returned ==> !By(a, Init)) }

  ghost predicate ByOthers(s: State, acts: seq<Action>, t: State, who: Who, returned: bool) {
    OrderlyRun(s, acts, t) && forall a :: a in acts ==> Foreign(a, who, returned)
  }

  /** Others acted. */
  ghost predicate OthersRan(s: State, t: State, who: Who, returned: bool) {
    exists acts :: ByOthers(s, acts, t, who, returned)
  }

  /** Others acted, then the request was served. */
  ghost predicate Served(s: State, who: Who, returned: bool, a: Action, t: State) {
    exists m :: OthersRan(s, m, who, returned) && Enabled(m, a) && t == Next(m, a)
  }

  /** What a thread may rely on while others act. */
  ghost predicate Kept(s: State, t: State, who: Who, returned: bool) {
    && TaskOf(t, who) == TaskOf(s, who) && Grown(s, t, returned)
    && (who.Init? ==> t.found == s.found) && (who.Worker? ==> s.queue <= t.queue)
  }

  /** Methods are never deleted, what init found stays found, and init does not start again. */
  ghost predicate Grown(s: State, t: State, returned: bool) {
    && s.tree.Keys <= t.tree.Keys && s.found <= t.found
    && (returned ==> t.init == s.init)
    && (Lawful(s) ==> Lawful(t))
  }

  /** An event or a task is for a node with a proper path, of a method that is there. */
  ghost predicate LawfulNode(s: State, e: Node) { e.key in s.tree && (e.Instance? ==> Name(e.name)) }

  ghost predicate ProperNames(tree: map<Key, MethodNode>) {
    && (forall k :: k in tree ==> Legal(k))
    && (forall k, n :: k in tree && n in tree[k].instances ==> Name(n))
  }

  /** All names are proper, and all events, watches and tasks are for methods that are there. */
  ghost predicate Lawful(s: State) {
    && ProperNames(s.tree)
    && (forall e :: e in s.inflight || e in s.queue || e in s.dataWatch ==> LawfulNode(s, e))
    && (forall k :: k in s.childWatch ==> k in s.tree)
    && (!s.worker.Idle? ==> LawfulNode(s, s.worker.node))
    && (!s.init.Idle? ==> LawfulNode(s, s.init.node))
  }

  /** It starts so, and nothing changes that. */
  lemma LawfulFirst(tree: map<Key, MethodNode>)
    requires ProperNames(tree)
    ensures Lawful(InitState(tree))
  {}

  /** A change below a method that is there, and the event it may fire. */
  lemma LawfulFired(s: State, s': State, e: Node)
    requires Lawful(s) && LawfulNode(s, e) && s'.tree.Keys == s.tree.Keys
    requires forall k, n :: k in s'.tree && n in s'.tree[k].instances ==> Name(n)
    requires s' == s.(tree := s'.tree, childWatch := s'.childWatch, dataWatch := s'.dataWatch, inflight := s'.inflight)
    requires s'.childWatch <= s.childWatch && s'.dataWatch <= s.dataWatch
    requires s'.inflight == s.inflight || s'.inflight == s.inflight + [e]
    ensures Lawful(s')
  {
    hide Legal, Name;
    assert forall f :: f in s'.inflight ==> f in s.inflight || f == e;
    assert forall k :: k in s'.tree ==> k in s.tree;
  }

  lemma LawfulBelow(s: State, a: Action)
    requires Lawful(s) && Enabled(s, a)
    requires a.CreateInstance? || a.DeleteInstance? || a.SetMethodData? || a.SetInstanceData?
    ensures Lawful(Next(s, a))
  {
    hide Legal, Name;
    LawfulFired(s, Next(s, a), if a.SetInstanceData? then Instance(a.key, a.name) else Method(a.key));
  }

  lemma LawfulCreate(s: State, k: Key, d: string)
    requires Lawful(s) && Enabled(s, CreateMethod(k, d))
    ensures Lawful(Next(s, CreateMethod(k, d)))
  {
    hide Legal, Name;
  }

  lemma LawfulQueue(s: State, a: Action)
    requires Lawful(s) && Enabled(s, a) && (a.Deliver? || a.Pop?)
    ensures Lawful(Next(s, a))
  {
    hide Legal, Name, Enumerates;
    if a.Deliver? {
      assert s.inflight[0] in s.inflight;
      assert forall e :: e in s.inflight[1..] ==> e in s.inflight;
      assert forall e :: e in Next(s, a).queue ==> e in s.queue || e == s.inflight[0];
    } else {
      assert s.queue[0] in s.queue && forall e :: e in s.queue[1..] ==> e in s.queue;
    }
  }

  /** A step of one task, which stays on its node. */
  lemma LawfulSame(s: State, s': State)
    requires Lawful(s) && s' == s.(worker := s'.worker, init := s'.init, childWatch := s'.childWatch, found := s'.found,
                                   cache := s'.cache)
    requires forall k :: k in s'.childWatch ==> k in s.tree
    requires !s'.worker.Idle? ==> LawfulNode(s, s'.worker.node)
    requires !s'.init.Idle? ==> LawfulNode(s, s'.init.node)
    ensures Lawful(s')
  {
    hide Legal, Name;
  }

  lemma LawfulTask(s: State, a: Action)
    requires Lawful(s) && Enabled(s, a) && (a.Begin? || a.List? || a.Store?)
    ensures Lawful(Next(s, a))
  {
    hide Legal, Name, Enumerates;
    LawfulSame(s, Next(s, a));
  }

  lemma LawfulRead(s: State, who: Who, e: Node, garbage: string)
    requires Lawful(s) && TaskOf(s, who).Listed? && e.key == TaskOf(s, who).node.key
    ensures Lawful(Read(s, who, e, garbage))
  {
    hide Legal, Name;
  }

  lemma LawfulReads(s: State, a: Action)
    requires Lawful(s) && Enabled(s, a) && (a.ReadInstance? || a.ReadOwn?)
    ensures Lawful(Next(s, a))
  {
    hide Lawful;
    var t := TaskOf(s, a.who);
    if a.ReadInstance? {
      LawfulRead(s, a.who, Instance(t.node.key, t.names[|t.hosts|]), a.garbage);
    } else {
      LawfulRead(s, a.who, t.node, a.garbage);
    }
  }

  lemma LawfulStep(s: State, a: Action)
    requires Lawful(s) && Enabled(s, a)
    ensures Lawful(Next(s, a))
  {
    hide Lawful, Enabled, Next;
    match a
    case ReadInstance(_, _) => LawfulReads(s, a);
    case ReadOwn(_, _) => LawfulReads(s, a);
    case Deliver => LawfulQueue(s, a);
    case Pop => LawfulQueue(s, a);
    case CreateInstance(_, _, _) => LawfulBelow(s, a);
    case DeleteInstance(_, _) => LawfulBelow(s, a);
    case CreateMethod(k, d) => LawfulCreate(s, k, d);
    case SetMethodData(_, _) => LawfulBelow(s, a);
    case SetInstanceData(_, _, _) => LawfulBelow(s, a);
    case _ => LawfulTask(s, a);
  }

  lemma StepKeeps(s: State, a: Action, who: Who, returned: bool)
    requires Enabled(s, a) && Foreign(a, who, returned)
    ensures Kept(s, Next(s, a), who, returned)
  {
    hide Lawful, Enumerates;
    if Lawful(s) { LawfulStep(s, a); }
  }

  lemma {:induction false} OthersKeep(s: State, acts: seq<Action>, t: State, who: Who, returned: bool)
    requires ByOthers(s, acts, t, who, returned)
    ensures Kept(s, t, who, returned)
    ensures Inv(s) ==> Inv(t)
    decreases |acts|
  {
    hide Enabled, Next, Inv, Foreign, Orderly, Lawful;
    if acts != [] {
      assert acts[0] in acts;
      StepKeeps(s, acts[0], who, returned);
      if Inv(s) { StepInv(s, acts[0]); }
      assert forall a :: a in acts[1..] ==> a in acts;
      OthersKeep(Next(s, acts[0]), acts[1..], t, who, returned);
    }
  }

  lemma Idling(s: State, t: State, who: Who, returned: bool)
    requires OthersRan(s, t, who, returned)
    ensures Kept(s, t, who, returned) && (Inv(s) ==> Inv(t)) && Reaches(s, t)
  {
    hide Inv, Kept, OrderlyRun;
    var acts :| ByOthers(s, acts, t, who, returned);
    OthersKeep(s, acts, t, who, returned);
  }

  /** The state in which the request was served. */
  lemma Serve(s: State, who: Who, returned: bool, a: Action, t: State) returns (m: State)
    requires Served(s, who, returned, a, t)
    ensures Kept(s, m, who, returned) && Enabled(m, a) && t == Next(m, a)
    ensures Reaches(s, m) && (Inv(s) ==> Inv(m))
    ensures Orderly(m, a) ==> Reaches(s, t) && (Inv(s) ==> Inv(t))
  {
    hide Inv, Kept, Enabled, Next, Orderly, OthersRan;
    m :| OthersRan(s, m, who, returned) && Enabled(m, a) && t == Next(m, a);
    Idling(s, m, who, returned);
    if Orderly(m, a) {
      OneMore(m, a);
      Then(s, m, t);
      if Inv(s) { StepInv(m, a); }
    }
  }

  lemma Alone(s: State, who: Who, returned: bool)
    ensures OthersRan(s, s, who, returned)
  {
    assert ByOthers(s, [], s, who, returned);
  }

  /** Nothing but the worker's store and a new instance value can be out of order. */
  lemma OrderlyAction(s: State, a: Action)
    requires a != Store(Worker) && !a.SetInstanceData?
    ensures Orderly(s, a)
  {}

  lemma OneMoreRead(s: State, garbage: string, t: State)
    requires Enabled(s, ReadOwn(Worker, garbage)) && t == Next(s, ReadOwn(Worker, garbage))
    ensures Reaches(s, t)
  {
    hide Enabled, Next;
    OrderlyAction(s, ReadOwn(Worker, garbage));
    OneMore(s, ReadOwn(Worker, garbage));
  }

  lemma Listed1(s: State, who: Who, names: seq<string>, returned: bool)
    requires Enabled(s, List(who, names)) && (returned ==> who.Worker?)
    ensures TaskOf(Next(s, List(who, names)), who) == Listed(TaskOf(s, who).node, names, [])
    ensures Grown(s, Next(s, List(who, names)), returned) && Next(s, List(who, names)).found == s.found
    ensures TaskOf(s, who).node.Instance? ==> names == []
    ensures Next(s, List(who, names)).queue == s.queue
  {
    hide Lawful;
    if Lawful(s) { LawfulStep(s, List(who, names)); }
  }

  lemma Read1(s: State, who: Who, a: Action, returned: bool)
    requires Enabled(s, a) && (a.ReadOwn? || a.ReadInstance?) && a.who == who && (returned ==> who.Worker?)
    ensures Next(s, a).found == s.found && Next(s, a).tree == s.tree && Grown(s, Next(s, a), returned)
    ensures var t, t' := TaskOf(s, who), TaskOf(Next(s, a), who);
            && t'.Listed? && t'.node == t.node && t'.names == t.names && |t'.hosts| == |t.hosts| + 1
            && t'.hosts[..|t.hosts|] == t.hosts
    ensures Next(s, a).queue == s.queue
  {
    hide Lawful;
    if Lawful(s) { LawfulStep(s, a); }
  }

  lemma Stored1(s: State, who: Who, returned: bool)
    requires Enabled(s, Store(who)) && (returned ==> who.Worker?)
    ensures var s' := Next(s, Store(who)); var t := TaskOf(s, who);
            && TaskOf(s', who).Idle? && Grown(s, s', returned)
            && s'.cache == s.cache[t.node.key := t.hosts]
            && (who.Init? ==> s'.found == s.found + {t.node.key})
    ensures Next(s, Store(who)).queue == s.queue
  {
    hide Lawful;
    if Lawful(s) { LawfulStep(s, Store(who)); }
  }

  lemma StoreOrderly(s: State, who: Who)
    requires who.Worker? ==> s.init.Idle?
    ensures Orderly(s, Store(who))
  {}

  lemma WorkedKeyFound(s: State)
    requires Inv(s) && !s.worker.Idle? && s.init.Idle?
    ensures s.worker.node.Method? && s.worker.node.key in s.found
  {
    hide KeyOk;
  }

  lemma FoundSettles(s: State, key: Key)
    requires Inv(s) && s.worker.Idle? && key in s.found
    ensures EventFor(s, key) || Settled(s, key)
  {
    hide Sound, Agrees;
    assert KeyOk(s, key);
  }

  function PathOfNode(n: Node): string {
    match n
    case Method(k) => MethodPath(k)
    case Instance(k, name) => PathOf([k.service, k.name, name])
  }

  /** The node a path of two or three names is for, by its first parts as `handleEvent` takes them. */
  function NodeOf(parts: seq<string>): Node
    requires 2 <= |parts| <= 3
  {
    if |parts| == 2 then Method(Key(parts[0], parts[1])) else Instance(Key(parts[0], parts[1]), parts[2])
  }

  lemma WorkedLawful(s: State)
    requires Lawful(s) && !s.worker.Idle?
    ensures LawfulNode(s, s.worker.node) && Legal(s.worker.node.key)
  {
    hide Legal, Name;
  }

  lemma WorkedMethod(s: State)
    requires Inv(s) && !s.worker.Idle?
    ensures s.worker.node.Method?
  {
    hide KeyOk;
  }

  lemma GrownTwice(s: State, m: State, t: State, returned: bool)
    requires Grown(s, m, true) && Grown(m, t, returned)
    ensures Grown(s, t, returned)
  {
    hide Lawful;
  }

  /** The worker took the event of a node off the queue in s, and in `at` it is about to store what it has
      read of that node. */
  ghost predicate Turn(s: State, e: Node, at: State) {
    && Enabled(s, Pop) && s.queue[0] == e && Reaches(Next(s, Pop), at)
    && Enabled(at, Store(Worker)) && at.worker.node == e
  }

  /** One turn after the other, from s to t, each beginning where the one before it stored. */
  ghost predicate Turns(s: State, nodes: seq<Node>, stores: seq<State>, t: State)
    requires |nodes| == |stores|
    decreases |nodes|
  {
    if nodes == [] then t == s
    else
      var n := |nodes| - 1;
      && Enabled(stores[n], Store(Worker)) && t == Next(stores[n], Store(Worker))
      && exists m :: Turns(s, nodes[..n], stores[..n], m) && Turn(m, nodes[n], stores[n])
  }

  lemma NoTurn(s: State)
    ensures Turns(s, [], [], s)
  {}

  lemma OneMoreTurn(s: State, nodes: seq<Node>, stores: seq<State>, m: State, e: Node, at: State, t: State)
    requires |nodes| == |stores| && Turns(s, nodes, stores, m) && Turn(m, e, at) && t == Next(at, Store(Worker))
    ensures Turns(s, nodes + [e], stores + [at], t)
  {
    hide Turn;
    assert Enabled(at, Store(Worker)) by { TurnStores(m, e, at); }
    assert (nodes + [e])[..|nodes|] == nodes && (stores + [at])[..|nodes|] == stores;
  }

  lemma TurnStores(m: State, e: Node, at: State)
    requires Turn(m, e, at)
    ensures Enabled(at, Store(Worker))
  {}

  lemma PopIs(s: State)
    requires s.worker.Idle? && s.queue != []
    ensures Enabled(s, Pop) && Next(s, Pop) == s.(worker := Started(s.queue[0]), queue := s.queue[1..])
  {}

  lemma QueuedFound(s: State)
    requires Inv(s) && s.init.Idle?
    ensures forall e :: e in s.queue ==> e.key in s.found
  {
    hide KeyOk;
  }

  /** The nodes were taken off the front of a queue that others appended to. */
  ghost predicate Consumed(queue: seq<Node>, nodes: seq<Node>, left: seq<Node>) {
    if |nodes| <= |queue| then nodes == queue[..|nodes|] && queue[|nodes|..] <= left else queue <= nodes
  }

  lemma ConsumedOne(queue: seq<Node>, nodes: seq<Node>, left: seq<Node>, left': seq<Node>)
    requires Consumed(queue, nodes, left) && left != [] && left[1..] <= left'
    ensures Consumed(queue, nodes + [left[0]], left')
  {
    if |nodes| < |queue| {
      assert queue[|nodes|..][0] == left[0] && queue[|nodes|..][1..] == queue[|nodes| + 1..];
      assert queue[..|nodes| + 1] == queue[..|nodes|] + [queue[|nodes|]];
      assert queue[|nodes|..][1..] <= left[1..];
    }
  }

  ghost predicate AllOrderly(stores: seq<State>) { forall s :: s in stores ==> Orderly(s, Store(Worker)) }

  lemma OrderlyBefore(stores: seq<State>, at: State)
    ensures AllOrderly(stores + [at]) ==> AllOrderly(stores) && Orderly(at, Store(Worker))
  {
    hide Orderly;
    assert forall s :: s in stores ==> s in stores + [at];
    assert at in stores + [at];
  }

  /** The path of a node leads `handleEvent` back to it. */
  lemma PathOfNodeParts(e: Node)
    requires Legal(e.key) && (e.Instance? ==> Name(e.name))
    ensures var parts := Pieces(PathOfNode(e), SLASH, ""); 2 <= |parts| <= 3 && NodeOf(parts) == e
    ensures e.Method? ==> |Pieces(PathOfNode(e), SLASH, "")| == 2
  {
    match e
    case Method(k) => SplitPath([k.service, k.name]);
    case Instance(k, name) => SplitPath([k.service, k.name, name]);
  }

  lemma StillFound(s: State, t: State, returned: bool)
    requires Grown(s, t, returned)
    ensures s.found <= t.found
  {}

  /** A listing of a node's children, in any order. */
  method Listing(keys: set<string>) returns (names: seq<string>)
    ensures forall i, j :: 0 <= i < j < |names| ==> names[i] != names[j]
    ensures forall n :: n in names <==> n in keys
  {
    names := [];
    var rest := keys;
    while rest != {}
      invariant rest <= keys
      invariant forall i, j :: 0 <= i < j < |names| ==> names[i] != names[j]
      invariant forall n :: n in names <==> n in keys - rest
    {
      var n :| n in rest;
      assert n !in names;
      names := names + [n];
      rest := rest - {n};
    }
  }

  // ---------------------------------------------------------------- the class

  datatype Picked = Host(host: string) | NoHosts

  class ServiceDiscovery {
    var shared: State          // cache_, events_, and the ZooKeeper they mirror
    var stop: bool

    constructor (tree: map<Key, MethodNode>)
      ensures shared == InitState(tree) && !stop
      ensures ProperNames(tree) ==> Lawful(shared)
    {
      shared := InitState(tree);
      stop := false;
      new;
      if ProperNames(tree) { LawfulFirst(tree); }
    }

    // -------------------------------------------------------------- requests

    method GetChildrenW(who: Who, ghost returned: bool) returns (names: seq<string>)
      requires TaskOf(shared, who).Started?
               && (TaskOf(shared, who).node.Method? ==> TaskOf(shared, who).node.key in shared.tree)
      modifies this`shared
      ensures Served(old(shared), who, returned, List(who, names), shared)
    {
      var node := TaskOf(shared, who).node;
      if node.Method? { names := Listing(shared.tree[node.key].instances.Keys); } else { names := []; }
      Alone(shared, who, returned);
      shared := Next(shared, List(who, names));
    }

    /** `GetDataW` on the next instance: a read that fails leaves what was in the buffer. */
    method GetInstanceDataW(who: Who, ghost returned: bool) returns (data: string, ghost left: string)
      requires TaskOf(shared, who).Listed? && |TaskOf(shared, who).hosts| < |TaskOf(shared, who).names|
      modifies this`shared
      ensures Served(old(shared), who, returned, ReadInstance(who, left), shared)
      ensures TaskOf(shared, who).Listed? && TaskOf(shared, who).hosts == TaskOf(old(shared), who).hosts + [data]
    {
      var garbage: string := *;
      left := garbage;
      var t := TaskOf(shared, who);
      var node := Instance(t.node.key, t.names[|t.hosts|]);
      data := if Exists(shared.tree, node) then DataOf(shared.tree, node) else garbage;
      Alone(shared, who, returned);
      shared := Next(shared, ReadInstance(who, garbage));
    }

    /** `GetDataW` on the node itself. */
    method GetOwnDataW(who: Who, ghost returned: bool) returns (data: string, ghost left: string)
      requires TaskOf(shared, who).Listed? && TaskOf(shared, who).names == [] && TaskOf(shared, who).hosts == []
      modifies this`shared
      ensures Served(old(shared), who, returned, ReadOwn(who, left), shared)
      ensures TaskOf(shared, who).Listed? && TaskOf(shared, who).hosts == [data]
    {
      var garbage: string := *;
      left := garbage;
      var node := TaskOf(shared, who).node;
      data := if Exists(shared.tree, node) then DataOf(shared.tree, node) else garbage;
      Alone(shared, who, returned);
      shared := Next(shared, ReadOwn(who, garbage));
    }

    method SetCache(who: Who, key: Key, hosts: seq<string>, ghost returned: bool)
      requires Complete(TaskOf(shared, who)) && TaskOf(shared, who).node.key == key
               && TaskOf(shared, who).hosts == hosts
      modifies this`shared
      ensures Served(old(shared), who, returned, Store(who), shared)
    {
      Alone(shared, who, returned);
      shared := Next(shared, Store(who));
    }

    // -------------------------------------------------------------- one refresh

    /** The data of the listed instances, one request each, in the order of the listing. */
    method ReadInstances(who: Who, node: Node, names: seq<string>, ghost returned: bool) returns (hosts: seq<string>)
      requires TaskOf(shared, who) == Listed(node, names, []) && names != [] && (returned ==> who.Worker?)
      modifies this`shared
      ensures Reaches(old(shared), shared) && (Inv(old(shared)) ==> Inv(shared))
      ensures Grown(old(shared), shared, returned)
      ensures TaskOf(shared, who) == Listed(node, names, hosts) && |hosts| == |names|
      ensures who.Init? ==> shared.found == old(shared.found)
      ensures who.Worker? ==> old(shared.queue) <= shared.queue
    {
      hide Inv, Enabled, Served, Reaches, Lawful, OrderlyRun, Orderly, Next;
      ghost var s0 := shared;
      Here(s0);
      hosts := [];
      for i := 0 to |names|
        invariant Reaches(s0, shared) && (Inv(s0) ==> Inv(shared)) && Grown(s0, shared, returned) && |hosts| == i
        invariant TaskOf(shared, who) == Listed(node, names, hosts)
        invariant (who.Init? ==> shared.found == s0.found) && (who.Worker? ==> s0.queue <= shared.queue)
      {
        ghost var s1 := shared;
        var data, garbage := GetInstanceDataW(who, returned);
        ghost var m := Serve(s1, who, returned, ReadInstance(who, garbage), shared);
        OrderlyAction(m, ReadInstance(who, garbage));
        Read1(m, who, ReadInstance(who, garbage), returned);
        Then(s0, s1, shared);
        hosts := hosts + [data];
      }
    }

    /** What `init` and `handleEvent` have in common on the path of a method: list and watch, then read,
        then store. Up to its last step it is an orderly run of the system, whatever the other threads do
        meanwhile; and so is the store, by `init` always and by the worker once `init` has returned. */
    method Refresh(who: Who, key: Key, ghost returned: bool) returns (ghost last: State)
      requires TaskOf(shared, who) == Started(Method(key)) && key in shared.tree
      requires returned ==> who.Worker? && shared.init.Idle?
      modifies this`shared
      ensures Reaches(old(shared), last) && Enabled(last, Store(who)) && shared == Next(last, Store(who))
      ensures TaskOf(last, who).node == Method(key) && (Inv(old(shared)) ==> Inv(last))
      ensures who.Init? || returned || Orderly(last, Store(who)) ==>
                Reaches(old(shared), shared) && (Inv(old(shared)) ==> Inv(shared))
      ensures Grown(old(shared), shared, returned) && TaskOf(shared, who).Idle?
      ensures who.Init? ==> shared.found == old(shared.found) + {key}
      ensures who.Worker? ==> old(shared.queue) <= shared.queue
    {
      hide Inv, Enabled, Served, Reaches, Lawful, OrderlyRun, Orderly, Next;
      ghost var s0 := shared;
      var names := GetChildrenW(who, returned);
      ghost var m := Serve(s0, who, returned, List(who, names), shared);
      OrderlyAction(m, List(who, names));
      Listed1(m, who, names, returned);
      ghost var s1 := shared;
      var hosts: seq<string> := [];
      if names == [] {
        var data, garbage := GetOwnDataW(who, returned);
        m := Serve(s1, who, returned, ReadOwn(who, garbage), shared);
        OrderlyAction(m, ReadOwn(who, garbage));
        Read1(m, who, ReadOwn(who, garbage), returned);
        hosts := [data];
      } else {
        hosts := ReadInstances(who, Method(key), names, returned);
      }
      Then(s0, s1, shared);
      ghost var s2 := shared;
      SetCache(who, key, hosts, returned);
      last := Serve(s2, who, returned, Store(who), shared);
      Then(s0, s2, last);
      Stored1(last, who, returned);
      if who.Init? || returned { StoreOrderly(last, who); }
      if Orderly(last, Store(who)) { Then(s0, s2, shared); }
    }

    /** The same code on the path of an instance: there are no children to list, and the entry of the
        method becomes the data of that instance alone, as it was in the state `read`. */
    method RefreshInstance(key: Key, name: string, ghost returned: bool) returns (ghost read: State, ghost last: State)
      requires shared.worker == Started(Instance(key, name)) && key in shared.tree
      modifies this`shared
      ensures Reaches(old(shared), read) && Reaches(read, last)
      ensures Enabled(last, Store(Worker)) && shared == Next(last, Store(Worker))
      ensures last.worker.node == Instance(key, name) && |last.worker.hosts| == 1
      ensures key in shared.cache && shared.cache[key] == last.worker.hosts
      ensures key in read.tree
      ensures name in read.tree[key].instances ==> shared.cache[key] == [read.tree[key].instances[name]]
      ensures Grown(old(shared), shared, returned) && shared.worker.Idle? && old(shared.queue) <= shared.queue
    {
      hide Inv, Served, Reaches, Lawful, OrderlyRun, Orderly;
      ghost var s0 := shared;
      var names := GetChildrenW(Worker, returned);
      ghost var m := Serve(s0, Worker, returned, List(Worker, names), shared);
      OrderlyAction(m, List(Worker, names));
      Listed1(m, Worker, names, returned);
      ghost var s1 := shared;
      var data, garbage := GetOwnDataW(Worker, returned);
      read := Serve(s1, Worker, returned, ReadOwn(Worker, garbage), shared);
      OrderlyAction(read, ReadOwn(Worker, garbage));
      OneMoreRead(read, garbage, shared);
      Then(s0, s1, read);
      Read1(read, Worker, ReadOwn(Worker, garbage), returned);
      ghost var s2 := shared;
      SetCache(Worker, key, [data], returned);
      last := Serve(s2, Worker, returned, Store(Worker), shared);
      Then(read, s2, last);
      Stored1(last, Worker, returned);
    }

    // -------------------------------------------------------------- init

    /** `GetChildren("/")`: at least the services that have methods now, and any others. */
    method GetServices() returns (services: seq<string>)
      modifies this`shared
      ensures OthersRan(old(shared), shared, Init, false)
      ensures forall i, j :: 0 <= i < j < |services| ==> services[i] != services[j]
      ensures forall k :: k in old(shared).tree ==> k.service in services
    {
      services := Listing(set k | k in shared.tree :: k.service);
      Alone(shared, Init, false);
    }

    /** `GetChildren` on a service. */
    method GetMethods(service: string) returns (methods: seq<string>)
      modifies this`shared
      ensures OthersRan(old(shared), shared, Init, false)
      ensures forall i, j :: 0 <= i < j < |methods| ==> methods[i] != methods[j]
      ensures forall m :: m in methods ==> Key(service, m) in shared.tree
      ensures forall k :: k in old(shared).tree && k.service == service ==> k.name in methods
    {
      methods := Listing(set k | k in shared.tree && k.service == service :: k.name);
      Alone(shared, Init, false);
    }

    /** `init`: finds every method that was there when it started, except below "zookeeper". */
    method InitCache()
      requires Inv(shared) && shared.init.Idle? && shared.found == {}
      modifies this`shared
      ensures Inv(shared) && Reaches(old(shared), shared) && shared.init.Idle?
      ensures forall k :: k in old(shared).tree && k.service != "zookeeper" ==> k in shared.found
      ensures forall k :: k in shared.found ==> k.service != "zookeeper"
    {
      hide Inv, Enabled, Reaches, Lawful, OrderlyRun, Orderly, Next, OthersRan;
      ghost var s0 := shared;
      var services := GetServices();
      Idling(s0, shared, Init, false);
      for i := 0 to |services|
        invariant Inv(shared) && Reaches(s0, shared) && shared.init.Idle? && s0.tree.Keys <= shared.tree.Keys
        invariant forall k :: k in s0.tree && k.service in services[..i] && k.service != "zookeeper" ==>
                  k in shared.found
        invariant forall k :: k in shared.found ==> k.service in services[..i] && k.service != "zookeeper"
      {
        var service := services[i];
        assert services[..i + 1] == services[..i] + [service];
        assert service !in services[..i];
        if service == "zookeeper" { continue; }
        ghost var s1 := shared;
        var methods := GetMethods(service);
        Idling(s1, shared, Init, false);
        Then(s0, s1, shared);
        for j := 0 to |methods|
          invariant Inv(shared) && Reaches(s0, shared) && shared.init.Idle?
          invariant s0.tree.Keys <= shared.tree.Keys
          invariant forall m :: m in methods ==> Key(service, m) in shared.tree
          invariant forall k :: k in shared.found <==> k in s1.found || (k.service == service && k.name in methods[..j])
        {
          var key := Key(service, methods[j]);
          assert methods[..j + 1] == methods[..j] + [methods[j]];
          assert methods[j] !in methods[..j];
          ghost var s2 := shared;
          StartOn(key);
          Then(s0, s2, shared);
          ghost var s3 := shared;
          var _ := Refresh(Init, key, false);
          Then(s0, s3, shared);
        }
      }
    }

    /** The inner loop of `init` comes to a method. */
    method StartOn(key: Key)
      requires Inv(shared) && shared.init.Idle? && key in shared.tree && key !in shared.found
      modifies this`shared
      ensures Inv(shared) && Reaches(old(shared), shared)
      ensures shared == old(shared).(init := Started(Method(key)))
    {
      hide Inv, OrderlyRun;
      StepInv(shared, Begin(key));
      OneMore(shared, Begin(key));
      shared := shared.(init := Started(Method(key)));
    }

    // -------------------------------------------------------------- events

    /** `zkWatcher` and `enqueueEvent`: the oldest event in flight joins the queue. */
    method EnqueueEvent()
      requires shared.inflight != []
      modifies this`shared
      ensures shared == Next(old(shared), Deliver)
      ensures Inv(old(shared)) ==> Inv(shared)
    {
      hide Inv;
      if Inv(shared) { StepInv(shared, Deliver); }
      shared := shared.(queue := shared.queue + [shared.inflight[0]], inflight := shared.inflight[1..]);
    }

    /** `handleEvent`, on any path that can carry a watch or is too short to name a method. `at` is the
        state in which the worker stores what it has read. */
    method HandleEvent(path: string, ghost returned: bool) returns (ghost read: State, ghost at: State)
      requires |Pieces(path, SLASH, "")| <= 3
      requires |Pieces(path, SLASH, "")| >= 2 ==>
                 && shared.worker == Started(NodeOf(Pieces(path, SLASH, "")))
                 && NodeOf(Pieces(path, SLASH, "")).key in shared.tree
      requires returned ==> shared.init.Idle?
      modifies this`shared
      ensures |Pieces(path, SLASH, "")| < 2 ==> shared == old(shared)
      ensures old(shared.queue) <= shared.queue
      ensures |Pieces(path, SLASH, "")| >= 2 ==>
                && Grown(old(shared), shared, returned) && shared.worker.Idle?
                && Reaches(old(shared), at) && Enabled(at, Store(Worker)) && shared == Next(at, Store(Worker))
                && at.worker.node == NodeOf(Pieces(path, SLASH, ""))
      ensures |Pieces(path, SLASH, "")| == 2 ==>
                && (Inv(old(shared)) ==> Inv(at))
                && (returned || Orderly(at, Store(Worker)) ==>
                      Reaches(old(shared), shared) && (Inv(old(shared)) ==> Inv(shared)))
      ensures |Pieces(path, SLASH, "")| == 2 && returned && Inv(old(shared)) ==>
                var key := NodeOf(Pieces(path, SLASH, "")).key; EventFor(shared, key) || Settled(shared, key)
      ensures |Pieces(path, SLASH, "")| == 3 ==>
                var key, name := NodeOf(Pieces(path, SLASH, "")).key, Pieces(path, SLASH, "")[2];
                && Reaches(old(shared), read) && Reaches(read, at) && key in read.tree
                && key in shared.cache && |shared.cache[key]| == 1
                && (name in read.tree[key].instances ==> shared.cache[key] == [read.tree[key].instances[name]])
    {
      hide Inv, Reaches, Pieces, EventFor, Settled, Grown, Orderly, Enabled, Next;
      at, read := shared, shared;
      var parts := Split(path, SLASH);
      if |parts| < 2 { return; }
      var key := Key(parts[0], parts[1]);
      if |parts| == 2 {
        if returned && Inv(shared) { WorkedKeyFound(shared); }
        at := Refresh(Worker, key, returned);
        if returned && Inv(old(shared)) {
          StillFound(old(shared), shared, returned);
          FoundSettles(shared, key);
        }
      } else {
        read, at := RefreshInstance(key, parts[2], returned);
        Then(old(shared), read, at);
      }
    }

    /** The worker's loop, as far as `turns` events: it comes back from `wait` with nothing to do when the
        queue is empty, and ends for good when it was stopped and has drained the queue. Events are handled
        oldest first, each by a store for its node in one of the states `stores`; while init is still
        running the invariant depends on what it overtakes there. */
    method ProcessEvents(turns: nat, ghost returned: bool)
      returns (ended: bool, handled: nat, ghost nodes: seq<Node>, ghost stores: seq<State>)
      requires Lawful(shared) && shared.worker.Idle? && (returned ==> shared.init.Idle?)
      modifies this`shared
      ensures Lawful(shared) && shared.worker.Idle? && Grown(old(shared), shared, returned) && handled <= turns
      ensures ended ==> stop && shared.queue == []
      ensures !ended ==> handled == turns || (shared.queue == [] && !stop)
      ensures |nodes| == |stores| == handled && Turns(old(shared), nodes, stores, shared)
      ensures handled <= |old(shared.queue)| ==>
                nodes == old(shared.queue)[..handled] && old(shared.queue)[handled..] <= shared.queue
      ensures handled > |old(shared.queue)| ==> old(shared.queue) <= nodes
      ensures Inv(old(shared)) && (returned || AllOrderly(stores)) ==> Inv(shared) && Reaches(old(shared), shared)
      ensures Inv(old(shared)) && returned ==>
                forall n :: n in nodes ==> EventFor(shared, n.key) || Settled(shared, n.key)
    {
      hide Inv, Reaches, Lawful, Orderly, Enabled, Next, EventFor, Settled, Turns, Turn;
      ghost var s0 := shared;
      Here(s0);
      NoTurn(s0);
      handled, ended, nodes, stores := 0, false, [], [];
      while handled < turns
        invariant handled <= turns && !ended
        invariant Lawful(shared) && shared.worker.Idle? && Grown(s0, shared, returned)
                  && (returned ==> shared.init.Idle?)
        invariant |nodes| == |stores| == handled && Turns(s0, nodes, stores, shared)
        invariant Consumed(s0.queue, nodes, shared.queue)
        invariant Inv(s0) && (returned || AllOrderly(stores)) ==> Inv(shared) && Reaches(s0, shared)
        invariant Inv(s0) && returned ==> forall n :: n in nodes ==> n.key in shared.found
      {
        if stop && shared.queue == [] { ended := true; break; }
        if shared.queue == [] { break; }
        ghost var s1, before := shared, stores;
        ghost var at;
        if returned && Inv(s1) { QueuedFound(s1); }
        at := HandleNext(returned);
        ConsumedOne(s0.queue, nodes, s1.queue, shared.queue);
        OneMoreTurn(s0, nodes, stores, s1, s1.queue[0], at, shared);
        nodes, stores := nodes + [s1.queue[0]], stores + [at];
        if Inv(s0) && (returned || AllOrderly(stores)) {
          OrderlyBefore(before, at);
          Then(s0, s1, shared);
        }
        handled := handled + 1;
      }
      if Inv(s0) && returned {
        forall n | n in nodes ensures EventFor(shared, n.key) || Settled(shared, n.key) { FoundSettles(shared, n.key); }
      }
    }

    /** One turn: the oldest event is taken off the queue and handled; `at` is the state in which the
        worker stores what it has read of that event's node. Meanwhile others only append to the queue. */
    method HandleNext(ghost returned: bool) returns (ghost at: State)
      requires Lawful(shared) && shared.worker.Idle? && shared.queue != [] && (returned ==> shared.init.Idle?)
      modifies this`shared
      ensures Lawful(shared) && shared.worker.Idle? && Grown(old(shared), shared, returned)
      ensures Turn(old(shared), old(shared.queue)[0], at) && shared == Next(at, Store(Worker))
      ensures old(shared.queue)[1..] <= shared.queue
      ensures Inv(old(shared)) && (returned || Orderly(at, Store(Worker))) ==>
              Inv(shared) && Reaches(old(shared), shared)
    {
      hide Inv, Reaches, Orderly, Enabled, Next, Lawful;
      ghost var s0 := shared;
      PopIs(s0);
      var node := Pop1();
      ghost var s1 := shared;
      WorkedLawful(s1);
      PathOfNodeParts(node);
      ghost var read;
      read, at := HandleEvent(PathOfNode(node), returned);
      GrownTwice(s0, s1, shared, returned);
      if Inv(s0) {
        WorkedMethod(s1);
        Then(s0, s1, shared);
      }
    }

    method Pop1() returns (node: Node)
      requires shared.worker.Idle? && shared.queue != []
      modifies this`shared
      ensures node == old(shared).queue[0] && Reaches(old(shared), shared) && (Inv(old(shared)) ==> Inv(shared))
      ensures shared == old(shared).(worker := Started(node), queue := old(shared).queue[1..])
      ensures Grown(old(shared), shared, true)
    {
      hide Inv, OrderlyRun, Lawful;
      if Inv(shared) { StepInv(shared, Pop); }
      if Lawful(shared) { LawfulStep(shared, Pop); }
      OneMore(shared, Pop);
      node := shared.queue[0];
      shared := shared.(worker := Started(node), queue := shared.queue[1..]);
    }

    // -------------------------------------------------------------- use

    /** `pickHost`: any of the method's hosts, or an error when there is none. */
    method PickHost(service: string, name: string) returns (r: Picked)
      ensures r.NoHosts? <==> Key(service, name) !in shared.cache || shared.cache[Key(service, name)] == []
      ensures r.Host? ==> r.host in shared.cache[Key(service, name)]
    {
      var key := Key(service, name);
      if key !in shared.cache || shared.cache[key] == [] { return NoHosts; }
      var hosts := shared.cache[key];
      var idx :| 0 <= idx < |hosts|;
      return Host(hosts[idx]);
    }
  }
}
