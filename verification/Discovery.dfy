/** The discovery cache of src/ServiceDiscovery.cc against a changing ZooKeeper tree. A refresh is not
    atomic: it lists the children and arms the watch in one request, then reads every child in a request
    of its own, and stores the result at the end, while nodes come and go. Watches are one-shot
    ("ZooKeeper Watches", ZooKeeper Programmer's Guide); an event travels to `zkWatcher`, waits in the
    queue and is handled by the single worker thread. */
module Discovery {
  import opened Paths

  datatype Key = Key(service: string, name: string)

  predicate Legal(k: Key) { Name(k.service) && Name(k.name) }

  /** A method node: its own data, and the data of its instance nodes. */
  datatype MethodNode = MethodNode(data: string, instances: map<string, string>)

  /** The node an event or a watch is about. */
  datatype Node = Method(key: Key) | Instance(key: Key, name: string)

  /** A thread inside `handleEvent`, or inside the body of the inner loop of `init`. */
  datatype Task =
    | Idle
    | Started(node: Node)
    | Listed(node: Node, names: seq<string>, hosts: seq<string>)

  datatype Who = Worker | Init

  datatype State = State(
    tree: map<Key, MethodNode>,
    childWatch: set<Key>,
    dataWatch: set<Node>,
    inflight: seq<Node>,                   // events fired, not yet delivered to zkWatcher
    queue: seq<Node>,                      // events_
    worker: Task,
    init: Task,
    found: set<Key>,                       // keys that init has stored
    cache: map<Key, seq<string>>)

  datatype Action =
    | CreateMethod(key: Key, data: string)
    | CreateInstance(key: Key, name: string, data: string)
    | DeleteInstance(key: Key, name: string)
    | SetMethodData(key: Key, data: string)
    | SetInstanceData(key: Key, name: string, data: string)
    | Deliver
    | Pop
    | Begin(key: Key)
    | List(who: Who, names: seq<string>)
    | ReadInstance(who: Who, garbage: string)      // what a failed read leaves in the buffer
    | ReadOwn(who: Who, garbage: string)
    | Store(who: Who)

  function TaskOf(s: State, who: Who): Task { if who.Worker? then s.worker else s.init }

  function WithTask(s: State, who: Who, t: Task): State {
    if who.Worker? then s.(worker := t) else s.(init := t)
  }

  ghost predicate Enumerates(names: seq<string>, m: map<string, string>) {
    && (forall i, j :: 0 <= i < j < |names| ==> names[i] != names[j])
    && (forall n :: n in names <==> n in m)
  }

  predicate Exists(tree: map<Key, MethodNode>, n: Node) {
    n.key in tree && (n.Instance? ==> n.name in tree[n.key].instances)
  }

  function DataOf(tree: map<Key, MethodNode>, n: Node): string
    requires Exists(tree, n)
  {
    match n
    case Method(k) => tree[k].data
    case Instance(k, name) => tree[k].instances[name]
  }

  predicate Complete(t: Task) {
    t.Listed? && |t.hosts| == if t.names == [] then 1 else |t.names|
  }

  /** The children a listing finds; an instance has none. */
  ghost predicate Lists(tree: map<Key, MethodNode>, n: Node, names: seq<string>) {
    match n
    case Method(k) => k in tree && Enumerates(names, tree[k].instances)
    case Instance(_, _) => names == []
  }

  ghost predicate Enabled(s: State, a: Action) {
    match a
    case CreateMethod(k, _) => k !in s.tree && Legal(k)
    case CreateInstance(k, n, _) => k in s.tree && n !in s.tree[k].instances && Name(n)
    case DeleteInstance(k, n) => k in s.tree && n in s.tree[k].instances
    case SetMethodData(k, _) => k in s.tree
    case SetInstanceData(k, n, _) => k in s.tree && n in s.tree[k].instances
    case Deliver => s.inflight != []
    case Pop => s.worker.Idle? && s.queue != []
    case Begin(k) => s.init.Idle? && k in s.tree && k !in s.found
    case List(who, names) => TaskOf(s, who).Started? && Lists(s.tree, TaskOf(s, who).node, names)
    case ReadInstance(who, _) => var t := TaskOf(s, who); t.Listed? && |t.hosts| < |t.names|
    case ReadOwn(who, _) => var t := TaskOf(s, who); t.Listed? && t.names == [] && t.hosts == []
    case Store(who) => Complete(TaskOf(s, who))
  }

  /** A change below a method node fires the child watch, once. */
  function FireChild(s: State, k: Key): State {
    if k in s.childWatch then s.(childWatch := s.childWatch - {k}, inflight := s.inflight + [Method(k)]) else s
  }

  function FireData(s: State, n: Node): State {
    if n in s.dataWatch then s.(dataWatch := s.dataWatch - {n}, inflight := s.inflight + [n]) else s
  }

  function SetNode(s: State, k: Key, n: MethodNode): State { s.(tree := s.tree[k := n]) }

  /** Reads the data of a node and watches it; nothing is watched when the read fails. */
  function Read(s: State, who: Who, n: Node, garbage: string): State
    requires TaskOf(s, who).Listed?
  {
    var t := TaskOf(s, who);
    if Exists(s.tree, n) then
      WithTask(s.(dataWatch := s.dataWatch + {n}), who, t.(hosts := t.hosts + [DataOf(s.tree, n)]))
    else WithTask(s, who, t.(hosts := t.hosts + [garbage]))
  }

  function Next(s: State, a: Action): State
    requires Enabled(s, a)
  {
    match a
    case CreateMethod(k, d) => SetNode(s, k, MethodNode(d, map[]))
    case CreateInstance(k, n, d) =>
      FireChild(SetNode(s, k, s.tree[k].(instances := s.tree[k].instances[n := d])), k)
    case DeleteInstance(k, n) =>
      // the data watch of the node goes too: its event says "deleted", which `zkWatcher` drops
      FireChild(SetNode(s, k, s.tree[k].(instances := s.tree[k].instances - {n}))
                .(dataWatch := s.dataWatch - {Instance(k, n)}), k)
    case SetMethodData(k, d) => FireData(SetNode(s, k, s.tree[k].(data := d)), Method(k))
    case SetInstanceData(k, n, d) =>
      FireData(SetNode(s, k, s.tree[k].(instances := s.tree[k].instances[n := d])), Instance(k, n))
    case Deliver => s.(queue := s.queue + [s.inflight[0]], inflight := s.inflight[1..])
    case Pop => s.(worker := Started(s.queue[0]), queue := s.queue[1..])
    case Begin(k) => s.(init := Started(Method(k)))
    case List(who, names) =>
      var n := TaskOf(s, who).node;
      WithTask(if n.Method? then s.(childWatch := s.childWatch + {n.key}) else s, who, Listed(n, names, []))
    case ReadInstance(who, garbage) =>
      var t := TaskOf(s, who);
      Read(s, who, Instance(t.node.key, t.names[|t.hosts|]), garbage)
    case ReadOwn(who, garbage) => Read(s, who, TaskOf(s, who).node, garbage)
    case Store(who) =>
      var t := TaskOf(s, who);
      var s' := WithTask(s.(cache := s.cache[t.node.key := t.hosts]), who, Idle);
      if who.Init? then s'.(found := s.found + {t.node.key}) else s'
  }

  function InitState(tree: map<Key, MethodNode>): State {
    State(tree, {}, {}, [], [], Idle, Idle, {}, map[])
  }

  // ---------------------------------------------------------------- agreement

  /** Hosts read in the order of the names: the instances' data, or the node's own when it has none. */
  ghost predicate Reads(hosts: seq<string>, names: seq<string>, node: MethodNode) {
    if names == [] then hosts == [node.data]
    else
      && |hosts| == |names|
      && forall i :: 0 <= i < |hosts| ==> names[i] in node.instances && hosts[i] == node.instances[names[i]]
  }

  /** The cache entry is the tree's view of the method, in the order of some listing. */
  ghost predicate Agrees(hosts: seq<string>, node: MethodNode) {
    exists names :: Enumerates(names, node.instances) && Reads(hosts, names, node)
  }

  /** Every host that agrees with a node is the data of one of its instances, every instance is there,
      and there are as many hosts as instances. */
  lemma AgreesMeans(hosts: seq<string>, node: MethodNode)
    requires Agrees(hosts, node)
    ensures node.instances == map[] ==> hosts == [node.data]
    ensures node.instances != map[] ==>
              |hosts| == |node.instances| && forall d :: d in hosts <==> d in node.instances.Values
    ensures hosts != []
  {
    var names :| Enumerates(names, node.instances) && Reads(hosts, names, node);
    if names == [] {
      assert forall n :: n !in node.instances;
      assert node.instances == map[];
    } else {
      assert names[0] in node.instances;
      EnumerationSize(names, node.instances.Keys);
      forall d | d in node.instances.Values ensures d in hosts {
        var n :| n in node.instances && node.instances[n] == d;
        assert n in names;
        var i :| 0 <= i < |names| && names[i] == n;
        assert hosts[i] == d;
      }
    }
  }

  lemma {:induction false} EnumerationSize(names: seq<string>, keys: set<string>)
    requires forall i, j :: 0 <= i < j < |names| ==> names[i] != names[j]
    requires forall n :: n in names <==> n in keys
    ensures |names| == |keys|
  {
    if names == [] {
      assert keys == {};
    } else {
      var init, last := names[..|names| - 1], names[|names| - 1];
      assert forall n :: n in init <==> n in keys - {last};
      EnumerationSize(init, keys - {last});
    }
  }

  // ---------------------------------------------------------------- the invariant

  /** An event for the key is on its way or about to be handled. */
  predicate EventFor(s: State, k: Key) {
    Method(k) in s.inflight || Method(k) in s.queue || s.worker == Started(Method(k))
  }

  /** The data of the names from i on; what is missing reads as garbage. */
  function DataFrom(node: MethodNode, names: seq<string>, i: nat, garbage: string): seq<string>
    requires i <= |names|
    decreases |names| - i
  {
    if i == |names| then []
    else
      var d := if names[i] in node.instances then node.instances[names[i]] else garbage;
      [d] + DataFrom(node, names, i + 1, garbage)
  }

  predicate Shaped(t: Task) {
    t.Listed? ==> |t.hosts| <= if t.names == [] then 1 else |t.names|
  }

  /** The hosts a refresh of a method will end with if the tree stays as it is. */
  function Ahead(t: Task, node: MethodNode, garbage: string): seq<string>
    requires t.Listed? && Shaped(t)
  {
    if t.names == [] then (if t.hosts == [] then [node.data] else t.hosts)
    else t.hosts + DataFrom(node, t.names, |t.hosts|, garbage)
  }

  predicate ReadsOwn(t: Task) { t.Listed? && t.names == [] && t.hosts == [] }

  /** Whatever is still to be read is there. */
  ghost predicate Readable(t: Task, node: MethodNode)
    requires t.Listed?
  {
    forall i :: |t.hosts| <= i < |t.names| ==> t.names[i] in node.instances
  }

  /** Any change will be noticed: what has been read is watched. */
  ghost predicate Watched(s: State, t: Task, k: Key)
    requires t.Listed? && k in s.tree
  {
    && k in s.childWatch
    && ((s.tree[k].instances == map[]) != ReadsOwn(t) ==> Method(k) in s.dataWatch)
    && (forall n :: n in s.tree[k].instances ==>
          Instance(k, n) in s.dataWatch || exists i :: |t.hosts| <= i < |t.names| && t.names[i] == n)
  }

  /** A refresh of k that will agree with the tree, or that a change will be noticed by. */
  ghost predicate Sound(s: State, t: Task, k: Key) {
    && t.Listed? && t.node == Method(k) && Shaped(t) && k in s.tree && Watched(s, t, k)
    && Readable(t, s.tree[k]) && Agrees(Ahead(t, s.tree[k], ""), s.tree[k])
  }

  /** The cache entry is up to date and any change will be noticed. */
  ghost predicate Settled(s: State, k: Key) {
    && k in s.tree && k in s.cache && k in s.childWatch && Agrees(s.cache[k], s.tree[k])
    && (s.tree[k].instances == map[] ==> Method(k) in s.dataWatch)
    && (forall n :: n in s.tree[k].instances ==> Instance(k, n) in s.dataWatch)
  }

  predicate On(t: Task, k: Key) { !t.Idle? && t.node == Method(k) }

  predicate Holds(t: Task, k: Key) { t.Listed? && t.node == Method(k) }

  ghost predicate KeyOk(s: State, k: Key) {
    && (On(s.worker, k) ==> EventFor(s, k) || Sound(s, s.worker, k))
    && (Holds(s.init, k) && !On(s.worker, k) ==> EventFor(s, k) || Sound(s, s.init, k))
    && (k in s.found && !On(s.worker, k) ==> EventFor(s, k) || Settled(s, k))
  }

  ghost predicate Known(s: State, k: Key) { k in s.found || On(s.init, k) }

  ghost predicate TasksOk(s: State) {
    && Shaped(s.init) && Shaped(s.worker)
    && (!s.init.Idle? ==> s.init.node.Method? && s.init.node.key in s.tree && s.init.node.key !in s.found)
    && (!s.worker.Idle? ==> s.worker.node.Method? && Known(s, s.worker.node.key))
  }

  ghost predicate EventsOk(s: State) {
    && (forall n :: n in s.inflight || n in s.queue ==> n.Method? && Known(s, n.key))
    && (forall k :: k in s.childWatch ==> Known(s, k))
    && (forall n :: n in s.dataWatch ==> Known(s, n.key))
  }

  ghost predicate Bookkept(s: State) {
    TasksOk(s) && EventsOk(s) && forall k :: k in s.found ==> k in s.tree
  }

  ghost predicate Inv(s: State) {
    (forall k :: KeyOk(s, k)) && Bookkept(s)
  }

  /** The worker does not overtake init to its harm: when it stores a refresh of the method that init
      has listed and not yet stored itself, another event for the method is pending, or what init is
      going to store will agree with the tree and be watched. And nobody sets an instance's data. */
  ghost predicate Orderly(s: State, a: Action) {
    && !a.SetInstanceData?
    && (a == Store(Worker) && !s.worker.Idle? && Holds(s.init, s.worker.node.key) ==>
          EventFor(s, s.worker.node.key) || Sound(s, s.init, s.worker.node.key))
  }

  // ---------------------------------------------------------------- data still to be read

  lemma {:induction false} DataFromAt(node: MethodNode, names: seq<string>, i: nat, garbage: string)
    requires i <= |names|
    ensures var d := DataFrom(node, names, i, garbage);
            && |d| == |names| - i
            && forall j :: 0 <= j < |d| ==>
                 d[j] == if names[i + j] in node.instances then node.instances[names[i + j]] else garbage
    decreases |names| - i
  {
    if i < |names| { DataFromAt(node, names, i + 1, garbage); }
  }

  /** A fresh listing will agree. */
  lemma ListedAgrees(k: Key, names: seq<string>, node: MethodNode)
    requires Enumerates(names, node.instances)
    ensures Agrees(Ahead(Listed(Method(k), names, []), node, ""), node)
  {
    DataFromAt(node, names, 0, "");
    var d := DataFrom(node, names, 0, "");
    assert [] + d == d;
    if names != [] {
      assert forall i :: 0 <= i < |names| ==> names[i] in names;
      assert Reads(d, names, node);
    } else {
      assert Reads([node.data], names, node);
    }
  }

  /** The next read brings no surprise. */
  lemma AheadStep(t: Task, node: MethodNode, garbage: string)
    requires t.Listed? && |t.hosts| < |t.names|
    ensures var n := t.names[|t.hosts|];
            var d := if n in node.instances then node.instances[n] else garbage;
            Ahead(t.(hosts := t.hosts + [d]), node, garbage) == Ahead(t, node, garbage)
  {
    var n := t.names[|t.hosts|];
    var d := if n in node.instances then node.instances[n] else garbage;
    var tail := DataFrom(node, t.names, |t.hosts| + 1, garbage);
    assert t.hosts + ([d] + tail) == (t.hosts + [d]) + tail;
  }

  lemma AheadEnds(t: Task, node: MethodNode, garbage: string)
    requires Complete(t)
    ensures Ahead(t, node, garbage) == t.hosts
  {
    if t.names != [] { assert t.hosts + [] == t.hosts; }
  }

  lemma DataDoesNotMatter(hosts: seq<string>, node: MethodNode, d: string)
    requires Agrees(hosts, node) && node.instances != map[]
    ensures Agrees(hosts, node.(data := d))
  {
    var names :| Enumerates(names, node.instances) && Reads(hosts, names, node);
    assert names == [] ==> forall n :: n !in node.instances;
    assert names != [];
    assert Reads(hosts, names, node.(data := d));
  }

  lemma OwnDataAgrees(node: MethodNode)
    requires node.instances == map[]
    ensures Agrees([node.data], node)
  {
    assert Enumerates([], node.instances) && Reads([node.data], [], node);
  }

  // ---------------------------------------------------------------- every step keeps the invariant

  /** Nothing about method k is lost from s to s'. */
  ghost predicate Keeps(s: State, s': State, k: Key) {
    && (k in s.tree ==> k in s'.tree && s'.tree[k] == s.tree[k])
    && (k in s.childWatch ==> k in s'.childWatch)
    && (forall n :: n in s.dataWatch && n.key == k ==> n in s'.dataWatch)
    && (k in s.cache ==> k in s'.cache && s'.cache[k] == s.cache[k])
    && (EventFor(s, k) ==> EventFor(s', k))
    && (k in s'.found ==> k in s.found)
  }

  predicate SameOn(t: Task, t': Task, k: Key) { t' == t || (!On(t, k) && !On(t', k)) }

  lemma SoundKept(s: State, s': State, t: Task, k: Key)
    requires Sound(s, t, k) && Keeps(s, s', k)
    ensures Sound(s', t, k)
  {
    hide Agrees, Ahead, EventFor;
  }

  lemma SettledKept(s: State, s': State, k: Key)
    requires Settled(s, k) && Keeps(s, s', k)
    ensures Settled(s', k)
  {
    hide Agrees, EventFor;
  }

  /** What happens to other methods does not matter. */
  lemma KeyKept(s: State, s': State, k: Key)
    requires KeyOk(s, k) && Keeps(s, s', k)
    requires SameOn(s.worker, s'.worker, k) && SameOn(s.init, s'.init, k)
    ensures KeyOk(s', k)
  {
    hide Sound, Settled, Keeps, EventFor;
    EventKept(s, s', k);
    if Sound(s, s.worker, k) { SoundKept(s, s', s.worker, k); }
    if Sound(s, s.init, k) { SoundKept(s, s', s.init, k); }
    if Settled(s, k) { SettledKept(s, s', k); }
  }

  lemma EventKept(s: State, s': State, k: Key)
    requires Keeps(s, s', k)
    ensures (EventFor(s, k) ==> EventFor(s', k)) && (k in s'.found ==> k in s.found)
  {}

  /** Whoever relied on k has an event coming. */
  lemma ChildrenNoticed(s: State, s': State, k: Key)
    requires KeyOk(s, k) && s'.worker == s.worker && s'.init == s.init && s'.found == s.found
    requires EventFor(s, k) || k in s.childWatch ==> EventFor(s', k)
    ensures KeyOk(s', k)
  {
    hide Agrees, Ahead, EventFor;
  }

  lemma FiredEvents(s: State, s': State, n: Node, k: Key)
    requires s'.worker == s.worker && s'.queue == s.queue
    requires s'.inflight == s.inflight || s'.inflight == s.inflight + [n]
    ensures EventFor(s, k) ==> EventFor(s', k)
    ensures s'.inflight == s.inflight + [Method(k)] ==> EventFor(s', k)
  {
    if s'.inflight == s.inflight + [Method(k)] { assert s'.inflight[|s.inflight|] == Method(k); }
  }

  lemma InstancesKeys(s: State, a: Action, j: Key)
    requires KeyOk(s, j) && Enabled(s, a) && (a.CreateInstance? || a.DeleteInstance?)
    ensures KeyOk(Next(s, a), j)
  {
    hide KeyOk, EventFor, Agrees, Ahead;
    var s' := Next(s, a);
    FiredEvents(s, s', Method(a.key), j);
    if j == a.key { ChildrenNoticed(s, s', j); } else { KeyKept(s, s', j); }
  }

  lemma SetMethodDataKeys(s: State, k: Key, d: string, j: Key)
    requires KeyOk(s, j) && Enabled(s, SetMethodData(k, d))
    ensures KeyOk(Next(s, SetMethodData(k, d)), j)
  {
    hide KeyOk, EventFor, Agrees, Ahead;
    var s' := Next(s, SetMethodData(k, d));
    FiredEvents(s, s', Method(k), j);
    if j == k { DataSet(s, k, d, s'); } else { KeyKept(s, s', j); }
  }

  /** A method's new data is noticed by whoever has read the old. */
  lemma DataSet(s: State, k: Key, d: string, s': State)
    requires KeyOk(s, k) && k in s.tree && s'.tree == s.tree[k := s.tree[k].(data := d)]
    requires s'.init == s.init && s'.worker == s.worker && s'.found == s.found && s'.cache == s.cache
    requires s'.childWatch == s.childWatch
    requires EventFor(s, k) || Method(k) in s.dataWatch ==> EventFor(s', k)
    requires Method(k) !in s.dataWatch ==> s'.dataWatch == s.dataWatch
    ensures KeyOk(s', k)
  {
    hide EventFor, Sound, Settled;
    if Method(k) !in s.dataWatch {
      if Sound(s, s.worker, k) { SoundDataSet(s, s.worker, k, d, s'); }
      if Sound(s, s.init, k) { SoundDataSet(s, s.init, k, d, s'); }
      if Settled(s, k) { SettledDataSet(s, k, d, s'); }
    }
  }

  lemma SoundDataSet(s: State, t: Task, k: Key, d: string, s': State)
    requires Sound(s, t, k) && Method(k) !in s.dataWatch
    requires s'.tree == s.tree[k := s.tree[k].(data := d)]
    requires s'.childWatch == s.childWatch && s'.dataWatch == s.dataWatch
    ensures Sound(s', t, k)
  {
    hide Agrees, DataFrom;
    var node := s.tree[k];
    if node.instances == map[] {
      assert ReadsOwn(t);
      OwnDataAgrees(s'.tree[k]);
    } else {
      assert !ReadsOwn(t);
      SameAhead(t, node, d);
      DataDoesNotMatter(Ahead(t, node, ""), node, d);
    }
  }

  lemma SameAhead(t: Task, node: MethodNode, d: string)
    requires t.Listed? && Shaped(t) && !ReadsOwn(t)
    ensures Ahead(t, node.(data := d), "") == Ahead(t, node, "")
  {
    if t.names != [] {
      DataFromAt(node, t.names, |t.hosts|, "");
      DataFromAt(node.(data := d), t.names, |t.hosts|, "");
      assert DataFrom(node, t.names, |t.hosts|, "") == DataFrom(node.(data := d), t.names, |t.hosts|, "");
    }
  }

  lemma SettledDataSet(s: State, k: Key, d: string, s': State)
    requires Settled(s, k) && Method(k) !in s.dataWatch
    requires s'.tree == s.tree[k := s.tree[k].(data := d)] && s'.cache == s.cache
    requires s'.childWatch == s.childWatch && s'.dataWatch == s.dataWatch
    ensures Settled(s', k)
  {
    hide Agrees;
    DataDoesNotMatter(s.cache[k], s.tree[k], d);
  }

  lemma CreateMethodKeys(s: State, k: Key, d: string, j: Key)
    requires KeyOk(s, j) && Enabled(s, CreateMethod(k, d))
    ensures KeyOk(Next(s, CreateMethod(k, d)), j)
  {
    hide KeyOk, Legal;
    KeyKept(s, Next(s, CreateMethod(k, d)), j);
  }

  lemma DeliverKeys(s: State, j: Key)
    requires KeyOk(s, j) && Enabled(s, Deliver)
    ensures KeyOk(Next(s, Deliver), j)
  {
    hide KeyOk;
    var s' := Next(s, Deliver);
    var e := s.inflight[0];
    assert s'.queue[|s.queue|] == e;
    assert forall n :: n in s.inflight ==> n == e || n in s'.inflight;
    assert forall n :: n in s.queue ==> n in s'.queue;
    KeyKept(s, s', j);
  }

  lemma PopKeys(s: State, j: Key)
    requires KeyOk(s, j) && Enabled(s, Pop)
    ensures KeyOk(Next(s, Pop), j)
  {
    var s' := Next(s, Pop);
    var e := s.queue[0];
    assert forall n :: n in s.queue ==> n == e || n in s'.queue;
    assert EventFor(s, j) ==> EventFor(s', j);
    if e != Method(j) {
      hide KeyOk, EventFor;
      KeyKept(s, s', j);
    }
  }

  lemma BeginKeys(s: State, k: Key, j: Key)
    requires KeyOk(s, j) && Enabled(s, Begin(k))
    ensures KeyOk(Next(s, Begin(k)), j)
  {
    hide Sound, Settled;
    var s' := Next(s, Begin(k));
    if Sound(s, s.worker, j) { SoundKept(s, s', s.worker, j); }
    if Settled(s, j) { SettledKept(s, s', j); }
  }

  /** The method whose refresh a thread is in the middle of. */
  predicate InMethod(s: State, who: Who, k: Key) {
    !TaskOf(s, who).Idle? && TaskOf(s, who).node == Method(k)
  }

  lemma ListKeys(s: State, who: Who, names: seq<string>, k: Key, j: Key)
    requires KeyOk(s, j) && TasksOk(s) && Enabled(s, List(who, names)) && InMethod(s, who, k)
    ensures KeyOk(Next(s, List(who, names)), j)
  {
    hide Sound, Settled, Enumerates;
    var s' := Next(s, List(who, names));
    if j != k {
      hide KeyOk;
      KeyKept(s, s', j);
    } else {
      ListedSound(s, s', who, k, names);
      if who.Init? && Sound(s, s.worker, j) { SoundKept(s, s', s.worker, j); }
    }
  }

  lemma ListedSound(s: State, s': State, who: Who, k: Key, names: seq<string>)
    requires k in s.tree && Enumerates(names, s.tree[k].instances)
    requires s'.tree == s.tree && k in s'.childWatch
    ensures Sound(s', Listed(Method(k), names, []), k)
  {
    hide Ahead, Agrees;
    var node := s.tree[k];
    assert names == [] ==> forall n :: n !in node.instances;
    assert names != [] ==> names[0] in node.instances;
    ListedAgrees(k, names, node);
    forall n | n in node.instances ensures exists i :: 0 <= i < |names| && names[i] == n {
      assert n in names;
    }
    assert forall i :: 0 <= i < |names| ==> names[i] in names;
  }

  lemma ReadInstanceSound(s: State, t: Task, k: Key, garbage: string, s': State, t': Task)
    requires Sound(s, t, k) && |t.hosts| < |t.names|
    requires s'.tree == s.tree && s'.childWatch == s.childWatch
    requires s'.dataWatch == s.dataWatch + {Instance(k, t.names[|t.hosts|])}
    requires t' == t.(hosts := t.hosts + [s.tree[k].instances[t.names[|t.hosts|]]])
    ensures Sound(s', t', k)
  {
    hide Ahead, Agrees;
    AheadStep(t, s.tree[k], "");
  }

  lemma ReadOwnSound(s: State, t: Task, k: Key, s': State, t': Task)
    requires Sound(s, t, k) && ReadsOwn(t)
    requires s'.tree == s.tree && s'.childWatch == s.childWatch && s'.dataWatch == s.dataWatch + {Method(k)}
    requires t' == t.(hosts := t.hosts + [s.tree[k].data])
    ensures Sound(s', t', k)
  {
    hide Agrees;
    assert t'.hosts == [s.tree[k].data];
  }

  lemma ReadKeys(s: State, a: Action, who: Who, k: Key, j: Key)
    requires KeyOk(s, j) && TasksOk(s) && Enabled(s, a) && InMethod(s, who, k)
    requires (a.ReadInstance? || a.ReadOwn?) && a.who == who
    ensures KeyOk(Next(s, a), j)
  {
    hide Sound, Settled, EventFor;
    var s' := Next(s, a);
    var t, t' := TaskOf(s, who), TaskOf(s', who);
    ReadEffect(s, a, who, k);
    if j != k {
      hide KeyOk;
      KeyKept(s, s', j);
    } else {
      if Sound(s, t, k) { ReadSound(s, a, who, k); }
      if Sound(s, s.worker, k) && who.Init? { SoundKept(s, s', s.worker, k); }
      if Sound(s, s.init, k) && who.Worker? { SoundKept(s, s', s.init, k); }
      if Settled(s, k) { SettledKept(s, s', k); }
    }
  }

  lemma ReadEffect(s: State, a: Action, who: Who, k: Key)
    requires Enabled(s, a) && InMethod(s, who, k) && (a.ReadInstance? || a.ReadOwn?) && a.who == who
    ensures var s' := Next(s, a);
            && s' == WithTask(s.(dataWatch := s'.dataWatch), who, TaskOf(s', who)) && s.dataWatch <= s'.dataWatch
            && TaskOf(s', who).Listed? && TaskOf(s', who).node == Method(k)
            && forall j :: (EventFor(s, j) <==> EventFor(s', j)) && (j != k ==> Keeps(s, s', j)) && Keeps(s, s', k)
  {}

  lemma ReadSound(s: State, a: Action, who: Who, k: Key)
    requires Enabled(s, a) && InMethod(s, who, k) && (a.ReadInstance? || a.ReadOwn?) && a.who == who
    requires Sound(s, TaskOf(s, who), k)
    ensures Sound(Next(s, a), TaskOf(Next(s, a), who), k)
  {
    hide Ahead, Agrees;
    var s' := Next(s, a);
    var t := TaskOf(s, who);
    if a.ReadInstance? {
      assert t.names[|t.hosts|] in s.tree[k].instances;
      hide Sound;
      ReadInstanceSound(s, t, k, a.garbage, s', TaskOf(s', who));
    } else {
      hide Sound;
      ReadOwnSound(s, t, k, s', TaskOf(s', who));
    }
  }

  lemma StoredSettled(s: State, t: Task, k: Key, s': State)
    requires Sound(s, t, k) && Complete(t)
    requires s'.tree == s.tree && s'.childWatch == s.childWatch && s'.dataWatch == s.dataWatch
    requires k in s'.cache && s'.cache[k] == t.hosts
    ensures Settled(s', k)
  {
    hide Agrees, Ahead;
    AheadEnds(t, s.tree[k], "");
  }

  lemma StoreKeys(s: State, who: Who, k: Key, j: Key)
    requires KeyOk(s, j) && TasksOk(s) && Enabled(s, Store(who)) && Orderly(s, Store(who)) && InMethod(s, who, k)
    ensures KeyOk(Next(s, Store(who)), j)
  {
    hide Sound, Settled, EventFor;
    var s' := Next(s, Store(who));
    var t := TaskOf(s, who);
    StoreEffect(s, who, k);
    if j != k {
      hide KeyOk;
      KeyKept(s, s', j);
    } else {
      if Sound(s, t, k) { StoredSettled(s, t, k, s'); }
      if Sound(s, s.worker, k) { SoundUncached(s, s', s.worker, k); }
      if Sound(s, s.init, k) { SoundUncached(s, s', s.init, k); }
    }
  }

  lemma StoreEffect(s: State, who: Who, k: Key)
    requires Enabled(s, Store(who)) && InMethod(s, who, k)
    ensures var s' := Next(s, Store(who)); var t := TaskOf(s, who);
            && s' == WithTask(s.(cache := s.cache[k := t.hosts], found := s'.found), who, Idle)
            && s'.found == (if who.Init? then s.found + {k} else s.found)
            && forall j :: (EventFor(s, j) <==> EventFor(s', j)) && (j != k ==> Keeps(s, s', j))
  {}

  lemma SoundUncached(s: State, s': State, t: Task, k: Key)
    requires Sound(s, t, k) && s'.tree == s.tree && s'.childWatch == s.childWatch && s'.dataWatch == s.dataWatch
    ensures Sound(s', t, k)
  {
    hide Agrees, Ahead;
  }

  // ---------------------------------------------------------------- bookkeeping

  lemma CreateMethodRest(s: State, k: Key, d: string)
    requires Bookkept(s) && Enabled(s, CreateMethod(k, d))
    ensures Bookkept(Next(s, CreateMethod(k, d)))
  {
    hide Legal, Enumerates;
  }

  lemma CreateInstanceRest(s: State, k: Key, n: string, d: string)
    requires Bookkept(s) && Enabled(s, CreateInstance(k, n, d))
    ensures Bookkept(Next(s, CreateInstance(k, n, d)))
  {
    hide Legal, Enumerates;
  }

  lemma DeleteInstanceRest(s: State, k: Key, n: string)
    requires Bookkept(s) && Enabled(s, DeleteInstance(k, n))
    ensures Bookkept(Next(s, DeleteInstance(k, n)))
  {
    hide Legal, Enumerates;
  }

  lemma SetMethodDataRest(s: State, k: Key, d: string)
    requires Bookkept(s) && Enabled(s, SetMethodData(k, d))
    ensures Bookkept(Next(s, SetMethodData(k, d)))
  {
    hide Legal, Enumerates;
  }

  lemma DeliverRest(s: State)
    requires Bookkept(s) && Enabled(s, Deliver)
    ensures Bookkept(Next(s, Deliver))
  {
    hide Legal, Enumerates;
    assert s.inflight[0] in s.inflight;
  }

  lemma PopRest(s: State)
    requires Bookkept(s) && Enabled(s, Pop)
    ensures Bookkept(Next(s, Pop))
  {
    hide Legal, Enumerates;
    assert s.queue[0] in s.queue;
  }

  lemma BeginRest(s: State, k: Key)
    requires Bookkept(s) && Enabled(s, Begin(k))
    ensures Bookkept(Next(s, Begin(k)))
  {
    hide Legal, Enumerates;
  }

  lemma ListRest(s: State, who: Who, names: seq<string>)
    requires Bookkept(s) && Enabled(s, List(who, names))
    ensures Bookkept(Next(s, List(who, names)))
  {
    hide Legal, Enumerates;
  }

  lemma StoreRest(s: State, who: Who)
    requires Bookkept(s) && Enabled(s, Store(who))
    ensures Bookkept(Next(s, Store(who)))
  {
    hide Legal, Enumerates;
  }

  lemma ReadRest(s: State, a: Action, who: Who)
    requires Bookkept(s) && Enabled(s, a) && (a.ReadInstance? || a.ReadOwn?) && a.who == who
    ensures Bookkept(Next(s, a))
  {
    AtMethod(s, who);
    ReadEffect(s, a, who, TaskOf(s, who).node.key);
    ReadShape(s, a, who);
    ReadWatches(s, a, who);
    hide Next;
  }

  lemma ReadShape(s: State, a: Action, who: Who)
    requires Enabled(s, a) && (a.ReadInstance? || a.ReadOwn?) && a.who == who
    ensures Shaped(TaskOf(Next(s, a), who))
  {}

  lemma ReadWatches(s: State, a: Action, who: Who)
    requires Enabled(s, a) && (a.ReadInstance? || a.ReadOwn?) && a.who == who
    ensures forall n :: n in Next(s, a).dataWatch ==> n in s.dataWatch || n.key == TaskOf(s, who).node.key
  {}

  lemma RestKept(s: State, a: Action)
    requires Bookkept(s) && Enabled(s, a) && !a.SetInstanceData?
    ensures Bookkept(Next(s, a))
  {
    hide Next, Enabled, Bookkept;
    match a
    case CreateMethod(k, d) => CreateMethodRest(s, k, d);
    case CreateInstance(k, n, d) => CreateInstanceRest(s, k, n, d);
    case DeleteInstance(k, n) => DeleteInstanceRest(s, k, n);
    case SetMethodData(k, d) => SetMethodDataRest(s, k, d);
    case Deliver => DeliverRest(s);
    case Pop => PopRest(s);
    case Begin(k) => BeginRest(s, k);
    case List(who, names) => ListRest(s, who, names);
    case ReadInstance(who, _) => ReadRest(s, a, who);
    case ReadOwn(who, _) => ReadRest(s, a, who);
    case Store(who) => StoreRest(s, who);
  }

  /** Every step keeps the invariant, unless it is one of the two kinds that Orderly excludes. */
  lemma StepInv(s: State, a: Action)
    requires Inv(s) && Enabled(s, a) && Orderly(s, a)
    ensures Inv(Next(s, a))
  {
    hide KeyOk, Next, Enabled, TasksOk, EventsOk, Orderly;
    NoInstanceData(s, a);
    RestKept(s, a);
    forall j ensures KeyOk(Next(s, a), j) {
      StepKeys(s, a, j);
    }
  }

  lemma NoInstanceData(s: State, a: Action)
    requires Orderly(s, a)
    ensures !a.SetInstanceData?
  {}

  lemma StepKeys(s: State, a: Action, j: Key)
    requires KeyOk(s, j) && TasksOk(s) && Enabled(s, a) && Orderly(s, a)
    ensures KeyOk(Next(s, a), j)
  {
    hide KeyOk, Next, TasksOk;
    match a
    case CreateMethod(k, d) => CreateMethodKeys(s, k, d, j);
    case CreateInstance(_, _, _) => InstancesKeys(s, a, j);
    case DeleteInstance(_, _) => InstancesKeys(s, a, j);
    case SetMethodData(k, d) => SetMethodDataKeys(s, k, d, j);
    case Deliver => DeliverKeys(s, j);
    case Pop => PopKeys(s, j);
    case Begin(k) => BeginKeys(s, k, j);
    case List(who, names) => AtMethod(s, who); ListKeys(s, who, names, TaskOf(s, who).node.key, j);
    case ReadInstance(who, _) => AtMethod(s, who); ReadKeys(s, a, who, TaskOf(s, who).node.key, j);
    case ReadOwn(who, _) => AtMethod(s, who); ReadKeys(s, a, who, TaskOf(s, who).node.key, j);
    case Store(who) => AtMethod(s, who); StoreKeys(s, who, TaskOf(s, who).node.key, j);
  }

  lemma AtMethod(s: State, who: Who)
    requires TasksOk(s) && !TaskOf(s, who).Idle?
    ensures InMethod(s, who, TaskOf(s, who).node.key)
  {}

  // ---------------------------------------------------------------- runs

  /** The actions lead from s to t, each of them orderly if that is asked for. */
  ghost predicate Run(orderly: bool, s: State, acts: seq<Action>, t: State)
    decreases |acts|
  {
    if acts == [] then t == s
    else
      && Enabled(s, acts[0]) && (orderly ==> Orderly(s, acts[0]))
      && Run(orderly, Next(s, acts[0]), acts[1..], t)
  }

  ghost predicate RunsTo(s: State, acts: seq<Action>, t: State) { Run(false, s, acts, t) }

  ghost predicate OrderlyRun(s: State, acts: seq<Action>, t: State) { Run(true, s, acts, t) }

  ghost predicate Leads(s: State, t: State) { exists acts :: RunsTo(s, acts, t) }

  ghost predicate Reaches(s: State, t: State) { exists acts :: OrderlyRun(s, acts, t) }

  lemma {:induction false} RunConcat(orderly: bool, s: State, a: seq<Action>, m: State, b: seq<Action>, t: State)
    requires Run(orderly, s, a, m) && Run(orderly, m, b, t)
    ensures Run(orderly, s, a + b, t)
    decreases |a|
  {
    hide Enabled, Next, Orderly;
    if a == [] {
      assert a + b == b;
    } else {
      assert (a + b)[0] == a[0] && (a + b)[1..] == a[1..] + b;
      RunConcat(orderly, Next(s, a[0]), a[1..], m, b, t);
    }
  }

  lemma {:induction false} PlainRun(s: State, acts: seq<Action>, t: State)
    requires OrderlyRun(s, acts, t)
    ensures RunsTo(s, acts, t)
    decreases |acts|
  {
    hide Enabled, Next, Orderly;
    if acts != [] { PlainRun(Next(s, acts[0]), acts[1..], t); }
  }

  lemma OneStep(orderly: bool, s: State, a: Action, acts: seq<Action>, t: State)
    requires Enabled(s, a) && (orderly ==> Orderly(s, a)) && Run(orderly, Next(s, a), acts, t)
    ensures Run(orderly, s, [a] + acts, t)
  {
    hide Enabled, Next, Orderly;
    assert ([a] + acts)[1..] == acts;
  }

  lemma Then(s: State, m: State, t: State)
    ensures Reaches(s, m) && Reaches(m, t) ==> Reaches(s, t)
    ensures Leads(s, m) && Leads(m, t) ==> Leads(s, t)
  {
    hide Run;
    if Reaches(s, m) && Reaches(m, t) {
      var a :| OrderlyRun(s, a, m);
      var b :| OrderlyRun(m, b, t);
      RunConcat(true, s, a, m, b, t);
      assert OrderlyRun(s, a + b, t);
    }
    if Leads(s, m) && Leads(m, t) {
      var a :| RunsTo(s, a, m);
      var b :| RunsTo(m, b, t);
      RunConcat(false, s, a, m, b, t);
      assert RunsTo(s, a + b, t);
    }
  }

  lemma Here(s: State)
    ensures Reaches(s, s)
  {
    assert OrderlyRun(s, [], s);
  }

  lemma OneMore(s: State, a: Action)
    requires Enabled(s, a)
    ensures Leads(s, Next(s, a))
    ensures Orderly(s, a) ==> Reaches(s, Next(s, a))
  {
    hide Enabled, Next, Orderly;
    var t := Next(s, a);
    assert Run(false, t, [], t) && Run(true, t, [], t);
    OneStep(false, s, a, [], t);
    assert RunsTo(s, [a] + [], t);
    if Orderly(s, a) {
      OneStep(true, s, a, [], t);
      assert OrderlyRun(s, [a] + [], t);
    }
  }

  lemma {:induction false} RunInv(s: State, acts: seq<Action>, t: State)
    requires Inv(s) && OrderlyRun(s, acts, t)
    ensures Inv(t)
    decreases |acts|
  {
    hide Inv, Enabled, Next, Orderly;
    if acts != [] {
      StepInv(s, acts[0]);
      RunInv(Next(s, acts[0]), acts[1..], t);
    }
  }

  lemma InitInv(tree: map<Key, MethodNode>)
    ensures Inv(InitState(tree))
  {}

  predicate Quiescent(s: State) {
    s.inflight == [] && s.queue == [] && s.worker.Idle?
  }

  /** Quiescent consistency: at any moment of any orderly run, a method found by `init` either has an
      event on its way, queued or being handled, or its watches are armed and its cache entry is what
      the tree says; so whenever no event is pending, the cache equals the tree. */
  lemma QuiescentConsistency(tree: map<Key, MethodNode>, acts: seq<Action>, t: State, k: Key)
    requires OrderlyRun(InitState(tree), acts, t) && k in t.found
    ensures EventFor(t, k) || On(t.worker, k) || Settled(t, k)
    ensures Quiescent(t) ==> k in t.tree && k in t.cache && Agrees(t.cache[k], t.tree[k]) && k in t.childWatch
  {
    hide Sound, Agrees;
    InitInv(tree);
    RunInv(InitState(tree), acts, t);
    assert KeyOk(t, k);
  }
}
