/** Where the discovery cache of src/ServiceDiscovery.cc goes wrong for good, and exactly when. */
module DiscoveryLimits {
  import opened Discovery
  import opened Paths

  /** The method's entry is right, or something is still going to refresh it. */
  ghost predicate Right(t: State, k: Key) {
    k in t.found ==> EventFor(t, k) || On(t.worker, k) || (k in t.tree && k in t.cache && Agrees(t.cache[k], t.tree[k]))
  }

  // ---------------------------------------------------------------- the worker overtakes init

  lemma {:induction false} FreshString(strings: set<string>) returns (g: string)
    ensures g !in strings
    ensures forall x :: x in strings ==> |x| < |g|
    decreases |strings|
  {
    if strings == {} {
      g := "";
    } else {
      var x :| x in strings;
      var h := FreshString(strings - {x});
      g := h + x + "!";
      assert forall y :: y in strings ==> y == x || y in strings - {x};
    }
  }

  /** One read by init on a method of the tree. */
  lemma InitReads(s: State, k: Key, g: string) returns (a: Action)
    requires Holds(s.init, k) && Shaped(s.init) && k in s.tree && !Complete(s.init)
    ensures Enabled(s, a) && Orderly(s, a)
    ensures var s' := Next(s, a);
            && Holds(s'.init, k) && Shaped(s'.init) && |s'.init.hosts| == |s.init.hosts| + 1
            && s'.init.names == s.init.names
            && s' == s.(init := s'.init, dataWatch := s'.dataWatch)
            && Ahead(s'.init, s.tree[k], g) == Ahead(s.init, s.tree[k], g)
  {
    hide DataFrom, Ahead;
    var t := s.init;
    if t.names == [] {
      a := ReadOwn(Init, g);
      OwnAhead(t, s.tree[k], g);
    } else {
      a := ReadInstance(Init, g);
      AheadStep(t, s.tree[k], g);
    }
  }

  lemma OwnAhead(t: Task, node: MethodNode, g: string)
    requires ReadsOwn(t)
    ensures Ahead(t.(hosts := t.hosts + [node.data]), node, g) == Ahead(t, node, g)
  {
    assert t.hosts + [node.data] == [node.data];
  }

  /** init reads on and stores what it was going to store. */
  lemma {:induction false} InitFinishes(s: State, k: Key, g: string) returns (acts: seq<Action>, t: State)
    requires Holds(s.init, k) && Shaped(s.init) && k in s.tree
    ensures OrderlyRun(s, acts, t)
    ensures t == s.(init := Idle, dataWatch := t.dataWatch, found := s.found + {k},
                    cache := s.cache[k := Ahead(s.init, s.tree[k], g)])
    decreases |s.init.names| - |s.init.hosts|, if ReadsOwn(s.init) then 1 else 0
  {
    hide Ahead, Orderly;
    if Complete(s.init) {
      AheadEnds(s.init, s.tree[k], g);
      StoreIsOrderly(s);
      t := Next(s, Store(Init));
      assert OrderlyRun(t, [], t);
      OneStep(true, s, Store(Init), [], t);
      acts := [Store(Init)] + [];
    } else {
      var a := InitReads(s, k, g);
      var rest;
      rest, t := InitFinishes(Next(s, a), k, g);
      OneStep(true, s, a, rest, t);
      acts := [a] + rest;
    }
  }

  lemma StoreIsOrderly(s: State)
    ensures Orderly(s, Store(Init))
  {}

  /** A listed instance that is gone reads as garbage, which no agreeing entry contains. */
  lemma GarbageDisagrees(t: Task, node: MethodNode, g: string)
    requires t.Listed? && Shaped(t) && !Readable(t, node)
    requires g !in node.instances.Values && g != node.data
    ensures !Agrees(Ahead(t, node, g), node)
  {
    hide DataFrom, Agrees;
    var i :| |t.hosts| <= i < |t.names| && t.names[i] !in node.instances;
    DataFromAt(node, t.names, |t.hosts|, g);
    var d := DataFrom(node, t.names, |t.hosts|, g);
    assert d[i - |t.hosts|] == g;
    assert Ahead(t, node, g)[i] == g;
    assert g in Ahead(t, node, g);
    if Agrees(Ahead(t, node, g), node) { AgreesMeans(Ahead(t, node, g), node); }
  }

  lemma StrangerDisagrees(g: string, node: MethodNode)
    requires node.instances != map[] && g !in node.instances.Values
    ensures !Agrees([g], node)
  {
    hide Agrees;
    assert g in [g];
    if Agrees([g], node) { AgreesMeans([g], node); }
  }

  /** The overtaking is about to happen. */
  ghost predicate Overtaking(s: State, k: Key) {
    Inv(s) && Enabled(s, Store(Worker)) && s.worker.node == Method(k) && Holds(s.init, k)
  }

  /** What the invariant says at that moment: the worker's refresh is sound unless an event is pending. */
  lemma AtOvertaking(s: State, k: Key)
    requires Overtaking(s, k)
    ensures k in s.tree && k !in s.found && Shaped(s.init)
    ensures EventFor(s, k) || Sound(s, s.worker, k)
    ensures var s' := Next(s, Store(Worker));
            s' == s.(worker := Idle, cache := s'.cache) && (EventFor(s', k) <==> EventFor(s, k))
  {
    hide Sound;
    assert KeyOk(s, k);
  }

  /** Why is init's reading not sound while the worker's, which is complete, is? */
  lemma Reasons(s: State, k: Key)
    requires Complete(s.worker) && Sound(s, s.worker, k) && Holds(s.init, k) && Shaped(s.init) && !Sound(s, s.init, k)
    ensures var node := s.tree[k];
            || !Readable(s.init, node)
            || !Agrees(Ahead(s.init, node, ""), node)
            || (node.instances != map[] && ReadsOwn(s.init) && Method(k) !in s.dataWatch)
  {
    hide Agrees, Ahead;
  }

  /** Another value of the method's own data, which nobody watches. */
  lemma DataChanges(s: State, k: Key, g: string) returns (s': State)
    requires k in s.tree && Method(k) !in s.dataWatch
    ensures Enabled(s, SetMethodData(k, g)) && Orderly(s, SetMethodData(k, g)) && s' == Next(s, SetMethodData(k, g))
    ensures s' == s.(tree := s.tree[k := s.tree[k].(data := g)])
  {
    s' := Next(s, SetMethodData(k, g));
  }

  /** An overtaking for which neither an event is pending nor init's reading is sound can end, by orderly
      steps alone, with a wrong entry that nothing will refresh. */
  lemma OvertakingHarms(s: State, k: Key) returns (acts: seq<Action>, t: State)
    requires Overtaking(s, k) && !EventFor(s, k) && !Sound(s, s.init, k)
    ensures OrderlyRun(Next(s, Store(Worker)), acts, t)
    ensures k in t.found && k in t.tree && k in t.cache && !Agrees(t.cache[k], t.tree[k])
    ensures !EventFor(t, k) && t.worker.Idle? && k in t.childWatch
  {
    hide Inv, Agrees, Ahead, EventFor, Next, Orderly, Readable, Enabled;
    AtOvertaking(s, k);
    OvertakingComplete(s, k);
    Reasons(s, k);
    var s1 := Next(s, Store(Worker));
    var node := s.tree[k];
    var g := FreshString(node.instances.Values + {node.data});
    if !Readable(s.init, node) {
      GarbageDisagrees(s.init, node, g);
      acts, t := InitFinishes(s1, k, g);
      SameEvents(s1, t, k);
    } else if !Agrees(Ahead(s.init, node, ""), node) {
      acts, t := InitFinishes(s1, k, "");
      SameEvents(s1, t, k);
    } else {
      var s2 := DataChanges(s1, k, g);
      var rest;
      rest, t := InitFinishes(s2, k, "");
      OneStep(true, s1, SetMethodData(k, g), rest, t);
      acts := [SetMethodData(k, g)] + rest;
      OwnAheadIs(s.init, s2.tree[k]);
      StrangerDisagrees(g, s2.tree[k]);
      SameEvents(s1, t, k);
    }
  }

  lemma OwnAheadIs(t: Task, node: MethodNode)
    requires ReadsOwn(t)
    ensures Ahead(t, node, "") == [node.data]
  {}

  lemma OvertakingComplete(s: State, k: Key)
    requires Overtaking(s, k)
    ensures Complete(s.worker)
  {}

  lemma SameEvents(s: State, t: State, k: Key)
    requires s.inflight == t.inflight && s.queue == t.queue && s.worker == t.worker
    ensures EventFor(s, k) <==> EventFor(t, k)
  {}

  /** Exactly which overtakings are harmless: those for which another event is pending or init's reading
      is sound. */
  lemma OvertakingHarmlessIff(s: State, k: Key)
    requires Overtaking(s, k)
    ensures (forall t :: Reaches(Next(s, Store(Worker)), t) ==> Right(t, k)) <==> EventFor(s, k) || Sound(s, s.init, k)
  {
    hide Inv, EventFor, Sound, Next, Enabled, OrderlyRun, Agrees, Holds;
    var s' := Next(s, Store(Worker));
    if EventFor(s, k) || Sound(s, s.init, k) {
      assert Orderly(s, Store(Worker));
      StepInv(s, Store(Worker));
      forall t | Reaches(s', t) ensures Right(t, k) {
        var acts :| OrderlyRun(s', acts, t);
        RunInv(s', acts, t);
        InvRight(t, k);
      }
    } else {
      var acts, t := OvertakingHarms(s, k);
      assert Reaches(s', t) && !Right(t, k);
    }
  }

  lemma InvRight(t: State, k: Key)
    requires Inv(t)
    ensures Right(t, k)
  {
    hide Sound, Agrees, EventFor;
    assert KeyOk(t, k);
  }

  // ---------------------------------------------------------------- an instance's data is set

  /** A change below method k. */
  predicate Touches(a: Action, k: Key) {
    match a
    case CreateInstance(j, _, _) => j == k
    case DeleteInstance(j, _) => j == k
    case SetMethodData(j, _) => j == k
    case SetInstanceData(j, _, _) => j == k
    case _ => false
  }

  ghost predicate AllAside(acts: seq<Action>, k: Key) { forall a :: a in acts ==> !Touches(a, k) }

  predicate WorkerAt(s: State, n: Node) { !s.worker.Idle? && s.worker.node == n }

  /** The event for a node is on its way, or being handled. */
  predicate Pending(s: State, n: Node) { n in s.inflight || n in s.queue || WorkerAt(s, n) }

  /** The event is on its way, or handled as far as before the read. */
  predicate Unread(s: State, n: Node) {
    n in s.inflight || n in s.queue || (WorkerAt(s, n) && (s.worker.Listed? ==> s.worker.hosts == []))
  }

  /** The events and tasks that concern method k are all for its instance n, and a read of it gave d. */
  ghost predicate OnlyFor(s: State, k: Key, n: string, d: string) {
    && (!s.init.Idle? ==> s.init.node.key != k)
    && (forall e :: e in s.inflight || e in s.queue ==> e.key == k ==> e == Instance(k, n))
    && (!s.worker.Idle? && s.worker.node.key == k ==>
          && s.worker.node == Instance(k, n)
          && (s.worker.Listed? ==> s.worker.names == [] && (s.worker.hosts == [] || s.worker.hosts == [d])))
  }

  /** Method k while the new data d of its instance n is on its way to the cache, and afterwards. */
  ghost predicate Tracked(s: State, k: Key, n: string, d: string) {
    && k in s.found && k in s.tree && n in s.tree[k].instances && s.tree[k].instances[n] == d && k in s.childWatch
    && (forall x :: x in s.tree[k].instances ==>
          Instance(k, x) in s.dataWatch || (x == n && Unread(s, Instance(k, n))))
    && OnlyFor(s, k, n, d)
    && (Pending(s, Instance(k, n)) || (k in s.cache && s.cache[k] == [d]))
  }

  /** A change below another method, and the event it may fire. */
  lemma TrackedElsewhere(s: State, s': State, e: Node, k: Key, n: string, d: string)
    requires Tracked(s, k, n, d) && e.key != k && k in s'.tree && s'.tree[k] == s.tree[k]
    requires s' == s.(tree := s'.tree, childWatch := s'.childWatch, dataWatch := s'.dataWatch, inflight := s'.inflight)
    requires s'.inflight == s.inflight || s'.inflight == s.inflight + [e]
    requires k in s'.childWatch && forall f :: f in s.dataWatch && f.key == k ==> f in s'.dataWatch
    ensures Tracked(s', k, n, d)
  {
    assert forall f :: f in s'.inflight ==> f in s.inflight || f == e;
    assert forall f :: f in s.inflight ==> f in s'.inflight;
  }

  lemma TrackedTree(s: State, a: Action, k: Key, n: string, d: string)
    requires Tracked(s, k, n, d) && Enabled(s, a) && !Touches(a, k)
    requires a.CreateMethod? || a.CreateInstance? || a.DeleteInstance? || a.SetMethodData? || a.SetInstanceData?
    ensures Tracked(Next(s, a), k, n, d)
  {
    hide OnlyFor, Pending, Unread, Legal;
    var e := if a.SetInstanceData? then Instance(a.key, a.name) else Method(a.key);
    TrackedElsewhere(s, Next(s, a), e, k, n, d);
  }

  lemma TrackedDeliver(s: State, k: Key, n: string, d: string)
    requires Tracked(s, k, n, d) && Enabled(s, Deliver)
    ensures Tracked(Next(s, Deliver), k, n, d)
  {
    var s' := Next(s, Deliver);
    assert s.inflight == [s.inflight[0]] + s.inflight[1..];
    assert forall e :: e in s'.queue <==> e in s.queue || e == s.inflight[0];
  }

  lemma TrackedPop(s: State, k: Key, n: string, d: string)
    requires Tracked(s, k, n, d) && Enabled(s, Pop)
    ensures Tracked(Next(s, Pop), k, n, d)
  {
    assert s.queue == [s.queue[0]] + s.queue[1..];
  }

  lemma TrackedBegin(s: State, j: Key, k: Key, n: string, d: string)
    requires Tracked(s, k, n, d) && Enabled(s, Begin(j))
    ensures Tracked(Next(s, Begin(j)), k, n, d)
  {}

  lemma TrackedList(s: State, who: Who, names: seq<string>, k: Key, n: string, d: string)
    requires Tracked(s, k, n, d) && Enabled(s, List(who, names))
    ensures Tracked(Next(s, List(who, names)), k, n, d)
  {
    hide Enumerates, Exists, Complete;
    if who.Init? { TrackedInitLists(s, names, k, n, d); }
  }

  lemma TrackedInitLists(s: State, names: seq<string>, k: Key, n: string, d: string)
    requires Tracked(s, k, n, d) && Enabled(s, List(Init, names))
    ensures Tracked(Next(s, List(Init, names)), k, n, d)
  {
    hide Enumerates, Exists, Complete;
  }

  /** A read by a thread that is not on method k. */
  lemma TrackedReadElsewhere(s: State, who: Who, e: Node, garbage: string, k: Key, n: string, d: string)
    requires Tracked(s, k, n, d) && TaskOf(s, who).Listed? && TaskOf(s, who).node.key != k && e.key != k
    ensures Tracked(Read(s, who, e, garbage), k, n, d)
  {}

  /** A read of the instance by the worker. */
  lemma TrackedReadHere(s: State, garbage: string, k: Key, n: string, d: string)
    requires Tracked(s, k, n, d) && s.worker == Listed(Instance(k, n), [], [])
    ensures Tracked(Read(s, Worker, Instance(k, n), garbage), k, n, d)
  {
    assert [] + [d] == [d];
  }

  lemma TrackedRead(s: State, a: Action, k: Key, n: string, d: string)
    requires Tracked(s, k, n, d) && Enabled(s, a) && (a.ReadInstance? || a.ReadOwn?)
    ensures Tracked(Next(s, a), k, n, d)
  {
    hide Read, Pending, Unread;
    var t := TaskOf(s, a.who);
    if t.node.key == k {
      TrackedReadHere(s, a.garbage, k, n, d);
    } else if a.ReadInstance? {
      TrackedReadElsewhere(s, a.who, Instance(t.node.key, t.names[|t.hosts|]), a.garbage, k, n, d);
    } else {
      TrackedReadElsewhere(s, a.who, t.node, a.garbage, k, n, d);
    }
  }

  lemma TrackedStore(s: State, who: Who, k: Key, n: string, d: string)
    requires Tracked(s, k, n, d) && Enabled(s, Store(who))
    ensures Tracked(Next(s, Store(who)), k, n, d)
  {}

  lemma TrackedStep(s: State, a: Action, k: Key, n: string, d: string)
    requires Tracked(s, k, n, d) && Enabled(s, a) && !Touches(a, k)
    ensures Tracked(Next(s, a), k, n, d) && k in s.tree && k in Next(s, a).tree && Next(s, a).tree[k] == s.tree[k]
  {
    hide Tracked;
    SameMethod(s, a, k, n, d);
    hide Next, Enabled;
    match a
    case Deliver => TrackedDeliver(s, k, n, d);
    case Pop => TrackedPop(s, k, n, d);
    case Begin(j) => TrackedBegin(s, j, k, n, d);
    case List(who, names) => TrackedList(s, who, names, k, n, d);
    case ReadInstance(_, _) => TrackedRead(s, a, k, n, d);
    case ReadOwn(_, _) => TrackedRead(s, a, k, n, d);
    case Store(who) => TrackedStore(s, who, k, n, d);
    case _ => TrackedTree(s, a, k, n, d);
  }

  lemma SameMethod(s: State, a: Action, k: Key, n: string, d: string)
    requires Tracked(s, k, n, d) && Enabled(s, a) && !Touches(a, k)
    ensures k in s.tree && k in Next(s, a).tree && Next(s, a).tree[k] == s.tree[k]
  {
    hide OnlyFor, Pending, Unread, Enumerates;
  }

  lemma {:induction false} TrackedRun(s: State, acts: seq<Action>, t: State, k: Key, n: string, d: string)
    requires Tracked(s, k, n, d) && RunsTo(s, acts, t) && AllAside(acts, k)
    ensures Tracked(t, k, n, d) && k in s.tree && k in t.tree && t.tree[k] == s.tree[k]
    decreases |acts|
  {
    hide Tracked, Next, Enabled, Touches;
    if acts == [] {
      InTree(s, k, n, d);
    } else {
      assert acts[0] in acts && forall a :: a in acts[1..] ==> a in acts;
      TrackedStep(s, acts[0], k, n, d);
      TrackedRun(Next(s, acts[0]), acts[1..], t, k, n, d);
    }
  }

  lemma InTree(s: State, k: Key, n: string, d: string)
    requires Tracked(s, k, n, d)
    ensures k in s.tree
  {}

  /** A moment at which nothing is pending for a found method. */
  ghost predicate QuietFor(s: State, k: Key) {
    Inv(s) && k in s.found && k in s.tree && !EventFor(s, k) && !On(s.worker, k)
  }

  lemma QuietSettled(s: State, k: Key)
    requires QuietFor(s, k)
    ensures Settled(s, k) && (!s.init.Idle? ==> s.init.node.key != k) && (!s.worker.Idle? ==> s.worker.node.key != k)
    ensures forall e :: e in s.inflight || e in s.queue ==> e.key != k
  {
    hide Sound, Agrees;
    assert KeyOk(s, k);
    forall e | e in s.inflight || e in s.queue ensures e.key != k {
      assert e.Method? && e != Method(k);
    }
  }

  lemma QuietParts(s: State, k: Key)
    requires QuietFor(s, k)
    ensures k in s.tree && k in s.found
  {
    hide Inv;
  }

  lemma TrackedStart(s: State, k: Key, n: string, d: string)
    requires QuietFor(s, k) && n in s.tree[k].instances
    ensures Enabled(s, SetInstanceData(k, n, d)) && Tracked(Next(s, SetInstanceData(k, n, d)), k, n, d)
    ensures var s' := Next(s, SetInstanceData(k, n, d));
            k in s'.tree && s'.tree[k] == s.tree[k].(instances := s.tree[k].instances[n := d])
  {
    hide QuietFor, Agrees;
    QuietSettled(s, k);
    QuietParts(s, k);
    var s' := Next(s, SetInstanceData(k, n, d));
    assert s'.inflight == s.inflight + [Instance(k, n)];
    assert s'.inflight[|s.inflight|] == Instance(k, n);
    assert forall e :: e in s'.inflight ==> e in s.inflight || e == Instance(k, n);
  }

  /** An instance's data is set at a moment when nothing is pending for its method. Whatever the worker,
      `init`, the deliveries and other methods do from then on, whenever nothing is pending for the method
      again, and no other change was made below it, its entry is that instance's data alone. So the entry
      is right if and only if the instance is the only one, and then the method is watched as before. */
  lemma InstanceDataRightIffAlone(s: State, k: Key, n: string, d: string, acts: seq<Action>, t: State)
    requires QuietFor(s, k) && n in s.tree[k].instances
    requires Enabled(s, SetInstanceData(k, n, d)) && RunsTo(Next(s, SetInstanceData(k, n, d)), acts, t)
    requires AllAside(acts, k) && !Pending(t, Instance(k, n))
    ensures k in t.tree && t.tree[k] == s.tree[k].(instances := s.tree[k].instances[n := d])
    ensures k in t.cache && t.cache[k] == [d]
    ensures Agrees(t.cache[k], t.tree[k]) <==> s.tree[k].instances.Keys == {n}
    ensures s.tree[k].instances.Keys == {n} ==> Settled(t, k)
  {
    hide QuietFor, RunsTo, Next, Agrees, OnlyFor, AllAside;
    TrackedStart(s, k, n, d);
    TrackedRun(Next(s, SetInstanceData(k, n, d)), acts, t, k, n, d);
    assert t.tree[k].instances.Keys == s.tree[k].instances.Keys + {n};
    OneHostAgreesIffAlone(t.tree[k], n);
  }

  lemma OneHostAgreesIffAlone(node: MethodNode, n: string)
    requires n in node.instances
    ensures Agrees([node.instances[n]], node) <==> node.instances.Keys == {n}
  {
    if node.instances.Keys == {n} {
      assert Enumerates([n], node.instances) && Reads([node.instances[n]], [n], node);
    }
    if Agrees([node.instances[n]], node) {
      AgreesMeans([node.instances[n]], node);
      OnlyKey(node.instances.Keys, n);
    }
  }

  lemma OnlyKey(keys: set<string>, name: string)
    requires name in keys && |keys| == 1
    ensures keys == {name}
  {
    assert |keys - {name}| == 0;
  }

  // ---------------------------------------------------------------- runs of such settings

  function WithInstances(s: State, k: Key, instances: map<string, string>): State
    requires k in s.tree
  {
    s.(tree := s.tree[k := s.tree[k].(instances := instances)])
  }

  /** The worker handles the event of an instance that is there. */
  lemma InstanceHandled(s: State, k: Key, n: string)
    requires s.worker == Started(Instance(k, n)) && k in s.tree && n in s.tree[k].instances
    ensures Leads(s, s.(worker := Idle, dataWatch := s.dataWatch + {Instance(k, n)},
                        cache := s.cache[k := [s.tree[k].instances[n]]]))
  {
    hide Leads, Enumerates;
    var d := s.tree[k].instances[n];
    var s1 := s.(worker := Listed(Instance(k, n), [], []));
    var s2 := s1.(worker := Listed(Instance(k, n), [], [d]), dataWatch := s.dataWatch + {Instance(k, n)});
    assert [] + [d] == [d];
    assert Next(s, List(Worker, [])) == s1;
    assert Next(s1, ReadOwn(Worker, "")) == s2;
    OneMore(s, List(Worker, []));
    OneMore(s1, ReadOwn(Worker, ""));
    OneMore(s2, Store(Worker));
    Then(s, s1, s2);
    Then(s, s2, Next(s2, Store(Worker)));
  }

  lemma DeliverOne(s: State, n: Node, rest: seq<Node>)
    requires s.inflight == [n] + rest
    ensures Leads(s, s.(inflight := rest, queue := s.queue + [n]))
  {
    hide Leads;
    assert Next(s, Deliver) == s.(inflight := rest, queue := s.queue + [n]);
    OneMore(s, Deliver);
  }

  lemma PopOne(s: State, n: Node, rest: seq<Node>)
    requires s.queue == [n] + rest && s.worker.Idle?
    ensures Leads(s, s.(worker := Started(n), queue := rest))
  {
    hide Leads;
    assert Next(s, Pop) == s.(worker := Started(n), queue := rest);
    OneMore(s, Pop);
  }

  /** The state after the worker alone has handled the new data. */
  function InstanceStored(s: State, k: Key, n: string, d: string): State
    requires k in s.tree
  {
    WithInstances(s, k, s.tree[k].instances[n := d]).(cache := s.cache[k := [d]])
  }

  lemma FiresInstance(s: State, k: Key, n: string, d: string)
    requires k in s.tree && n in s.tree[k].instances && Instance(k, n) in s.dataWatch
    ensures Enabled(s, SetInstanceData(k, n, d))
    ensures Next(s, SetInstanceData(k, n, d))
         == WithInstances(s, k, s.tree[k].instances[n := d])
            .(dataWatch := s.dataWatch - {Instance(k, n)}, inflight := s.inflight + [Instance(k, n)])
  {}

  /** From a quiet state the worker gets there, and if the instance is the only one all is well again. */
  lemma InstanceRun(s: State, k: Key, n: string, d: string) returns (t: State)
    requires QuietFor(s, k) && Quiescent(s) && n in s.tree[k].instances
    ensures t == InstanceStored(s, k, n, d) && Leads(s, t) && Quiescent(t)
    ensures s.tree[k].instances.Keys == {n} ==> Inv(t)
  {
    hide Inv, Leads, Next, Enabled, Agrees;
    var e := Instance(k, n);
    QuietSettled(s, k);
    FiresInstance(s, k, n, d);
    var s1 := Next(s, SetInstanceData(k, n, d));
    OneMore(s, SetInstanceData(k, n, d));
    assert s.inflight + [e] == [e] + [] && s.queue + [e] == [e] + [];
    var s2 := s1.(inflight := [], queue := [e] + []);
    DeliverOne(s1, e, []);
    var s3 := s2.(worker := Started(e), queue := []);
    PopOne(s2, e, []);
    InstanceHandled(s3, k, n);
    t := InstanceStored(s, k, n, d);
    assert s1.dataWatch + {e} == s.dataWatch;
    assert s3.(worker := Idle, dataWatch := s3.dataWatch + {e}, cache := s3.cache[k := [d]]) == t;
    Then(s, s1, s2);
    Then(s, s2, s3);
    Then(s, s3, t);
    if s.tree[k].instances.Keys == {n} { AloneInv(s, k, n, d); }
  }

  lemma AloneInv(s: State, k: Key, n: string, d: string)
    requires QuietFor(s, k) && Quiescent(s) && s.tree[k].instances.Keys == {n}
    ensures Inv(InstanceStored(s, k, n, d))
  {
    hide Agrees, QuietFor;
    QuietSettled(s, k);
    QuietInv(s, k);
    var t := InstanceStored(s, k, n, d);
    assert t.tree[k].instances.Keys == {n} && t.tree[k].instances[n] == d;
    OneHostAgreesIffAlone(t.tree[k], n);
    forall j ensures KeyOk(t, j) {
      assert KeyOk(s, j);
      if j == k { assert Settled(t, k); } else { KeyKept(s, t, j); }
    }
  }

  lemma QuietInv(s: State, k: Key)
    requires QuietFor(s, k)
    ensures Inv(s)
  {
    hide Inv, EventFor;
  }

  /** A second instance comes and goes: the method's one-shot watch is used up. */
  lemma ComesAndGoes(s: State, k: Key, m: string, e: string) returns (u: State)
    requires k in s.tree && m !in s.tree[k].instances && Name(m) && k in s.childWatch && s.inflight == []
    ensures Leads(s, u)
    ensures u == s.(childWatch := s.childWatch - {k}, inflight := [Method(k)],
                    dataWatch := s.dataWatch - {Instance(k, m)})
  {
    hide Leads;
    var node := s.tree[k];
    var s1 := WithInstances(s, k, node.instances[m := e]).(childWatch := s.childWatch - {k}, inflight := [Method(k)]);
    assert s.inflight + [Method(k)] == [Method(k)];
    assert Next(s, CreateInstance(k, m, e)) == s1;
    OneMore(s, CreateInstance(k, m, e));
    assert node.instances[m := e] - {m} == node.instances;
    u := Next(s1, DeleteInstance(k, m));
    OneMore(s1, DeleteInstance(k, m));
    Then(s, s1, u);
    assert s1.tree[k := node] == s.tree;
  }

  /** It comes again, unnoticed. */
  lemma ComesUnnoticed(s: State, k: Key, m: string, e: string)
    requires k in s.tree && m !in s.tree[k].instances && Name(m) && k !in s.childWatch
    ensures Leads(s, WithInstances(s, k, s.tree[k].instances[m := e]))
  {
    hide Leads;
    assert Next(s, CreateInstance(k, m, e)) == WithInstances(s, k, s.tree[k].instances[m := e]);
    OneMore(s, CreateInstance(k, m, e));
  }

  lemma ListTwo(s: State, k: Key, n: string, m: string)
    requires s.worker == Started(Method(k)) && k in s.tree && n != m && s.tree[k].instances.Keys == {n, m}
    ensures Leads(s, s.(worker := Listed(Method(k), [n, m], []), childWatch := s.childWatch + {k}))
  {
    hide Leads;
    var names := [n, m];
    assert names[0] == n && names[1] == m;
    assert forall x :: x in s.tree[k].instances <==> x in {n, m};
    assert Enumerates(names, s.tree[k].instances);
    OneMore(s, List(Worker, names));
  }

  lemma ReadOne(s: State, k: Key, names: seq<string>, hosts: seq<string>)
    requires s.worker == Listed(Method(k), names, hosts) && |hosts| < |names|
    requires k in s.tree && names[|hosts|] in s.tree[k].instances
    ensures var x := names[|hosts|];
            Leads(s, s.(worker := Listed(Method(k), names, hosts + [s.tree[k].instances[x]]),
                        dataWatch := s.dataWatch + {Instance(k, x)}))
  {
    hide Leads;
    OneMore(s, ReadInstance(Worker, ""));
  }

  /** The worker refreshes a method with two instances. */
  lemma RefreshTwo(s: State, k: Key, n: string, m: string)
    requires s.worker == Started(Method(k)) && k in s.tree && n != m && s.tree[k].instances.Keys == {n, m}
    ensures n in s.tree[k].instances && m in s.tree[k].instances
    ensures var i := s.tree[k].instances;
            Leads(s, s.(worker := Idle, childWatch := s.childWatch + {k},
                        dataWatch := s.dataWatch + {Instance(k, n)} + {Instance(k, m)},
                        cache := s.cache[k := [i[n], i[m]]]))
  {
    hide Leads;
    var i, names, node := s.tree[k].instances, [n, m], Method(k);
    assert n in i.Keys && m in i.Keys && names[0] == n && names[1] == m;
    var s1 := s.(worker := Listed(node, names, []), childWatch := s.childWatch + {k});
    var s2 := s1.(worker := Listed(node, names, [i[n]]), dataWatch := s.dataWatch + {Instance(k, n)});
    var s3 := s2.(worker := Listed(node, names, [i[n], i[m]]), dataWatch := s2.dataWatch + {Instance(k, m)});
    assert [] + [i[n]] == [i[n]] && [i[n]] + [i[m]] == [i[n], i[m]];
    ListTwo(s, k, n, m);
    ReadOne(s1, k, names, []);
    ReadOne(s2, k, names, [i[n]]);
    hide Enumerates, Exists;
    OneMore(s3, Store(Worker));
    Then(s, s1, s2);
    Then(s, s2, s3);
    Then(s, s3, Next(s3, Store(Worker)));
  }

  /** The worker handles the event of the method, then that of its instance n. */
  lemma TwoEvents(s: State, k: Key, n: string, m: string) returns (t: State)
    requires s.inflight == [Method(k), Instance(k, n)] && s.queue == [] && s.worker.Idle?
    requires k in s.tree && n != m && s.tree[k].instances.Keys == {n, m}
    ensures Leads(s, t) && Quiescent(t) && t.tree == s.tree && t.found == s.found
    ensures n in s.tree[k].instances && t.cache == s.cache[k := [s.tree[k].instances[n]]]
  {
    hide Leads;
    var e, f := Method(k), Instance(k, n);
    assert n in s.tree[k].instances;
    assert [e, f] == [e] + [f] && [] + [e] == [e] && [e] + [f] == [e, f] && [f] + [] == [f];
    var s1 := s.(inflight := [f], queue := [e]);
    DeliverOne(s, e, [f]);
    var s2 := s.(inflight := [], queue := [e, f]);
    DeliverOne(s1, f, []);
    var s3 := s2.(worker := Started(e), queue := [f]);
    PopOne(s2, e, [f]);
    RefreshTwo(s3, k, n, m);
    var i := s.tree[k].instances;
    var s4 := s3.(worker := Idle, childWatch := s3.childWatch + {k},
                  dataWatch := s3.dataWatch + {Instance(k, n)} + {Instance(k, m)},
                  cache := s3.cache[k := [i[n], i[m]]]);
    var s5 := s4.(worker := Started(f), queue := []);
    PopOne(s4, f, []);
    InstanceHandled(s5, k, n);
    t := s5.(worker := Idle, dataWatch := s5.dataWatch + {f}, cache := s5.cache[k := [i[n]]]);
    Then(s, s1, s2);
    Then(s, s2, s3);
    Then(s, s3, s4);
    Then(s, s4, s5);
    Then(s, s5, t);
  }

  /** That nothing is pending for the method is needed, even for its only instance: in any quiet state of a
      method with one instance, a second one may come and go, the first one's data be set while it is the
      only one, and the second one come again; the worker then handles the older event first, and the
      entry ends wrong with nothing pending. */
  lemma AloneIsNotEnough(s: State, k: Key, n: string, m: string, d: string, e: string) returns (u: State, t: State)
    requires QuietFor(s, k) && Quiescent(s) && s.tree[k].instances.Keys == {n} && m != n && Name(m)
    ensures Leads(s, u) && u.tree == s.tree && Enabled(u, SetInstanceData(k, n, d))
    ensures Leads(Next(u, SetInstanceData(k, n, d)), t) && Quiescent(t) && k in t.found && k in t.tree && k in t.cache
    ensures t.tree[k].instances.Keys == {n, m} && t.cache[k] == [d] && !Agrees(t.cache[k], t.tree[k])
  {
    hide Inv, Leads, Next, Enabled, Agrees, QuietFor;
    QuietSettled(s, k);
    QuietParts(s, k);
    var i := s.tree[k].instances;
    assert n in i && m !in i;
    u := ComesAndGoes(s, k, m, e);
    FiresInstance(u, k, n, d);
    var s1 := Next(u, SetInstanceData(k, n, d));
    assert [Method(k)] + [Instance(k, n)] == [Method(k), Instance(k, n)];
    ComesUnnoticed(s1, k, m, e);
    var s2 := WithInstances(s1, k, s1.tree[k].instances[m := e]);
    assert s2.tree[k].instances.Keys == {n, m} && s2.tree[k].instances[n] == d;
    t := TwoEvents(s2, k, n, m);
    Then(s1, s2, t);
    OneHostAgreesIffAlone(t.tree[k], n);
    assert m in t.tree[k].instances.Keys;
  }

  // ---------------------------------------------------------------- inputs that show it

  const KEY := Key("S", "M")
  const TWO_INSTANCES := MethodNode("", map["a" := "A", "b" := "B"])
  const TREE: map<Key, MethodNode> := map[KEY := TWO_INSTANCES]

  lemma Step(s: State, a: Action, s': State, acts: seq<Action>, t: State) returns (all: seq<Action>)
    requires Enabled(s, a) && Orderly(s, a) && s' == Next(s, a) && OrderlyRun(s', acts, t)
    ensures all == [a] + acts && OrderlyRun(s, all, t)
  {
    hide Enabled, Next, Orderly;
    all := [a] + acts;
    OneStep(true, s, a, acts, t);
  }

  /** The tree with two instances. */
  lemma BothListed()
    ensures Enumerates(["a", "b"], TWO_INSTANCES.instances) && ["a", "b"][0] == "a" && ["a", "b"][1] == "b"
  {
    assert ["a", "b"][0] == "a" && ["a", "b"][1] == "b";
  }

  /** init alone on that tree. */
  lemma InitTwo() returns (acts: seq<Action>, t: State)
    ensures OrderlyRun(InitState(TREE), acts, t) && Quiescent(t) && KEY in t.found && t.tree == TREE
  {
    var k, both := KEY, ["a", "b"];
    var s0 := InitState(TREE);
    var s1 := s0.(init := Started(Method(k)));
    var s2 := s0.(childWatch := {k}, init := Listed(Method(k), both, []));
    BothListed();
    assert Next(s1, List(Init, both)) == s2;
    var rest;
    rest, t := InitFinishes(s2, k, "");
    rest := Step(s1, List(Init, both), s2, rest, t);
    acts := Step(s0, Begin(k), s1, rest, t);
  }

  /** A new value for one of two instances makes the other one disappear from the cache for good. */
  lemma InstanceDataLosesInstance() returns (t: State)
    ensures Leads(InitState(TREE), t)
    ensures Quiescent(t) && KEY in t.found && KEY in t.tree && KEY in t.cache
    ensures t.cache[KEY] == ["C"] && t.tree[KEY].instances == map["a" := "C", "b" := "B"]
    ensures !Agrees(t.cache[KEY], t.tree[KEY])
  {
    hide OrderlyRun, RunsTo, Agrees, Inv, EventFor;
    var acts, s := InitTwo();
    InitInv(TREE);
    RunInv(InitState(TREE), acts, s);
    QuietHere(s, KEY);
    assert "a" in TWO_INSTANCES.instances && "b" in TWO_INSTANCES.instances;
    t := InstanceRun(s, KEY, "a", "C");
    PlainRun(InitState(TREE), acts, s);
    Then(InitState(TREE), s, t);
    assert TWO_INSTANCES.instances["a" := "C"] == map["a" := "C", "b" := "B"];
    OneHostAgreesIffAlone(t.tree[KEY], "a");
    assert "b" in t.tree[KEY].instances.Keys && "b" !in {"a"};
  }

  lemma QuietHere(s: State, k: Key)
    requires Inv(s) && Quiescent(s) && k in s.found
    ensures QuietFor(s, k)
  {
    hide KeyOk;
  }

  const ONE_INSTANCE := MethodNode("", map["a" := "A"])
  const ONE_TREE: map<Key, MethodNode> := map[KEY := ONE_INSTANCE]

  /** The states of a run in which init holds an old listing of the method. */
  function Overtaken(childWatch: set<Key>, dataWatch: set<Node>, queue: seq<Node>, worker: Task): State {
    State(TREE, childWatch, dataWatch, [], queue, worker, Listed(Method(KEY), ["a"], []), {}, map[])
  }

  /** init lists the one instance, a second one comes up, and the event reaches the queue. */
  lemma SecondComesUp(acts: seq<Action>, t: State) returns (all: seq<Action>)
    requires OrderlyRun(Overtaken({}, {}, [Method(KEY)], Idle), acts, t)
    ensures OrderlyRun(InitState(ONE_TREE), all, t)
  {
    hide Enabled, Next, Orderly, OrderlyRun;
    var k := KEY;
    var s0 := InitState(ONE_TREE);
    var s1 := s0.(init := Started(Method(k)));
    var s2 := s0.(childWatch := {k}, init := Listed(Method(k), ["a"], []));
    var s4 := Overtaken({}, {}, [Method(k)], Idle);
    var s3 := s4.(inflight := [Method(k)], queue := []);
    OneListed(s0, s1, s2);
    SecondCreated(s2, s3);
    SecondDelivered(s3, s4);
    all := Step(s3, Deliver, s4, acts, t);
    all := Step(s2, CreateInstance(k, "b", "B"), s3, all, t);
    all := Step(s1, List(Init, ["a"]), s2, all, t);
    all := Step(s0, Begin(k), s1, all, t);
  }

  lemma OneListed(s0: State, s1: State, s2: State)
    requires s0 == InitState(ONE_TREE) && s1 == s0.(init := Started(Method(KEY)))
    requires s2 == s0.(childWatch := {KEY}, init := Listed(Method(KEY), ["a"], []))
    ensures Enabled(s0, Begin(KEY)) && Orderly(s0, Begin(KEY)) && Next(s0, Begin(KEY)) == s1
    ensures Enabled(s1, List(Init, ["a"])) && Orderly(s1, List(Init, ["a"])) && Next(s1, List(Init, ["a"])) == s2
  {
    assert ["a"][0] == "a" && Enumerates(["a"], ONE_INSTANCE.instances);
  }

  lemma SecondDelivered(s3: State, s4: State)
    requires s3.inflight == [Method(KEY)] && s3.queue == [] && s4 == s3.(inflight := [], queue := [Method(KEY)])
    ensures Enabled(s3, Deliver) && Orderly(s3, Deliver) && Next(s3, Deliver) == s4
  {
    assert [] + [Method(KEY)] == [Method(KEY)];
  }

  lemma SecondCreated(s2: State, s3: State)
    requires s2 == State(ONE_TREE, {KEY}, {}, [], [], Idle, Listed(Method(KEY), ["a"], []), {}, map[])
    requires s3 == State(TREE, {}, {}, [Method(KEY)], [], Idle, Listed(Method(KEY), ["a"], []), {}, map[])
    ensures Enabled(s2, CreateInstance(KEY, "b", "B")) && Orderly(s2, CreateInstance(KEY, "b", "B"))
    ensures Next(s2, CreateInstance(KEY, "b", "B")) == s3
  {
    assert ONE_INSTANCE.instances["b" := "B"] == TWO_INSTANCES.instances;
    assert [] + [Method(KEY)] == [Method(KEY)];
  }

  /** The worker refreshes the entry up to its store, while init has not gone on. */
  lemma WorkerCatchesUp() returns (acts: seq<Action>, s: State)
    ensures OrderlyRun(InitState(ONE_TREE), acts, s)
    ensures s.tree == TREE && Complete(s.worker) && s.worker.node == Method(KEY)
    ensures s.init == Listed(Method(KEY), ["a"], []) && s.inflight == [] && s.queue == []
  {
    var k, both := KEY, ["a", "b"];
    var a, b := Instance(k, "a"), Instance(k, "b");
    var s4 := Overtaken({}, {}, [Method(k)], Idle);
    var s5 := Overtaken({}, {}, [], Started(Method(k)));
    var s6 := Overtaken({k}, {}, [], Listed(Method(k), both, []));
    var s7 := Overtaken({k}, {a}, [], Listed(Method(k), both, ["A"]));
    s := Overtaken({k}, {a, b}, [], Listed(Method(k), both, ["A", "B"]));
    BothListed();
    assert [] + ["A"] == ["A"] && ["A"] + ["B"] == ["A", "B"];
    assert Next(s4, Pop) == s5;
    assert Next(s5, List(Worker, both)) == s6;
    assert Next(s6, ReadInstance(Worker, "")) == s7;
    assert {a} + {b} == {a, b};
    assert Next(s7, ReadInstance(Worker, "")) == s;
    assert OrderlyRun(s, [], s);
    acts := Step(s7, ReadInstance(Worker, ""), s, [], s);
    acts := Step(s6, ReadInstance(Worker, ""), s7, acts, s);
    acts := Step(s5, List(Worker, both), s6, acts, s);
    acts := Step(s4, Pop, s5, acts, s);
    acts := SecondComesUp(acts, s);
  }

  /** Without the condition on overtaking, init stores its older reading over the newer entry: nothing is
      pending, the watch is armed, and the second instance is missing for good. */
  lemma OvertakenInitLosesInstance() returns (t: State)
    ensures Leads(InitState(ONE_TREE), t)
    ensures KEY in t.found && KEY in t.cache && KEY in t.tree && KEY in t.childWatch
    ensures !Agrees(t.cache[KEY], t.tree[KEY]) && !EventFor(t, KEY) && t.worker.Idle?
  {
    hide OrderlyRun, RunsTo, Agrees, Inv, Next;
    var acts, s := WorkerCatchesUp();
    InitInv(ONE_TREE);
    RunInv(InitState(ONE_TREE), acts, s);
    StaleListing(s);
    var more;
    more, t := OvertakingHarms(s, KEY);
    PlainRun(InitState(ONE_TREE), acts, s);
    PlainRun(Next(s, Store(Worker)), more, t);
    OneMore(s, Store(Worker));
    Then(InitState(ONE_TREE), s, Next(s, Store(Worker)));
    Then(InitState(ONE_TREE), Next(s, Store(Worker)), t);
  }

  lemma StaleListing(s: State)
    requires s.tree == TREE && s.init == Listed(Method(KEY), ["a"], [])
    ensures !Sound(s, s.init, KEY)
  {
    hide Agrees;
    var node := TWO_INSTANCES;
    DataFromAt(node, ["a"], 0, "");
    assert node.instances.Keys == {"a", "b"} && |{"a", "b"}| == 2;
    if Agrees(Ahead(s.init, node, ""), node) {
      AgreesMeans(Ahead(s.init, node, ""), node);
    }
  }
}
