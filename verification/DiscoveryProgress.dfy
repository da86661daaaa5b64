/** The discovery worker of src/ServiceDiscovery.cc catches up: left alone, it empties the queue after
    finitely many steps, and then the cache is right. */
module DiscoveryProgress {
  import opened Discovery

  /** Steps of the worker and of the thread that brings it events. */
  predicate WorkerStep(a: Action) {
    match a
    case Deliver => true
    case Pop => true
    case List(who, _) => who.Worker?
    case ReadInstance(who, _) => who.Worker?
    case ReadOwn(who, _) => who.Worker?
    case Store(who) => who.Worker?
    case _ => false
  }

  /** What is left of the event at hand. */
  function Left(t: Task): nat {
    match t
    case Idle => 0
    case Started(_) => 1
    case Listed(_, names, hosts) =>
      if |hosts| >= |names| then (if names == [] && hosts == [] then 2 else 1) else |names| - |hosts| + 1
  }

  function Phase(t: Task): nat { if t.Started? then 1 else 0 }

  /** The measure: lexicographically smaller. */
  predicate Less(s': State, s: State) {
    || |s'.inflight| < |s.inflight|
    || (|s'.inflight| == |s.inflight| && |s'.queue| < |s.queue|)
    || (|s'.inflight| == |s.inflight| && |s'.queue| == |s.queue| && Phase(s'.worker) < Phase(s.worker))
    || (|s'.inflight| == |s.inflight| && |s'.queue| == |s.queue| && Phase(s'.worker) == Phase(s.worker)
        && Left(s'.worker) < Left(s.worker))
  }

  lemma WorkerStepDecreases(s: State, a: Action)
    requires Enabled(s, a) && WorkerStep(a)
    ensures Less(Next(s, a), s)
  {
    hide Enumerates;
  }

  /** While an event is pending some worker step can be taken. */
  lemma SomeWorkerStep(s: State) returns (a: Action)
    requires Inv(s) && !Quiescent(s)
    ensures WorkerStep(a) && Enabled(s, a)
  {
    hide KeyOk, Enumerates;
    if s.inflight != [] {
      a := Deliver;
    } else if s.worker.Idle? {
      a := Pop;
    } else if s.worker.Started? {
      var names := AListing(s.tree[s.worker.node.key].instances);
      a := List(Worker, names);
    } else if Complete(s.worker) {
      a := Store(Worker);
    } else if s.worker.names == [] {
      a := ReadOwn(Worker, "");
    } else {
      a := ReadInstance(Worker, "");
    }
  }

  lemma {:induction false} AListing(m: map<string, string>) returns (names: seq<string>)
    ensures Enumerates(names, m)
    decreases |m|
  {
    if m == map[] {
      names := [];
    } else {
      var n :| n in m;
      var rest := AListing(m - {n});
      names := rest + [n];
    }
  }

  ghost predicate AllWorker(acts: seq<Action>) { forall a :: a in acts ==> WorkerStep(a) }

  ghost predicate WorkerAtRest(s: State) { forall a :: WorkerStep(a) ==> !Enabled(s, a) }

  /** A worker step with init out of the way changes neither the tree nor what init found. */
  lemma WorkerStepKeeps(s: State, a: Action)
    requires Enabled(s, a) && WorkerStep(a) && s.init.Idle?
    ensures Orderly(s, a)
    ensures Next(s, a).tree == s.tree && Next(s, a).found == s.found && Next(s, a).init.Idle?
  {
    hide Enumerates;
  }

  lemma {:induction false} WorkerRun(s: State, acts: seq<Action>, t: State)
    requires Inv(s) && s.init.Idle? && OrderlyRun(s, acts, t) && AllWorker(acts)
    ensures Inv(t) && t.tree == s.tree && t.found == s.found && t.init.Idle?
    decreases |acts|
  {
    hide Inv, Enabled, Next, Orderly, WorkerStep;
    if acts != [] {
      assert acts[0] in acts && forall a :: a in acts[1..] ==> a in acts;
      StepInv(s, acts[0]);
      WorkerStepKeeps(s, acts[0]);
      WorkerRun(Next(s, acts[0]), acts[1..], t);
    }
  }

  /** Once `init` has returned and the tree stands still, every run of the worker that cannot go on has
      emptied the queue and left every entry right. */
  lemma CatchesUp(s: State, acts: seq<Action>, t: State)
    requires Inv(s) && s.init.Idle? && OrderlyRun(s, acts, t) && AllWorker(acts) && WorkerAtRest(t)
    ensures Quiescent(t)
    ensures forall k :: k in s.found ==> k in s.tree && k in t.cache && Agrees(t.cache[k], s.tree[k])
  {
    hide Inv, Agrees, OrderlyRun, WorkerStep, Enabled;
    WorkerRun(s, acts, t);
    if !Quiescent(t) { var a := SomeWorkerStep(t); }
    forall k | k in s.found ensures k in s.tree && k in t.cache && Agrees(t.cache[k], s.tree[k]) {
      QuietRight(t, k);
    }
  }

  lemma QuietRight(t: State, k: Key)
    requires Inv(t) && Quiescent(t) && k in t.found
    ensures k in t.tree && k in t.cache && Agrees(t.cache[k], t.tree[k])
  {
    hide Agrees, Sound;
    assert KeyOk(t, k);
  }

  /** And it gets there: no worker run goes on forever. */
  lemma {:induction false} CanCatchUp(s: State) returns (acts: seq<Action>, t: State)
    requires Inv(s) && s.init.Idle?
    ensures OrderlyRun(s, acts, t) && AllWorker(acts) && Quiescent(t)
    decreases |s.inflight|, |s.queue|, Phase(s.worker), Left(s.worker)
  {
    hide Inv, Enabled, Next, Orderly, WorkerStep, Phase, Left;
    if Quiescent(s) {
      acts, t := [], s;
    } else {
      var a := SomeWorkerStep(s);
      WorkerStepKeeps(s, a);
      StepInv(s, a);
      WorkerStepDecreases(s, a);
      var rest;
      rest, t := CanCatchUp(Next(s, a));
      acts := [a] + rest;
      assert acts[1..] == rest;
    }
  }
}
