/** How servers publish themselves: `NotifyService` and the registration loops of `Run`
    (src/RPCServer.cc), over `ZkClient::Create` (src/Zookeeperutil.cc). */
module Registry {
  import opened Paths
  import Address

  datatype Znode = Znode(data: string, ephemeral: bool)
  type Tree = map<string, Znode>

  function Parent(path: string): string {
    var parts := Pieces(path, SLASH, "");
    if parts == [] then "" else PathOf(parts[..|parts| - 1])
  }

  predicate ValidPath(path: string) {
    path != "" && PathOf(Pieces(path, SLASH, "")) == path
  }

  predicate Ephemeral(tree: Tree, path: string) { path in tree && tree[path].ephemeral }

  /** ZooKeeper creates a node only below an existing node that is not ephemeral. */
  predicate HasParent(tree: Tree, path: string) {
    Parent(path) == "" || (Parent(path) in tree && !tree[Parent(path)].ephemeral)
  }

  /** Every node hangs below a persistent node of the tree. */
  ghost predicate TreeOk(tree: Tree) {
    forall p :: p in tree ==> HasParent(tree, p)
  }

  class ZooKeeper {
    var tree: Tree

    constructor ()
      ensures tree == map[]
    {
      tree := map[];
    }

    /** `ZkClient::Create`: nothing happens to an existing node, and a creation that ZooKeeper refuses
        ends the process, which the result false stands for. */
    method Create(path: string, data: string, ephemeral: bool) returns (ok: bool)
      modifies this
      ensures ok <==> path in old(tree) || (ValidPath(path) && HasParent(old(tree), path))
      ensures tree == if ok && path !in old(tree) then old(tree)[path := Znode(data, ephemeral)] else old(tree)
    {
      ok := true;
      if path !in tree {
        ok := ValidPath(path) && HasParent(tree, path);
        if ok { tree := tree[path := Znode(data, ephemeral)]; }
      }
    }
  }

  // ---------------------------------------------------------------- the services of a server

  /** The method table of a service: the descriptor index under each method name. */
  type Services = map<string, map<string, nat>>

  datatype Descriptor = Descriptor(name: string, methods: seq<string>)

  /** Each name leads to the first method so named. */
  ghost predicate IsTable(methods: seq<string>, table: map<string, nat>) {
    && (forall n :: n in methods <==> n in table)
    && forall n :: n in table ==> table[n] < |methods| && methods[table[n]] == n && n !in methods[..table[n]]
  }

  predicate NamesOk(services: Services) {
    forall s :: s in services ==> Name(s) && forall m :: m in services[s] ==> Name(m)
  }

  // ---------------------------------------------------------------- what a registration writes

  /** The node that registration puts at a path: instances hold their own name and live as long as the
      server's session, services and methods are empty and stay. */
  function NodeFor(path: string): Znode {
    var parts := Pieces(path, SLASH, "");
    if |parts| == 3 then Znode(parts[2], true) else Znode("", false)
  }

  /** The tree with nodes at the given paths, keeping what was there. */
  function After(tree: Tree, paths: set<string>): Tree {
    map p | p in tree.Keys + paths :: if p in tree then tree[p] else NodeFor(p)
  }

  /** What a server writes for some of the methods of a service. */
  ghost function PathsOfService(s: string, methods: set<string>, host: string): set<string> {
    {PathOf([s])} + (set m | m in methods :: PathOf([s, m])) + InstancesOf(s, methods, host)
  }

  ghost function InstancesOf(s: string, methods: set<string>, host: string): set<string> {
    set m | m in methods :: PathOf([s, m, host])
  }

  /** What it writes for some of its services, and which of that are instances. */
  ghost function Written(services: Services, some: set<string>, host: string): set<string> {
    set s, p | s in some && s in services && p in PathsOfService(s, services[s].Keys, host) :: p
  }

  ghost function Instances(services: Services, some: set<string>, host: string): set<string> {
    set s, p | s in some && s in services && p in InstancesOf(s, services[s].Keys, host) :: p
  }

  ghost function Plan(services: Services, host: string): set<string> { Written(services, services.Keys, host) }

  /** No node that would have to carry a child is ephemeral. */
  ghost predicate Registrable(tree: Tree, services: Services) {
    forall s :: s in services ==> Free(tree, s, services[s].Keys)
  }

  ghost predicate Free(tree: Tree, s: string, methods: set<string>) {
    forall m :: m in methods ==> !Ephemeral(tree, PathOf([s])) && !Ephemeral(tree, PathOf([s, m]))
  }

  lemma OneMore(s: string, methods: set<string>, m: string, host: string)
    ensures PathsOfService(s, methods + {m}, host) ==
            PathsOfService(s, methods, host) + {PathOf([s, m]), PathOf([s, m, host])}
    ensures InstancesOf(s, methods + {m}, host) == InstancesOf(s, methods, host) + {PathOf([s, m, host])}
  {}

  lemma NoneYet(s: string, host: string)
    ensures PathsOfService(s, {}, host) == {PathOf([s])} && InstancesOf(s, {}, host) == {}
  {}

  lemma OneMoreService(services: Services, some: set<string>, s: string, host: string)
    requires s in services
    ensures Written(services, some + {s}, host) ==
            Written(services, some, host) + PathsOfService(s, services[s].Keys, host)
    ensures Instances(services, some + {s}, host) ==
            Instances(services, some, host) + InstancesOf(s, services[s].Keys, host)
  {
    hide PathsOfService, InstancesOf;
  }

  ghost predicate Recorded(before: seq<string>, after: seq<string>, paths: set<string>) {
    forall p :: p in after <==> p in before || p in paths
  }

  lemma AfterNothing(tree: Tree)
    ensures After(tree, {}) == tree
  {}

  lemma PathsOfNames(s: string, m: string, h: string)
    requires Name(s) && Name(m) && Name(h)
    ensures PathOf([s]) == "/" + s
    ensures PathOf([s, m]) == PathOf([s]) + "/" + m
    ensures PathOf([s, m, h]) == PathOf([s, m]) + "/" + h
    ensures ValidPath(PathOf([s])) && ValidPath(PathOf([s, m])) && ValidPath(PathOf([s, m, h]))
    ensures Parent(PathOf([s])) == ""
    ensures Parent(PathOf([s, m])) == PathOf([s]) != ""
    ensures Parent(PathOf([s, m, h])) == PathOf([s, m]) != ""
    ensures NodeFor(PathOf([s])) == NodeFor(PathOf([s, m])) == Znode("", false)
    ensures NodeFor(PathOf([s, m, h])) == Znode(h, true)
  {
    SplitPath([s]);
    SplitPath([s, m]);
    SplitPath([s, m, h]);
    assert [s] + [m] == [s, m] && [s, m] + [h] == [s, m, h];
    PathSnoc([], s);
    PathSnoc([s], m);
    PathSnoc([s, m], h);
    assert [] + [s] == [s];
    assert [s, m][..1] == [s] && [s, m, h][..2] == [s, m] && [s][..0] == [];
  }

  lemma AfterOne(tree: Tree, paths: set<string>, p: string)
    ensures After(tree, paths + {p}) == if p in After(tree, paths) then After(tree, paths)
                                        else After(tree, paths)[p := NodeFor(p)]
  {}

  lemma StillOk(tree: Tree, p: string, node: Znode)
    requires TreeOk(tree) && HasParent(tree, p) && p !in tree
    ensures TreeOk(tree[p := node])
  {
    var grown := tree[p := node];
    forall q | q in grown ensures HasParent(grown, q) {
      if q in tree { assert HasParent(tree, q); }
    }
  }

  lemma Hangs(tree: Tree, p: string)
    requires TreeOk(tree)
    ensures p in tree ==> HasParent(tree, p)
  {}

  lemma EphemeralKept(tree: Tree, paths: set<string>, p: string)
    requires !NodeFor(p).ephemeral && p in After(tree, paths)
    ensures Ephemeral(After(tree, paths), p) <==> Ephemeral(tree, p)
  {}

  /** Creating a node that is there or may be created leads from one `After` to the next. */
  lemma Created(tree0: Tree, done: set<string>, p: string, tree: Tree)
    requires TreeOk(After(tree0, done)) && (p in After(tree0, done) || HasParent(After(tree0, done), p))
    requires tree == if p in After(tree0, done) then After(tree0, done) else After(tree0, done)[p := NodeFor(p)]
    ensures tree == After(tree0, done + {p}) && TreeOk(tree) && p in tree
  {
    hide HasParent, TreeOk, NodeFor;
    AfterOne(tree0, done, p);
    if p !in After(tree0, done) { StillOk(After(tree0, done), p, NodeFor(p)); }
  }

  lemma HostIsName(ip: string, port: int)
    requires SLASH !in ip
    ensures Name(Address.HostString(ip, port))
  {
    if port < 0 { Address.DecimalRead(-port); } else { Address.DecimalRead(port); }
  }

  class RpcServer {
    var serviceMap: Services
    var instancePaths: seq<string>

    constructor ()
      ensures serviceMap == map[] && instancePaths == []
    {
      serviceMap := map[];
      instancePaths := [];
    }

    /** `NotifyService`: both tables are filled with emplace, so the first entry under a name stays. */
    method NotifyService(service: Descriptor)
      modifies this`serviceMap
      ensures service.name in old(serviceMap) ==> serviceMap == old(serviceMap)
      ensures service.name !in old(serviceMap) ==>
                && service.name in serviceMap && IsTable(service.methods, serviceMap[service.name])
                && serviceMap == old(serviceMap)[service.name := serviceMap[service.name]]
    {
      var methodMap: map<string, nat> := map[];
      for i := 0 to |service.methods|
        invariant IsTable(service.methods[..i], methodMap)
      {
        var name := service.methods[i];
        assert service.methods[..i + 1] == service.methods[..i] + [name];
        if name !in methodMap { methodMap := methodMap[name := i]; }
        assert forall n :: n in methodMap ==>
               service.methods[..i + 1][..methodMap[n]] == service.methods[..i][..methodMap[n]];
      }
      assert service.methods[..|service.methods|] == service.methods;
      if service.name !in serviceMap { serviceMap := serviceMap[service.name := methodMap]; }
    }

    /** One turn of the inner loop: the method node, and this server's instance below it. */
    method RegisterMethod(zk: ZooKeeper, s: string, m: string, host: string, ghost tree0: Tree, ghost done: set<string>)
        returns (ok: bool)
      requires Name(s) && Name(m) && Name(host)
      requires TreeOk(zk.tree) && zk.tree == After(tree0, done) && PathOf([s]) in zk.tree
      modifies zk, this`instancePaths
      ensures TreeOk(zk.tree)
      ensures ok <==> Free(tree0, s, {m})
      ensures ok ==> zk.tree == After(tree0, done + {PathOf([s, m]), PathOf([s, m, host])})
      ensures ok ==> instancePaths == old(instancePaths) + [PathOf([s, m, host])]
      ensures old(zk.tree).Keys <= zk.tree.Keys
    {
      hide ValidPath, NodeFor, TreeOk, After, PathOf, Parent;
      PathsOfNames(s, m, host);
      EphemeralKept(tree0, done, PathOf([s]));
      var methodPath := "/" + s + "/" + m;
      assert methodPath in zk.tree ==> HasParent(zk.tree, methodPath) by { Hangs(zk.tree, methodPath); }
      ok := zk.Create(methodPath, "", false);
      if !ok { return; }
      Created(tree0, done, methodPath, zk.tree);
      ghost var done' := done + {methodPath};
      EphemeralKept(tree0, done', methodPath);
      var instancePath := methodPath + "/" + host;
      assert instancePath in zk.tree ==> HasParent(zk.tree, instancePath) by { Hangs(zk.tree, instancePath); }
      ok := zk.Create(instancePath, host, true);
      if !ok { return; }
      Created(tree0, done', instancePath, zk.tree);
      assert done' + {instancePath} == done + {PathOf([s, m]), PathOf([s, m, host])};
      instancePaths := instancePaths + [instancePath];
    }

    /** One turn of the outer loop: the service node, then each method in any order. */
    method RegisterService(zk: ZooKeeper, s: string, host: string, ghost tree0: Tree, ghost done: set<string>)
        returns (ok: bool)
      requires NamesOk(serviceMap) && s in serviceMap && Name(host)
      requires TreeOk(zk.tree) && zk.tree == After(tree0, done)
      modifies this`instancePaths, zk
      ensures TreeOk(zk.tree)
      ensures ok <==> Free(tree0, s, serviceMap[s].Keys)
      ensures ok ==> zk.tree == After(tree0, done + PathsOfService(s, serviceMap[s].Keys, host))
      ensures ok ==> Recorded(old(instancePaths), instancePaths, InstancesOf(s, serviceMap[s].Keys, host))
    {
      hide ValidPath, Parent, NodeFor, TreeOk, After, PathOf, PathsOfService, InstancesOf;
      PathsOfNames(s, s, s);
      NoneYet(s, host);
      ghost var now := done + {PathOf([s])};
      var service := "/" + s;
      ok := zk.Create(service, "", false);
      Created(tree0, done, service, zk.tree);
      var methods := serviceMap[s].Keys;
      assert serviceMap[s].Keys - methods == {};
      while methods != {}
        invariant methods <= serviceMap[s].Keys
        invariant TreeOk(zk.tree) && zk.tree == After(tree0, now) && PathOf([s]) in zk.tree
        invariant now == done + PathsOfService(s, serviceMap[s].Keys - methods, host)
        invariant Free(tree0, s, serviceMap[s].Keys - methods)
        invariant Recorded(old(instancePaths), instancePaths, InstancesOf(s, serviceMap[s].Keys - methods, host))
      {
        var m :| m in methods;
        ok := RegisterMethod(zk, s, m, host, tree0, now);
        if !ok { return; }
        OneMore(s, serviceMap[s].Keys - methods, m, host);
        now := now + {PathOf([s, m]), PathOf([s, m, host])};
        assert serviceMap[s].Keys - methods + {m} == serviceMap[s].Keys - (methods - {m});
        methods := methods - {m};
      }
      assert serviceMap[s].Keys - methods == serviceMap[s].Keys;
      ok := true;
    }

    /** The registration loops of `Run`, over hash maps in any order. They succeed if and only if no
        service or method node that must carry a child is ephemeral, and then the tree has exactly the
        planned nodes more. */
    method Register(zk: ZooKeeper, ip: string, port: int) returns (ok: bool)
      requires NamesOk(serviceMap) && SLASH !in ip && TreeOk(zk.tree)
      modifies this`instancePaths, zk
      ensures TreeOk(zk.tree)
      ensures ok <==> Registrable(old(zk.tree), serviceMap)
      ensures ok ==> zk.tree == After(old(zk.tree), Plan(serviceMap, Address.HostString(ip, port)))
      ensures ok ==> Recorded(old(instancePaths), instancePaths,
                              Instances(serviceMap, serviceMap.Keys, Address.HostString(ip, port)))
    {
      hide ValidPath, HasParent, NodeFor, TreeOk, After, PathOf, Free, PathsOfService, InstancesOf;
      ghost var tree0 := zk.tree;
      ghost var done: set<string> := {};
      var host := Address.HostString(ip, port);
      HostIsName(ip, port);
      AfterNothing(tree0);
      var services := serviceMap.Keys;
      while services != {}
        invariant services <= serviceMap.Keys
        invariant TreeOk(zk.tree) && zk.tree == After(tree0, done)
        invariant done == Written(serviceMap, serviceMap.Keys - services, host)
        invariant forall s :: s in serviceMap.Keys - services ==> Free(tree0, s, serviceMap[s].Keys)
        invariant Recorded(old(instancePaths), instancePaths, Instances(serviceMap, serviceMap.Keys - services, host))
      {
        var s :| s in services;
        ok := RegisterService(zk, s, host, tree0, done);
        if !ok { return; }
        OneMoreService(serviceMap, serviceMap.Keys - services, s, host);
        done := done + PathsOfService(s, serviceMap[s].Keys, host);
        assert serviceMap.Keys - services + {s} == serviceMap.Keys - (services - {s});
        services := services - {s};
      }
      ok := true;
      assert serviceMap.Keys - services == serviceMap.Keys;
    }
  }

  // ---------------------------------------------------------------- many servers

  datatype Server = Server(services: Services, ip: string, port: int)

  predicate ServerOk(v: Server) { NamesOk(v.services) && SLASH !in v.ip }

  function HostOf(v: Server): string { Address.HostString(v.ip, v.port) }

  ghost function AfterServer(tree: Tree, v: Server): Tree { After(tree, Plan(v.services, HostOf(v))) }

  /** The tree after the servers have registered one after the other. */
  ghost function AfterAll(tree: Tree, servers: seq<Server>): Tree
    decreases |servers|
  {
    if servers == [] then tree else AfterAll(AfterServer(tree, servers[0]), servers[1..])
  }

  ghost function Plans(servers: seq<Server>): set<string> {
    set v, p | v in servers && p in Plan(v.services, HostOf(v)) :: p
  }

  lemma AfterAfter(tree: Tree, a: set<string>, b: set<string>)
    ensures After(After(tree, a), b) == After(tree, a + b)
  {
    hide NodeFor;
  }

  lemma {:induction false} AfterAllIsAfter(tree: Tree, servers: seq<Server>)
    ensures AfterAll(tree, servers) == After(tree, Plans(servers))
    decreases |servers|
  {
    hide After, Plan;
    if servers == [] {
      AfterNothing(tree);
      assert Plans(servers) == {};
    } else {
      var first := Plan(servers[0].services, HostOf(servers[0]));
      AfterAllIsAfter(AfterServer(tree, servers[0]), servers[1..]);
      AfterAfter(tree, first, Plans(servers[1..]));
      assert servers[0] in servers;
      assert forall v :: v in servers <==> v == servers[0] || v in servers[1..];
      assert first + Plans(servers[1..]) == Plans(servers);
    }
  }

  /** The same servers leave the same tree whatever the order they came in, and however often. */
  lemma SameTreeInAnyOrder(tree: Tree, a: seq<Server>, b: seq<Server>)
    requires forall v :: v in a <==> v in b
    ensures AfterAll(tree, a) == AfterAll(tree, b)
  {
    hide Plan;
    AfterAllIsAfter(tree, a);
    AfterAllIsAfter(tree, b);
    assert Plans(a) == Plans(b);
  }

  lemma EphemeralKeptAt(tree: Tree, paths: set<string>, p: string)
    requires !NodeFor(p).ephemeral
    ensures Ephemeral(After(tree, paths), p) <==> Ephemeral(tree, p)
  {}

  /** No registration gets in the way of another. */
  lemma RegistrableAfter(tree: Tree, paths: set<string>, services: Services)
    requires NamesOk(services)
    ensures Registrable(After(tree, paths), services) <==> Registrable(tree, services)
  {
    hide After, NodeFor, Ephemeral;
    forall s, m | s in services && m in services[s]
      ensures Ephemeral(After(tree, paths), PathOf([s])) <==> Ephemeral(tree, PathOf([s]))
      ensures Ephemeral(After(tree, paths), PathOf([s, m])) <==> Ephemeral(tree, PathOf([s, m]))
    {
      PathsOfNames(s, m, m);
      EphemeralKeptAt(tree, paths, PathOf([s]));
      EphemeralKeptAt(tree, paths, PathOf([s, m]));
    }
    forall s | s in services
      ensures Free(After(tree, paths), s, services[s].Keys) <==> Free(tree, s, services[s].Keys)
    {}
  }

  lemma WrittenHangs(tree: Tree, v: Server, p: string)
    requires TreeOk(tree) && ServerOk(v) && Registrable(tree, v.services)
    requires p in Plan(v.services, HostOf(v))
    ensures HasParent(AfterServer(tree, v), p)
  {
    hide NodeFor, Parent, PathOf, HostOf;
    var h := HostOf(v);
    assert Name(h) by { HostIsName(v.ip, v.port); HostOfIs(v); }
    var s :| s in v.services && p in PathsOfService(s, v.services[s].Keys, h);
    PathsOfNames(s, s, h);
    if p != PathOf([s]) {
      var m :| m in v.services[s] && (p == PathOf([s, m]) || p == PathOf([s, m, h]));
      PathsOfNames(s, m, h);
      assert Free(tree, s, v.services[s].Keys);
      assert PathOf([s]) in PathsOfService(s, v.services[s].Keys, h)
             && PathOf([s, m]) in PathsOfService(s, v.services[s].Keys, h);
      assert PathOf([s]) in Plan(v.services, h) && PathOf([s, m]) in Plan(v.services, h);
    }
  }

  lemma HostOfIs(v: Server)
    ensures HostOf(v) == Address.HostString(v.ip, v.port)
  {}

  lemma AfterServerOk(tree: Tree, v: Server)
    requires TreeOk(tree) && ServerOk(v) && Registrable(tree, v.services)
    ensures TreeOk(AfterServer(tree, v))
  {
    hide NodeFor, Parent, Plan;
    var t := AfterServer(tree, v);
    forall p | p in t ensures HasParent(t, p) {
      if p in tree { assert HasParent(tree, p); } else { WrittenHangs(tree, v, p); }
    }
  }

  /** From any prefix-closed tree, servers that could each register alone can all register, in any order,
      and the tree stays prefix-closed. */
  lemma {:induction false} AllRegister(tree: Tree, servers: seq<Server>)
    requires TreeOk(tree) && forall v :: v in servers ==> ServerOk(v) && Registrable(tree, v.services)
    ensures TreeOk(AfterAll(tree, servers))
    ensures forall i :: 0 <= i < |servers| ==> Registrable(AfterAll(tree, servers[..i]), servers[i].services)
    decreases |servers|
  {
    hide TreeOk, Registrable, After, Plan, AfterAll;
    AllOk(tree, servers);
    forall i | 0 <= i < |servers| ensures Registrable(AfterAll(tree, servers[..i]), servers[i].services) {
      AfterAllIsAfter(tree, servers[..i]);
      assert servers[i] in servers;
      RegistrableAfter(tree, Plans(servers[..i]), servers[i].services);
    }
  }

  lemma {:induction false} AllOk(tree: Tree, servers: seq<Server>)
    requires TreeOk(tree) && forall v :: v in servers ==> ServerOk(v) && Registrable(tree, v.services)
    ensures TreeOk(AfterAll(tree, servers))
    decreases |servers|
  {
    hide TreeOk, Registrable, After, Plan;
    if servers != [] {
      var v := servers[0];
      assert v in servers;
      AfterServerOk(tree, v);
      forall w | w in servers[1..] ensures ServerOk(w) && Registrable(AfterServer(tree, v), w.services) {
        assert w in servers;
        RegistrableAfter(tree, Plan(v.services, HostOf(v)), w.services);
      }
      AllOk(AfterServer(tree, v), servers[1..]);
    }
  }

  /** An instance path in a server's plan names one of its methods and its own address. */
  lemma InstanceIsOwn(v: Server, s: string, m: string, n: string)
    requires ServerOk(v) && Name(s) && Name(m) && Name(n)
    ensures PathOf([s, m, n]) in Plan(v.services, HostOf(v)) <==>
            s in v.services && m in v.services[s] && n == HostOf(v)
  {
    hide PathOf, Name, HostOf;
    var h := HostOf(v);
    assert Name(h) by { HostIsName(v.ip, v.port); HostOfIs(v); }
    if PathOf([s, m, n]) in Plan(v.services, h) {
      var t :| t in v.services && PathOf([s, m, n]) in PathsOfService(t, v.services[t].Keys, h);
      if PathOf([s, m, n]) == PathOf([t]) { PathsDiffer([s, m, n], [t]); }
      var k :| k in v.services[t] && (PathOf([s, m, n]) == PathOf([t, k]) || PathOf([s, m, n]) == PathOf([t, k, h]));
      if PathOf([s, m, n]) == PathOf([t, k]) { PathsDiffer([s, m, n], [t, k]); }
      PathsDiffer([s, m, n], [t, k, h]);
      assert [s, m, n][0] == t && [s, m, n][1] == k && [s, m, n][2] == h;
    }
    if s in v.services && m in v.services[s] && n == h {
      assert PathOf([s, m, n]) in InstancesOf(s, v.services[s].Keys, h);
      assert PathOf([s, m, n]) in PathsOfService(s, v.services[s].Keys, h);
    }
  }
}
