/** Registration composed with discovery: what a client gets from `pickHost` and `getAddr` after servers
    have registered (src/RPCServer.cc, src/ServiceDiscovery.cc,
    example/LoginRegisterService/RpcClientWithReconn.cc). */
module Publishing {
  import opened Paths
  import opened Registry
  import opened Discovery
  import opened DiscoveryClient
  import Address

  function InstancePath(k: Key, name: string): string { PathOf([k.service, k.name, name]) }

  function FullPieces(p: string): seq<string> { Pieces(p, SLASH, "") }

  function KeysOf(tree: Tree): set<Key> {
    set p | p in tree && ValidPath(p) && |FullPieces(p)| == 2 :: Key(FullPieces(p)[0], FullPieces(p)[1])
  }

  function NamesBelow(tree: Tree, k: Key): set<string> {
    set p | p in tree && |FullPieces(p)| == 3 && p == InstancePath(k, FullPieces(p)[2]) :: FullPieces(p)[2]
  }

  /** The znode tree as the discovery cache sees it: methods, and instances below them. */
  function View(tree: Tree): map<Key, MethodNode> {
    map k | k in KeysOf(tree) && MethodPath(k) in tree :: MethodNode(tree[MethodPath(k)].data, InstancesBelow(tree, k))
  }

  function InstancesBelow(tree: Tree, k: Key): map<string, string> {
    map n | n in NamesBelow(tree, k) && InstancePath(k, n) in tree :: tree[InstancePath(k, n)].data
  }

  lemma ViewMethod(tree: Tree, k: Key)
    requires Legal(k)
    ensures k in View(tree) <==> MethodPath(k) in tree
  {
    var p := MethodPath(k);
    SplitPath([k.service, k.name]);
    assert [k.service, k.name][0] == k.service && [k.service, k.name][1] == k.name;
    if p in tree {
      assert ValidPath(p);
      assert k in KeysOf(tree);
    }
  }

  lemma ViewInstance(tree: Tree, k: Key, n: string)
    requires Legal(k) && Name(n)
    ensures n in InstancesBelow(tree, k) <==> InstancePath(k, n) in tree
  {
    var p := InstancePath(k, n);
    var parts := [k.service, k.name, n];
    SplitPath(parts);
    assert FullPieces(p) == parts && parts[2] == n;
    if p in tree { assert n in NamesBelow(tree, k); }
  }

  lemma InstanceNames(tree: Tree, k: Key, n: string)
    requires n in InstancesBelow(tree, k)
    ensures Name(n) && InstancePath(k, n) in tree && InstancesBelow(tree, k)[n] == tree[InstancePath(k, n)].data
  {
    var p :| p in tree && |FullPieces(p)| == 3 && p == InstancePath(k, FullPieces(p)[2]) && n == FullPieces(p)[2];
    PiecesAreNames(p, "");
    assert FullPieces(p)[2] in FullPieces(p);
  }

  predicate Offers(v: Server, k: Key) { k.service in v.services && k.name in v.services[k.service] }

  /** The host was published by one of the servers for this method, and `getAddr` reads it as that
      server's address. */
  ghost predicate FromServer(host: string, servers: seq<Server>, k: Key) {
    exists v :: v in servers && Offers(v, k) && host == HostOf(v) && Address.GetAddr(host) == Address.Addr(v.ip, v.port)
  }

  /** The host is the data of an instance that was in the tree before. */
  ghost predicate FromBefore(host: string, tree: Tree, k: Key) {
    exists n :: InstancePath(k, n) in tree && host == tree[InstancePath(k, n)].data
  }

  predicate Addressable(v: Server) { ServerOk(v) && Address.COLON !in v.ip && 0 <= v.port < 0x1_0000 }

  /** An instance of the tree that registration left is one that was there, or a server's own. */
  lemma InstanceComesFrom(tree: Tree, servers: seq<Server>, k: Key, n: string)
    requires Legal(k) && forall v :: v in servers ==> Addressable(v)
    requires n in InstancesBelow(AfterAll(tree, servers), k)
    ensures FromServer(InstancesBelow(AfterAll(tree, servers), k)[n], servers, k)
         || FromBefore(InstancesBelow(AfterAll(tree, servers), k)[n], tree, k)
  {
    hide ServerOk, Plan, NodeFor, AfterAll, InstancesBelow, Name, Address.GetAddr, HostOf;
    var all := AfterAll(tree, servers);
    var p := InstancePath(k, n);
    InstanceNames(all, k, n);
    AfterAllIsAfter(tree, servers);
    if p !in tree {
      assert p in Plans(servers);
      var v :| v in servers && p in Plan(v.services, HostOf(v));
      assert Name(k.service) && Name(k.name);
      InstanceIsOwn(v, k.service, k.name, n);
      PathsOfNames(k.service, k.name, n);
      HostOfIs(v);
      Address.GetAddrInverse(v.ip, v.port);
    }
  }

  /** What a server offers is in the view, so that `init` finds it. */
  lemma RegisteredMethodIsSeen(tree: Tree, servers: seq<Server>, k: Key)
    requires Legal(k) && exists v :: v in servers && Offers(v, k)
    ensures k in View(AfterAll(tree, servers))
  {
    hide PathOf, NodeFor, AfterAll, View, Legal, HostOf;
    var v :| v in servers && Offers(v, k);
    var p := MethodPath(k);
    AfterAllIsAfter(tree, servers);
    assert p in PathsOfService(k.service, v.services[k.service].Keys, HostOf(v));
    assert p in Plan(v.services, HostOf(v));
    assert p in Plans(servers);
    ViewMethod(AfterAll(tree, servers), k);
  }

  /** Instances that come up during the run are written by servers: `Run` writes an instance below a
      method only under the server's own address and with it as data (see Registry.InstanceIsOwn). */
  ghost predicate Published(acts: seq<Action>, servers: seq<Server>) {
    forall a :: a in acts ==> PublishedStep(a, servers)
  }

  ghost predicate PublishedStep(a: Action, servers: seq<Server>) {
    a.CreateInstance? ==> exists v :: v in servers && Offers(v, a.key) && a.name == HostOf(v) && a.data == HostOf(v)
  }

  /** Every instance of the method is some server's, or was there before. */
  ghost predicate Sourced(s: State, k: Key, servers: seq<Server>, tree: Tree) {
    k in s.tree ==> forall n :: n in s.tree[k].instances ==>
      FromServer(s.tree[k].instances[n], servers, k) || FromBefore(s.tree[k].instances[n], tree, k)
  }

  lemma OwnAddress(v: Server, servers: seq<Server>, k: Key)
    requires v in servers && Addressable(v) && Offers(v, k)
    ensures FromServer(HostOf(v), servers, k)
  {
    hide Offers, ServerOk, HostOf, Address.GetAddr;
    HostOfIs(v);
    Address.GetAddrInverse(v.ip, v.port);
  }

  lemma StepSourced(s: State, a: Action, k: Key, servers: seq<Server>, tree: Tree)
    requires forall v :: v in servers ==> Addressable(v)
    requires Enabled(s, a) && !a.SetInstanceData? && PublishedStep(a, servers) && Sourced(s, k, servers, tree)
    ensures Sourced(Next(s, a), k, servers, tree)
  {
    hide FromServer, FromBefore, Offers, Addressable, HostOf, Enumerates, Legal;
    if a.CreateInstance? && a.key == k {
      var v :| v in servers && Offers(v, k) && a.name == HostOf(v) && a.data == HostOf(v);
      OwnAddress(v, servers, k);
    }
  }

  lemma {:induction false} RunSourced(s: State, acts: seq<Action>, t: State, k: Key, servers: seq<Server>, tree: Tree)
    requires forall v :: v in servers ==> Addressable(v)
    requires OrderlyRun(s, acts, t) && Published(acts, servers) && Sourced(s, k, servers, tree)
    ensures Sourced(t, k, servers, tree)
    decreases |acts|
  {
    hide Enabled, Next, Sourced, PublishedStep, Addressable;
    if acts != [] {
      assert acts[0] in acts && forall a :: a in acts[1..] ==> a in acts;
      NoInstanceData(s, acts[0]);
      StepSourced(s, acts[0], k, servers, tree);
      RunSourced(Next(s, acts[0]), acts[1..], t, k, servers, tree);
    }
  }

  lemma MoreServers(host: string, first: seq<Server>, servers: seq<Server>, k: Key)
    requires FromServer(host, first, k) && forall v :: v in first ==> v in servers
    ensures FromServer(host, servers, k)
  {
    hide Offers, HostOf, Address.GetAddr;
  }

  lemma StartSourced(tree: Tree, first: seq<Server>, servers: seq<Server>, k: Key)
    requires Legal(k) && (forall v :: v in servers ==> Addressable(v)) && forall v :: v in first ==> v in servers
    ensures Sourced(InitState(View(AfterAll(tree, first))), k, servers, tree)
  {
    hide AfterAll, InstancesBelow, FromServer, FromBefore, Addressable, Legal;
    var all := AfterAll(tree, first);
    if k in View(all) {
      forall n | n in InstancesBelow(all, k)
        ensures FromServer(InstancesBelow(all, k)[n], servers, k) || FromBefore(InstancesBelow(all, k)[n], tree, k)
      {
        InstanceComesFrom(tree, first, k, n);
        var data := InstancesBelow(all, k)[n];
        if FromServer(data, first, k) { MoreServers(data, first, servers, k); }
      }
    }
  }

  /** The first servers have registered, in any order, when `init` builds the cache; then servers come and
      go. At any quiet moment of any such run there is a host to pick for every method found: every live
      instance is among the hosts, and every host leads `getAddr` to a server that offers the method, or
      is the data of an instance that was in the tree before them all; only when no instance is left it
      is the method node's own data. */
  lemma PickedHostIsPublished(tree: Tree, first: seq<Server>, servers: seq<Server>, acts: seq<Action>, t: State, k: Key)
    requires Legal(k) && (forall v :: v in servers ==> Addressable(v)) && forall v :: v in first ==> v in servers
    requires OrderlyRun(InitState(View(AfterAll(tree, first))), acts, t) && Published(acts, servers)
    requires k in t.found && Quiescent(t)
    ensures k in t.tree && k in t.cache && t.cache[k] != []
    ensures t.tree[k].instances != map[] ==>
              forall h :: h in t.cache[k] ==> FromServer(h, servers, k) || FromBefore(h, tree, k)
    ensures forall n :: n in t.tree[k].instances ==> t.tree[k].instances[n] in t.cache[k]
    ensures t.tree[k].instances == map[] ==> t.cache[k] == [t.tree[k].data]
  {
    hide OrderlyRun, Quiescent, AfterAll, Addressable, Legal, FromServer, FromBefore, Agrees, Published, EventFor,
         Settled;
    var s0 := InitState(View(AfterAll(tree, first)));
    QuiescentConsistency(View(AfterAll(tree, first)), acts, t, k);
    AgreesMeans(t.cache[k], t.tree[k]);
    StartSourced(tree, first, servers, k);
    RunSourced(s0, acts, t, k, servers, tree);
  }

  /** And while nothing has come or gone since, each of the first servers that offers the method is among
      its hosts, unless an instance of that name was there before. */
  lemma RegisteredServersAreHosts(tree: Tree, first: seq<Server>, acts: seq<Action>, t: State, k: Key, v: Server)
    requires Legal(k) && v in first && Addressable(v) && Offers(v, k) && InstancePath(k, HostOf(v)) !in tree
    requires OrderlyRun(InitState(View(AfterAll(tree, first))), acts, t) && k in t.found && Quiescent(t)
    requires k in t.tree && t.tree[k].instances == InstancesBelow(AfterAll(tree, first), k)
    ensures k in t.cache && HostOf(v) in t.cache[k]
  {
    hide OrderlyRun, Quiescent, AfterAll, Addressable, Legal, Offers, HostOf, InstancesBelow, Agrees, EventFor, Settled;
    QuiescentConsistency(View(AfterAll(tree, first)), acts, t, k);
    AgreesMeans(t.cache[k], t.tree[k]);
    OwnInstance(tree, first, k, v);
    assert HostOf(v) in t.tree[k].instances.Values;
  }

  /** A server's own instance is in the tree, with its address as data unless it was there before. */
  lemma OwnInstance(tree: Tree, servers: seq<Server>, k: Key, v: Server)
    requires Legal(k) && v in servers && Addressable(v) && Offers(v, k)
    ensures HostOf(v) in InstancesBelow(AfterAll(tree, servers), k)
    ensures InstancePath(k, HostOf(v)) !in tree ==> InstancesBelow(AfterAll(tree, servers), k)[HostOf(v)] == HostOf(v)
  {
    hide Plan, NodeFor, AfterAll, InstancesBelow, Name, HostOf;
    var h := HostOf(v);
    var all := AfterAll(tree, servers);
    var p := InstancePath(k, h);
    assert Name(h) by { HostOfIs(v); HostIsName(v.ip, v.port); }
    assert Name(k.service) && Name(k.name);
    InstanceIsOwn(v, k.service, k.name, h);
    AfterAllIsAfter(tree, servers);
    assert p in Plans(servers);
    ViewInstance(all, k, h);
    InstanceNames(all, k, h);
    PathsOfNames(k.service, k.name, h);
  }
}
