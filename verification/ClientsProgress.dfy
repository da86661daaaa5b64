/** The two counting clients of module Clients get there: some run completes every call and ends, for any
    number of requests, when the server can answer the login. */
module ClientsProgress {
  import opened Wire
  import opened Messages
  import opened Framing
  import opened Channel
  import opened RpcSystem
  import opened RpcTheorems
  import opened RpcSteps
  import opened RpcLosses
  import opened RpcProgress
  import opened Clients
  import Encodings

  // ---------------------------------------------------------------- the login under any id

  /** What can be sent once can be sent again: a header's length does not depend on the id. */
  lemma AnyId(services: ServiceTable, login: Call, id: int)
    requires Answerable(services, login) && 1 <= id < TWO63
    ensures CallOk(services, id, login) && Fits(RequestHeader(id, login)) && Registered(services, login.desc)
  {
    hide WellFormed, RequestHeader, Serialize, SameProto, Registered, TakeFrame;
    FirstOk(services, login);
    Encodings.SameLength(1, id, login);
    RequestWellFormed(id, login);
  }

  lemma FirstOk(services: ServiceTable, login: Call)
    requires Answerable(services, login)
    ensures CallOk(services, 1, login) && Fits(RequestHeader(1, login)) && Registered(services, login.desc)
  {
    hide CallOk, Fits, TakeFrame, WellFormed, RequestHeader;
  }

  lemma CanAlloc(s: Sys, services: ServiceTable, login: Call)
    requires Answerable(services, login) && s.services == services && s.alive && 0 <= s.id && s.id + 1 < TWO63
    ensures Enabled(s, Alloc(login)) && Fits(RequestHeader(s.id + 1, login)) && Registered(s.services, login.desc)
  {
    hide CallOk, Fits, TakeFrame, WellFormed, RequestHeader, Answerable, Registered;
    AnyId(services, login, s.id + 1);
  }

  // ---------------------------------------------------------------- one more call

  /** The call is on its way and nothing keeps it from its answer. */
  ghost predicate OnWay(s: Sys, id: int) { Underway(s, id) && CleanFor(s, id) }

  /** A call made over a clean connection is on its way. */
  lemma CalledOnWay(s: Sys, login: Call)
    requires Calm(s) && Ready(s) && Enabled(s, Alloc(login)) && Registered(s.services, login.desc)
    requires Fits(RequestHeader(s.id + 1, login))
    ensures OnWay(Called(s, login), s.id + 1) && Ready(Called(s, login))
  {
    hide Enabled, Next, Called, Registered, Fits, RequestHeader, Underway, CleanFor, Ready, RunsTo, Inv;
    var acts, s3 := CallMade(s, login);
    CalledIs(s, login, s3);
  }

  /** And calls that were on their way stay on it. */
  lemma CalledKeepsWay(s: Sys, login: Call, j: int)
    requires Calm(s) && Enabled(s, Alloc(login)) && OnWay(s, j) && Ready(Called(s, login))
    ensures OnWay(Called(s, login), j)
  {
    hide Inv, Enabled, Called, Clean, Registered;
    CalledEffect(s, login);
    var k := s.via[j];
    var t := Called(s, login);
    assert k == |s.conns| - 1 && Clean(t.conns[k]);
  }

  // ---------------------------------------------------------------- the reconnecting client

  /** The connection is up, and the latest call is on its way. */
  ghost predicate Waiting(services: ServiceTable, n: int, c: Client) {
    && Counted(n, c) && c.phase.Running? && c.sys.services == services
    && (c.remaining > 0 ==> OnWay(c.sys, c.sys.id) && Ready(c.sys)) && c.sys.id + c.remaining <= n + 1
  }

  /** The next step towards the answer; with it the next call is made. */
  lemma WaitStep(services: ServiceTable, n: int, c: Client, login: Call) returns (m: Move, d: Client)
    requires Answerable(services, login) && n < TWO63 && Waiting(services, n, c) && c.remaining > 0
    ensures Can(c, login, m) && d == Go(c, login, m) && Waiting(services, n, d)
    ensures d.remaining == c.remaining - 1 || (d.remaining == c.remaining && Less(d.sys, c.sys))
  {
    hide Inv, Next, Enabled, Careful, OnWay, Ready, Calm, Live, Up, Counted, Answerable, Quiet, Less;
    var s, id := c.sys, c.sys.id;
    CountedInv(n, c);
    OnWayIs(s, id);
    var a := SomeQuietStep(s, id);
    QuietStepDecreases(s, a);
    ReadyStays(s, a);
    if a.ClientTake? {
      m := Take(a.k);
      TakesIt(services, n, c, login, a.k);
      d := Go(c, login, m);
    } else {
      CarefulOutside(a, s);
      m := World(a);
      d := Go(c, login, m);
      WorldCounts(n, c, login, a);
      CountedCalm(n, c);
      OutsideCalm(s, a);
      NotRunYet(s, id);
      KeepsOnWay(s, a, id);
    }
  }

  lemma CountedCalm(n: int, c: Client)
    requires Counted(n, c)
    ensures Calm(c.sys) && c.sys.id >= 0
  {
    hide ConnOk, LostOk, StagesOk, RoutesOk, HandledOk, CallOk, Live, Up;
  }

  lemma OnWayIs(s: Sys, id: int)
    requires OnWay(s, id)
    ensures Underway(s, id) && CleanFor(s, id)
  {}

  lemma NotRunYet(s: Sys, id: int)
    requires Inv(s) && OnWay(s, id)
    ensures id !in s.runs
  {
    hide ConnOk, LostOk, HandledOk, CallsOk, RoutesOk, CleanFor, Registered;
    assert Stages(s, id) == One(id in s.issued);
  }

  lemma CarefulOutside(a: Action, s: Sys)
    requires Careful(s, a) && !a.ClientTake?
    ensures Outside(a)
  {}

  lemma ReadyStays(s: Sys, a: Action)
    requires Inv(s) && Enabled(s, a) && Quiet(a) && Careful(s, a) && Ready(s)
    ensures Ready(Next(s, a)) && |Next(s, a).conns| == |s.conns|
  {
    hide Inv, Next, Enabled, Careful, Clean, Quiet;
    CarefulConn(s, a, |s.conns| - 1);
    QuietLasts(s, a, 0);
  }

  lemma KeepsOnWay(s: Sys, a: Action, id: int)
    requires Inv(s) && Enabled(s, a) && Quiet(a) && Careful(s, a) && OnWay(s, id) && Next(s, a).runs == s.runs
    requires id !in s.runs
    ensures OnWay(Next(s, a), id)
  {
    hide Inv, Next, Enabled, Careful, Underway, CleanFor, Quiet;
    CarefulKeeps(s, a, id);
  }

  /** The answer is taken, and if requests remain the next call is on its way. */
  lemma TakesIt(services: ServiceTable, n: int, c: Client, login: Call, k: nat)
    requires Answerable(services, login) && n < TWO63 && Waiting(services, n, c) && c.remaining > 0
    requires Enabled(c.sys, ClientTake(k)) && Ready(Next(c.sys, ClientTake(k)))
    ensures Can(c, login, Take(k))
    ensures var d := Go(c, login, Take(k)); Waiting(services, n, d) && d.remaining == c.remaining - 1
  {
    hide Inv, Next, Enabled, OnWay, Ready, Calm, Live, Up, Counted, Answerable, Called, Registered, RequestHeader, Fits;
    CountedCalm(n, c);
    var id := AnswerIsLive(c.sys, k);
    var s := Next(c.sys, ClientTake(k));
    CalmAlive(s);
    if c.remaining > 1 {
      CanAlloc(s, services, login);
      TakeCounts(n, c, login, k);
      CalledOnWay(s, login);
      CalledServices(s, login);
      assert id in s.runs.Keys && id !in c.sys.runs.Keys;
    } else {
      TakeCounts(n, c, login, k);
      assert id in s.runs.Keys && id !in c.sys.runs.Keys;
    }
  }

  lemma CalmAlive(s: Sys)
    requires Calm(s)
    ensures s.alive && Inv(s)
  {
    hide Inv;
  }

  lemma CalledServices(s: Sys, login: Call)
    requires Calm(s) && Enabled(s, Alloc(login))
    ensures Called(s, login).services == s.services && Called(s, login).id == s.id + 1
  {
    hide Inv, Called, Enabled;
    CalledEffect(s, login);
  }

  /** All remaining calls, one after the other. */
  lemma {:induction false} AllCompleted(services: ServiceTable, n: int, c: Client, login: Call)
    returns (ms: seq<Move>, d: Client)
    requires Answerable(services, login) && 1 <= n < TWO63 && Waiting(services, n, c)
    ensures Moves(c, login, ms, d) && Waiting(services, n, d) && d.remaining <= 0
    decreases if c.remaining > 0 then c.remaining else 0, Work(c.sys), Flight(c.sys)
  {
    hide Waiting, Answerable, Can, Go, Work, Flight;
    if c.remaining <= 0 {
      ms, d := [], c;
    } else {
      var m, c' := WaitStep(services, n, c, login);
      var rest;
      rest, d := AllCompleted(services, n, c', login);
      OneMove(c, login, m, rest, d);
      ms := [m] + rest;
    }
  }

  lemma FirstWaiting(services: ServiceTable, n: int, login: Call) returns (c: Client)
    requires Answerable(services, login) && 1 <= n < TWO63
    ensures Can(StartClient(services, n), login, Connect) && c == Go(StartClient(services, n), login, Connect)
    ensures Waiting(services, n, c)
  {
    hide Inv, Next, Enabled, Registered, Fits, RequestHeader, OnWay, Ready, Counted, Clean, Called, Calm, Answerable;
    FirstConnection(services);
    StartCounted(services, n);
    CountedCalm(n, StartClient(services, n));
    FirstReady(services);
    var s := Next(Init(services), Open);
    CanAlloc(s, services, login);
    c := Go(StartClient(services, n), login, Connect);
    ConnectCounts(n, StartClient(services, n), login);
    CalledOnWay(s, login);
    CalledServices(s, login);
  }

  lemma FirstReady(services: ServiceTable)
    ensures var s := Next(Init(services), Open); Calm(s) && Ready(s)
  {
    hide Inv, Next, Enabled, Clean, Up, Live;
    FirstConnection(services);
    StartCalm(services);
    OpenedCalm(Init(services));
  }

  lemma StartCalm(services: ServiceTable)
    ensures Calm(Init(services)) && !Up(Init(services))
  {
    hide Inv;
    InitInv(services);
  }

  /** For every number of requests, some run of the client completes all of them and ends at 0. */
  lemma CanQuitAtZero(services: ServiceTable, n: int, login: Call) returns (ms: seq<Move>, d: Client)
    requires Answerable(services, login) && 1 <= n < TWO63
    ensures Moves(StartClient(services, n), login, ms, d)
    ensures d.phase.Quit? && d.remaining == 0 && |d.sys.runs| == n
  {
    hide Answerable, Can, Go, Moves, Inv, Calm, OnWay, Ready;
    var c := FirstWaiting(services, n, login);
    var some, e := AllCompleted(services, n, c, login);
    OneMove(StartClient(services, n), login, Connect, some, e);
    CountedInv(n, e);
    GoesDown(e, login);
    DownCounts(n, e, login);
    d := Go(e, login, Down);
    MovesNothing(d, login);
    OneMove(e, login, Down, [], d);
    ms := [Connect] + some + ([Down] + []);
    MovesConcat(StartClient(services, n), login, [Connect] + some, e, [Down] + [], d);
  }

  lemma MovesNothing(d: Client, login: Call)
    ensures Moves(d, login, [], d)
  {}

  // ---------------------------------------------------------------- the concurrent client

  /** The connection is up, and every call is completed or on its way. */
  ghost predicate AllOnWay(s: Sys) { forall id :: id in s.issued ==> id in s.runs || OnWay(s, id) }

  ghost predicate BatchWaiting(b: Batch) {
    BatchOk(b) && b.phase.Running? && Ready(b.sys) && AllOnWay(b.sys)
  }

  lemma BatchStep(b: Batch, login: Call) returns (m: Move, d: Batch)
    requires BatchWaiting(b) && |b.sys.runs| < |b.sys.issued|
    ensures CanBatch(b, login, m) && d == GoBatch(b, login, m) && BatchWaiting(d) && Less(d.sys, b.sys)
    ensures d.total == b.total
  {
    hide Inv, Next, Enabled, Careful, OnWay, Ready, Calm, Live, Up, BatchOk, Quiet, Less;
    var s := b.sys;
    BatchCalm(b);
    CalmAlive(s);
    var id := NotYet(s.runs.Keys, s.issued.Keys);
    OnWayIs(s, id);
    var a := SomeQuietStep(s, id);
    QuietStepDecreases(s, a);
    ReadyStays(s, a);
    AllStay(s, a);
    if a.ClientTake? {
      m := Take(a.k);
      d := GoBatch(b, login, m);
      BatchTake(b, login, a.k);
    } else {
      CarefulOutside(a, s);
      m := World(a);
      d := GoBatch(b, login, m);
      BatchWorld(b, login, a);
    }
  }

  lemma BatchCalm(b: Batch)
    requires BatchOk(b)
    ensures Calm(b.sys) && b.sys.runs.Keys <= b.sys.issued.Keys
  {
    hide Calm, Up;
  }

  lemma NotYet(a: set<int>, b: set<int>) returns (id: int)
    requires a <= b && |a| < |b|
    ensures id in b && id !in a
  {
    if forall x :: x in b ==> x in a { SubsetSize(b, a); }
    var x :| x in b && x !in a;
    id := x;
  }

  lemma AllStay(s: Sys, a: Action)
    requires Inv(s) && Enabled(s, a) && Quiet(a) && Careful(s, a) && AllOnWay(s)
    ensures AllOnWay(Next(s, a))
  {
    hide Inv, Next, Enabled, Careful, Underway, CleanFor, Quiet;
    QuietLasts(s, a, 0);
    forall id | id in Next(s, a).issued ensures id in Next(s, a).runs || OnWay(Next(s, a), id) {
      if id in s.runs { QuietLasts(s, a, id); } else { CarefulKeeps(s, a, id); }
    }
  }

  lemma {:induction false} BatchCompleted(b: Batch, login: Call) returns (ms: seq<Move>, d: Batch)
    requires BatchWaiting(b)
    ensures BatchMoves(b, login, ms, d) && BatchWaiting(d) && |d.sys.runs| >= |d.sys.issued| && d.total == b.total
    decreases Work(b.sys), Flight(b.sys)
  {
    hide BatchWaiting, CanBatch, GoBatch, Work, Flight;
    if |b.sys.runs| >= |b.sys.issued| {
      ms, d := [], b;
    } else {
      var m, b' := BatchStep(b, login);
      var rest;
      rest, d := BatchCompleted(b', login);
      ms := [m] + rest;
      assert ms[1..] == rest;
    }
  }

  /** All calls at once: each can be made, and each is on its way. */
  lemma {:induction false} AllCalled(services: ServiceTable, s: Sys, login: Call, k: nat)
    requires Answerable(services, login) && s.services == services
    requires Calm(s) && s.id >= 0 && s.id + k < TWO63 && Ready(s) && AllOnWay(s)
    ensures CanCallAll(s, login, k)
    ensures Ready(CalledAll(s, login, k)) && AllOnWay(CalledAll(s, login, k))
    decreases k
  {
    hide Inv, Enabled, Next, Called, OnWay, Ready, Calm, Answerable, Registered, RequestHeader, Fits;
    if k > 0 {
      CalmAlive(s);
      CanAlloc(s, services, login);
      CalledOnWay(s, login);
      CalledServices(s, login);
      CalledCalm(s, login);
      forall id | id in Called(s, login).issued ensures id in Called(s, login).runs || OnWay(Called(s, login), id) {
        if id != s.id + 1 && id !in s.runs { CalledKeepsWay(s, login, id); }
      }
      AllCalled(services, Called(s, login), login, k - 1);
    }
  }

  /** For every number of requests, some run of the client completes all of them and disconnects once. */
  lemma CanDisconnect(services: ServiceTable, total: int, login: Call) returns (ms: seq<Move>, d: Batch)
    requires Answerable(services, login) && 1 <= total < TWO63
    ensures BatchMoves(StartBatch(services, total), login, ms, d)
    ensures |d.sys.runs| == total && d.pending == 0 && d.disconnects == 1
  {
    hide Answerable, BatchMoves, Inv, Calm, OnWay, Ready, Next, Enabled, CanCallAll, CalledAll, Up, Live;
    var b := StartBatch(services, total);
    FirstConnection(services);
    var s := Next(Init(services), Open);
    StartBatchOk(services, total);
    FirstReady(services);
    FirstIssued(services);
    AllCalled(services, s, login, total);
    BatchConnect(b, login);
    var c := GoBatch(b, login, Connect);
    var rest, e := BatchCompleted(c, login);
    ms, d := [Connect] + rest, e;
    BatchFirst(b, login, Connect, rest, e);
    BatchEnd(e);
  }

  lemma BatchEnd(b: Batch)
    requires BatchWaiting(b) && |b.sys.runs| >= |b.sys.issued| && b.total >= 1
    ensures |b.sys.runs| == b.total && b.pending == 0 && b.disconnects == 1
  {
    hide Calm, Up, Ready, OnWay;
    SubsetSize(b.sys.runs.Keys, b.sys.issued.Keys);
  }

  lemma FirstIssued(services: ServiceTable)
    ensures AllOnWay(Next(Init(services), Open)) && Init(services).alive
  {
    hide Inv, OnWay, TakeFrame, CallOk, WellFormed;
  }

  lemma BatchFirst(b: Batch, login: Call, m: Move, ms: seq<Move>, d: Batch)
    requires CanBatch(b, login, m) && BatchMoves(GoBatch(b, login, m), login, ms, d)
    ensures BatchMoves(b, login, [m] + ms, d)
  {
    hide CanBatch, GoBatch;
    assert ([m] + ms)[1..] == ms;
  }
}
