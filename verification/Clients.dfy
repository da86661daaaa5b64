/** The two counting clients: example/LoginRegisterService/RpcClientWithReconn.cc, which sends one call
    after the other and reconnects, and example/LoginRegisterService/RpcClientConcc.cc, which sends all
    calls at once. Their countdowns are derived from what module RpcSystem says about calls: nothing
    here assumes that an answer arrives once, or only on the connection its call went over. */
module Clients {
  import opened Wire
  import opened Messages
  import opened Framing
  import opened Channel
  import opened RpcSystem
  import opened RpcTheorems
  import opened RpcSteps
  import opened RpcLosses
  import opened RpcProgress

  // ---------------------------------------------------------------- calls and answers

  /** `sendLogin`: a call made by the thread of the event loop. */
  ghost function Called(s: Sys, login: Call): Sys
    requires Enabled(s, Alloc(login))
  {
    var s1 := Next(s, Alloc(login));
    var s2 := Next(s1, Register(s.id + 1));
    Next(s2, Send(s.id + 1))
  }

  /** No thread is inside `CallMethod`, and only the last connection may be open. */
  ghost predicate Calm(s: Sys) {
    && Inv(s) && s.alive && s.taken == {} && s.unsent == {} && s.disposed == {}
    && forall j :: 0 <= j < |s.conns| - 1 ==> !s.conns[j].open
  }

  predicate Up(s: Sys) { s.conns != [] && s.conns[|s.conns| - 1].open }

  /** Call id went over the connection that is up and is not answered. */
  predicate Live(s: Sys, id: int) { Up(s) && SentOver(s, |s.conns| - 1, id) }

  lemma CalledInv(s: Sys, login: Call)
    requires Inv(s) && Enabled(s, Alloc(login))
    ensures Inv(Called(s, login))
  {
    hide Inv, Next, Enabled;
    var s1 := Next(s, Alloc(login));
    StepInv(s, Alloc(login));
    CallEnabled(s, login);
    var s2 := Next(s1, Register(s.id + 1));
    StepInv(s1, Register(s.id + 1));
    StepInv(s2, Send(s.id + 1));
  }

  lemma CallEnabled(s: Sys, login: Call)
    requires Enabled(s, Alloc(login))
    ensures Enabled(Next(s, Alloc(login)), Register(s.id + 1))
    ensures Enabled(Next(Next(s, Alloc(login)), Register(s.id + 1)), Send(s.id + 1))
  {
    hide CallOk, TakeFrame, WellFormed;
  }

  lemma CalledEffect(s: Sys, login: Call)
    requires Calm(s) && Enabled(s, Alloc(login))
    ensures var t, id := Called(s, login), s.id + 1;
            && t.alive && t.taken == {} && t.unsent == {} && t.disposed == {} && t.runs == s.runs
            && t.issued == s.issued[id := login]
            && t.table == s.table[id := OutstandingOf(login)] && t.id == id && |t.conns| == |s.conns|
            && (if s.conns == [] then t.via == s.via else t.via == s.via[id := |s.conns| - 1])
            && (forall j, x :: 0 <= j < |s.conns| && x in t.conns[j].lost ==> x in s.conns[j].lost || x == id)
            && (forall j :: 0 <= j < |s.conns| - 1 ==> t.conns[j] == s.conns[j])
            && t.services == s.services
            && forall j :: 0 <= j < |s.conns| ==> t.conns[j].open == s.conns[j].open
    ensures s.id + 1 !in s.issued && s.id + 1 !in s.via && s.id + 1 !in s.table && s.id + 1 !in s.runs
  {
    hide CallOk, TakeFrame, WellFormed, Frame, Requested, Responded, RequestHeader, ServerHandles, TakeCall, ConnOk,
         LostOk;
    if s.conns != [] { RequestedLoss(s.conns[|s.conns| - 1], s.id + 1, RequestHeader(s.id + 1, login)); }
    FreshId(s);
  }

  lemma FreshId(s: Sys)
    requires Inv(s)
    ensures s.id + 1 !in s.issued && s.id + 1 !in s.via && s.id + 1 !in s.table && s.id + 1 !in s.runs
  {
    hide ConnOk, LostOk, CallOk, WellFormed;
    assert Stages(s, s.id + 1) == One(s.id + 1 in s.issued);
  }

  lemma CalledCalm(s: Sys, login: Call)
    requires Calm(s) && Enabled(s, Alloc(login))
    ensures Calm(Called(s, login)) && (Up(Called(s, login)) <==> Up(s))
    ensures forall id :: Live(Called(s, login), id) <==> Live(s, id) || (Up(s) && id == s.id + 1)
    ensures Called(s, login).runs == s.runs && Called(s, login).issued == s.issued[s.id + 1 := login]
    ensures Called(s, login).id == s.id + 1 && s.id + 1 !in s.issued
  {
    hide Inv, Called;
    CalledInv(s, login);
    CalledEffect(s, login);
  }

  /** An answer taken off connection k: it is for a call that went over k, is live and never ran; and
      connection k is the one that is up. */
  lemma AnswerIsLive(s: Sys, k: nat) returns (id: int)
    requires Calm(s) && Enabled(s, ClientTake(k))
    ensures k == |s.conns| - 1 && Up(s) && Live(s, id) && id !in s.runs && id in s.issued
    ensures var s' := Next(s, ClientTake(k));
            && Calm(s') && Up(s') && s'.runs.Keys == s.runs.Keys + {id} && s'.issued == s.issued && s'.id == s.id
            && forall j :: Live(s', j) <==> Live(s, j) && j != id
  {
    hide Inv, ConnOk, TakeFrame, TakeCall, KeyOf, TypeOf, IdOf, ResponseFor, Pipe, Requests, Responses, Blocked,
         SentOver, CallOk, WellFormed, Requested, Responded, ServerHandles;
    StepInv(s, ClientTake(k));
    ConnIs(s, k);
    InvParts(s);
    var h, i, c := ClientFrame(s, k, s.conns[k]);
    KeyIsId(s, k, h);
    ResponseIs(s, k, h);
    id := i;
    var run := Run(id, s.issued[id].done, Some(s.handled[id].1));
    var s' := Next(s, ClientTake(k));
    assert s' == s.(conns := s.conns[k := c], table := s.table - {id}, runs := s.runs[id := run]);
    OverTable(s, s', k, id);
    InTable(s, id, k);
  }

  lemma OverTable(s: Sys, s': Sys, k: nat, id: int)
    requires s'.table == s.table - {id} && s'.via == s.via
    ensures forall j :: SentOver(s', k, j) <==> SentOver(s, k, j) && j != id
  {}

  lemma InTable(s: Sys, id: int, k: nat)
    requires Inv(s) && SentOver(s, k, id)
    ensures id !in s.runs && id in s.issued
  {
    hide ConnOk, LostOk, HandledOk, CallOk;
    assert Stages(s, id) == One(id in s.issued);
  }

  lemma OutsideCalm(s: Sys, a: Action)
    requires Calm(s) && Enabled(s, a) && Outside(a)
    ensures Calm(Next(s, a)) && (Up(Next(s, a)) <==> Up(s)) && forall id :: Live(Next(s, a), id) <==> Live(s, id)
    ensures Next(s, a).runs == s.runs && Next(s, a).issued == s.issued && Next(s, a).id == s.id
  {
    hide Inv, Next, Enabled;
    OutsideSame(s, a);
    StepInv(s, a);
  }

  /** A new connection, with nothing on it. */
  lemma OpenedCalm(s: Sys)
    requires Calm(s) && !Up(s)
    ensures Enabled(s, Open) && Calm(Next(s, Open)) && Up(Next(s, Open)) && forall id :: !Live(Next(s, Open), id)
    ensures Next(s, Open).runs == s.runs && Next(s, Open).issued == s.issued && Next(s, Open).id == s.id
  {
    hide Inv, ConnOk, CallOk, TakeFrame, WellFormed, Requested, Responded, ServerHandles, TakeCall;
    StepInv(s, Open);
    OldRoutes(s);
  }

  lemma OldRoutes(s: Sys)
    requires Inv(s)
    ensures forall id :: id in s.via ==> s.via[id] < |s.conns|
  {
    hide ConnOk, CallsOk, StagesOk, HandledOk, LostOk;
  }

  /** The connection is gone, and no call is live. */
  lemma ClosedCalm(s: Sys)
    requires Calm(s) && Up(s)
    ensures Enabled(s, Close(|s.conns| - 1))
    ensures var s' := Next(s, Close(|s.conns| - 1));
            Calm(s') && !Up(s') && (forall id :: !Live(s', id)) && s'.runs == s.runs && s'.issued == s.issued
  {
    hide Inv, ConnOk, CallOk, TakeFrame, WellFormed, Requested, Responded, ServerHandles, TakeCall;
    StepInv(s, Close(|s.conns| - 1));
  }

  lemma KeysPlusOne(a: map<int, Run>, b: map<int, Run>, id: int)
    requires b.Keys == a.Keys + {id} && id !in a
    ensures |b| == |a| + 1
  {}

  // ---------------------------------------------------------------- the reconnecting client

  datatype Phase = Connecting | Running | Quit

  /** What `onConnection` decides when the connection is down. */
  function WhenDown(remaining: int): Phase { if remaining > 0 then Connecting else Quit }

  /** The client with the system around it. */
  datatype Client = Client(sys: Sys, phase: Phase, remaining: int)

  datatype Move =
    | Connect                  // the connection is up: onConnection
    | Take(k: nat)             // a response is taken off connection k; if it completes a call, onLoginDone
    | Down                     // the connection is down, whoever ended it: onConnection
    | World(a: Action)

  ghost predicate Can(c: Client, login: Call, m: Move) {
    match m
    case Connect => c.phase.Connecting? && c.sys.alive && Enabled(Next(c.sys, Open), Alloc(login))
    case Take(k) =>
      && Enabled(c.sys, ClientTake(k))
      && (c.remaining > 1 ==> Enabled(Next(c.sys, ClientTake(k)), Alloc(login)))
    case Down => c.phase.Running? && c.sys.alive && c.sys.conns != []
    case World(a) => Outside(a) && Enabled(c.sys, a)
  }

  ghost function Go(c: Client, login: Call, m: Move): Client
    requires Can(c, login, m)
  {
    match m
    case Connect => c.(sys := Called(Next(c.sys, Open), login), phase := Phase.Running)
    case Take(k) =>
      var s := Next(c.sys, ClientTake(k));
      if s.runs.Keys == c.sys.runs.Keys then c.(sys := s)
      else if c.remaining > 1 then c.(sys := Called(s, login), remaining := c.remaining - 1)
      else c.(sys := s, remaining := c.remaining - 1)
    case Down => c.(sys := Next(c.sys, Close(|c.sys.conns| - 1)), phase := WhenDown(c.remaining))
    case World(a) => c.(sys := Next(c.sys, a))
  }

  function StartClient(services: ServiceTable, n: int): Client { Client(Init(services), Connecting, n) }

  ghost predicate Moves(c: Client, login: Call, ms: seq<Move>, d: Client)
    decreases |ms|
  {
    if ms == [] then d == c else Can(c, login, ms[0]) && Moves(Go(c, login, ms[0]), login, ms[1..], d)
  }

  ghost predicate AtMostOneLive(s: Sys) { forall i, j :: Live(s, i) && Live(s, j) ==> i == j }

  /** Completions and remaining requests add up to n; at most one call is live, and none when the count
      is used up; while the connection is up and requests remain, the latest call is. */
  ghost predicate Counted(n: int, c: Client) {
    && Calm(c.sys) && (c.phase.Running? <==> Up(c.sys)) && AtMostOneLive(c.sys)
    && |c.sys.runs| + c.remaining == n
    && (c.phase.Quit? ==> c.remaining <= 0)
    && (n >= 1 ==> c.remaining >= 0 && (c.phase.Connecting? ==> c.remaining > 0)
                   && (c.remaining == 0 ==> forall id :: !Live(c.sys, id)))
    && (c.phase.Running? && c.remaining > 0 ==> Live(c.sys, c.sys.id))
  }

  /** Exactly one call was made, with the next id, and it is live. */
  ghost predicate NewCall(s: Sys, login: Call, s': Sys) {
    s'.id == s.id + 1 && s'.id !in s.issued && s'.issued == s.issued[s'.id := login] && Live(s', s'.id)
  }

  lemma ConnectCounts(n: int, c: Client, login: Call)
    requires Counted(n, c) && Can(c, login, Connect)
    ensures Enabled(c.sys, Open)
    ensures Counted(n, Go(c, login, Connect)) && Go(c, login, Connect).sys.runs == c.sys.runs
    ensures NewCall(c.sys, login, Go(c, login, Connect).sys)
  {
    hide Inv, Next, Enabled, Live, Up, Calm, Called;
    OpenedCalm(c.sys);
    CalledCalm(Next(c.sys, Open), login);
  }

  lemma TakeCounts(n: int, c: Client, login: Call, k: nat)
    requires Counted(n, c) && Can(c, login, Take(k))
    ensures Counted(n, Go(c, login, Take(k)))
    ensures var d := Go(c, login, Take(k));
            && d.remaining == c.remaining - 1
            && (if d.remaining > 0 then NewCall(c.sys, login, d.sys) else d.sys.issued == c.sys.issued)
  {
    hide Inv, Next, Enabled, Live, Up, Calm, Called;
    var id := AnswerIsLive(c.sys, k);
    var s := Next(c.sys, ClientTake(k));
    assert id in s.runs.Keys;
    KeysPlusOne(c.sys.runs, s.runs, id);
    assert forall j :: !Live(s, j);
    if c.remaining > 1 { CalledCalm(s, login); }
  }

  lemma DownCounts(n: int, c: Client, login: Call)
    requires Counted(n, c) && Can(c, login, Down)
    ensures Enabled(c.sys, Close(|c.sys.conns| - 1))
    ensures Counted(n, Go(c, login, Down)) && Go(c, login, Down).sys.runs == c.sys.runs
    ensures Go(c, login, Down).sys.issued == c.sys.issued
  {
    hide Inv, Next, Enabled, Live, Up, Calm;
    ClosedCalm(c.sys);
  }

  lemma WorldCounts(n: int, c: Client, login: Call, a: Action)
    requires Counted(n, c) && Can(c, login, World(a))
    ensures Counted(n, Go(c, login, World(a)))
  {
    hide Inv, Next, Enabled, Live, Up, Calm;
    OutsideCalm(c.sys, a);
  }

  lemma {:induction false} RunCounted(n: int, c: Client, login: Call, ms: seq<Move>, d: Client)
    requires Counted(n, c) && Moves(c, login, ms, d)
    ensures Counted(n, d)
    decreases |ms|
  {
    hide Counted, Can, Go;
    if ms != [] {
      match ms[0] {
        case Connect => ConnectCounts(n, c, login);
        case Take(k) => TakeCounts(n, c, login, k);
        case Down => DownCounts(n, c, login);
        case World(a) => WorldCounts(n, c, login, a);
      }
      RunCounted(n, Go(c, login, ms[0]), login, ms[1..], d);
    }
  }

  lemma StartCounted(services: ServiceTable, n: int)
    ensures Counted(n, StartClient(services, n))
  {
    hide Inv;
    InitInv(services);
    assert |Init(services).runs| == 0;
  }

  ghost predicate Comes(services: ServiceTable, n: int, login: Call, c: Client) {
    exists ms :: Moves(StartClient(services, n), login, ms, c)
  }

  lemma OneMove(c: Client, login: Call, m: Move, ms: seq<Move>, d: Client)
    requires Can(c, login, m) && Moves(Go(c, login, m), login, ms, d)
    ensures Moves(c, login, [m] + ms, d)
  {
    hide Can, Go;
    assert ([m] + ms)[1..] == ms;
  }

  lemma {:induction false} MovesConcat(c: Client, login: Call, a: seq<Move>, m: Client, b: seq<Move>, d: Client)
    requires Moves(c, login, a, m) && Moves(m, login, b, d)
    ensures Moves(c, login, a + b, d)
    decreases |a|
  {
    hide Can, Go;
    if a == [] {
      assert a + b == b;
    } else {
      assert (a + b)[0] == a[0] && (a + b)[1..] == a[1..] + b;
      MovesConcat(Go(c, login, a[0]), login, a[1..], m, b, d);
    }
  }

  lemma ComesOn(services: ServiceTable, n: int, login: Call, c: Client, m: Move)
    requires Comes(services, n, login, c) && Can(c, login, m)
    ensures Comes(services, n, login, Go(c, login, m))
  {
    hide Can, Go;
    var ms :| Moves(StartClient(services, n), login, ms, c);
    var d := Go(c, login, m);
    assert Moves(d, login, [], d);
    OneMove(c, login, m, [], d);
    MovesConcat(StartClient(services, n), login, ms, c, [m] + [], d);
  }

  lemma ComesFirst(services: ServiceTable, n: int, login: Call)
    ensures Comes(services, n, login, StartClient(services, n))
  {
    assert Moves(StartClient(services, n), login, [], StartClient(services, n));
  }

  /** The client object. Its channel is the client of `sys`: what the object does to it, and what has
      happened to it when one of its callbacks runs, are steps of `sys`. */
  class RpcClientWithReconn {
    const services: ServiceTable
    const login: Call          // what sendLogin calls
    const numRequests: int
    var phase: Phase
    var remaining: int         // remainingRequests_
    ghost var sys: Sys

    ghost function View(): Client
      reads this
    {
      Client(sys, phase, remaining)
    }

    /** The object is in a state of some run of the client, with its count right. */
    ghost predicate Valid()
      reads this
    {
      Counted(numRequests, View()) && Comes(services, numRequests, login, View())
    }

    constructor (services: ServiceTable, login: Call, numRequests: int)
      ensures Valid() && View() == StartClient(services, numRequests)
      ensures this.services == services && this.login == login && this.numRequests == numRequests
    {
      this.services, this.login, this.numRequests := services, login, numRequests;
      phase, remaining, sys := Connecting, numRequests, Init(services);
      new;
      hide Counted, Comes;
      StartCounted(services, numRequests);
      ComesFirst(services, numRequests, login);
    }

    method SendLogin()
      requires Enabled(sys, Alloc(login))
      modifies this`sys
      ensures sys == Called(old(sys), login)
    {
      sys := Called(sys, login);
    }

    /** The connection has come up, or gone down. */
    method OnConnection(connected: bool)
      requires Valid() && Can(View(), login, if connected then Connect else Down)
      modifies this`phase, this`sys
      ensures Valid() && View() == Go(old(View()), login, if connected then Connect else Down)
      ensures sys.runs == old(sys.runs)
      ensures numRequests >= 1 ==> (phase.Quit? <==> !connected && |sys.runs| == numRequests)
      ensures if connected then NewCall(old(sys), login, sys) && phase.Running?
              else sys.issued == old(sys.issued) && !phase.Running? && (phase.Quit? <==> remaining <= 0)
    {
      hide Inv, Next, Enabled, Live, Up, Calm, Called, Comes;
      ghost var before := View();
      if connected {
        ConnectCounts(numRequests, before, login);
        sys := Next(sys, Open);
        phase := Phase.Running;
        SendLogin();
      } else {
        DownCounts(numRequests, before, login);
        sys := Next(sys, Close(|sys.conns| - 1));
        if remaining > 0 { phase := Connecting; } else { phase := Quit; }
      }
      ComesOn(services, numRequests, login, before, if connected then Connect else Down);
    }

    /** The response to a login was taken off connection k. disconnect says that the client asks for the
        end of its connection. */
    method OnLoginDone(ghost k: nat) returns (disconnect: bool)
      requires Valid() && Can(View(), login, Take(k))
      modifies this`remaining, this`sys
      ensures Valid() && View() == Go(old(View()), login, Take(k))
      ensures |sys.runs| == old(|sys.runs|) + 1
      ensures disconnect <==> |sys.runs| >= numRequests
      ensures if remaining > 0 then NewCall(old(sys), login, sys) else sys.issued == old(sys.issued)
    {
      hide Inv, Next, Enabled, Live, Up, Calm, Called, Comes;
      ghost var before := View();
      TakeCounts(numRequests, before, login, k);
      sys := Next(sys, ClientTake(k));
      remaining := remaining - 1;
      if remaining > 0 {
        SendLogin();
        disconnect := false;
      } else {
        disconnect := true;
      }
      ComesOn(services, numRequests, login, before, Take(k));
    }
  }

  /** The countdown is exact over every behaviour of the network, the servers and the connections: every
      answer counts down by one, completions and remaining requests add up to n, and when the loop quits
      after a positive n all n calls are completed. */
  lemma ExactCountdown(services: ServiceTable, n: int, login: Call, ms: seq<Move>, c: Client)
    requires Moves(StartClient(services, n), login, ms, c)
    ensures |c.sys.runs| + c.remaining == n && AtMostOneLive(c.sys)
    ensures forall k :: Can(c, login, Take(k)) ==> Go(c, login, Take(k)).remaining == c.remaining - 1
    ensures n >= 1 && c.phase.Quit? ==> c.remaining == 0 && |c.sys.runs| == n
    ensures n >= 1 && c.remaining == 0 ==> forall k :: !Enabled(c.sys, ClientTake(k))
    ensures c.phase.Running? && c.remaining > 0 ==> Live(c.sys, c.sys.id)
  {
    hide Can, Go, Calm, Enabled;
    StartCounted(services, n);
    RunCounted(n, StartClient(services, n), login, ms, c);
    forall k | Can(c, login, Take(k)) ensures Go(c, login, Take(k)).remaining == c.remaining - 1 {
      TakeCounts(n, c, login, k);
    }
    if n >= 1 && c.remaining == 0 {
      forall k ensures !Enabled(c.sys, ClientTake(k)) {
        if Enabled(c.sys, ClientTake(k)) { var id := AnswerIsLive(c.sys, k); }
      }
    }
  }

  /** Every call that took an id is completed or still in the table, and of those in the table at most
      the live one can still be completed: orphans of a lost connection never are. */
  lemma OrphansStay(services: ServiceTable, n: int, login: Call, ms: seq<Move>, c: Client, id: int)
    requires Moves(StartClient(services, n), login, ms, c) && id in c.sys.issued
    ensures id in c.sys.runs <==> id !in c.sys.table
    ensures forall k :: Can(c, login, Take(k)) && id !in c.sys.runs && id in Next(c.sys, ClientTake(k)).runs ==>
            Live(c.sys, id)
  {
    hide Calm, Enabled, Next, Called, Live;
    StartCounted(services, n);
    RunCounted(n, StartClient(services, n), login, ms, c);
    RunOrTable(c.sys, id);
    forall k | Can(c, login, Take(k)) && id !in c.sys.runs && id in Next(c.sys, ClientTake(k)).runs
      ensures Live(c.sys, id)
    {
      var j := AnswerIsLive(c.sys, k);
      assert id in Next(c.sys, ClientTake(k)).runs.Keys;
    }
  }

  lemma RunOrTable(s: Sys, id: int)
    requires Calm(s) && id in s.issued
    ensures id in s.runs <==> id !in s.table
  {
    hide ConnOk, LostOk, HandledOk, CallsOk;
    assert Stages(s, id) == One(id in s.issued);
  }

  // ---------------------------------------------------------------- when the loop quits at 0

  /** A client that makes no further call goes along with any run of network, servers and its own
      receiving side. */
  lemma {:induction false} Follow(n: int, c: Client, login: Call, acts: seq<Action>, t: Sys)
    returns (ms: seq<Move>, d: Client)
    requires Counted(n, c) && c.remaining <= 1 && RunsTo(c.sys, acts, t) && AllCarrying(acts)
    ensures Moves(c, login, ms, d) && d.sys == t && d.phase == c.phase && Counted(n, d)
    decreases |acts|
  {
    hide Counted, Can, Go, Enabled, Next;
    if acts == [] {
      ms, d := [], c;
    } else {
      var a := acts[0];
      assert a in acts && forall x :: x in acts[1..] ==> x in acts;
      var m, c' := FollowOne(n, c, login, a);
      var rest;
      rest, d := Follow(n, c', login, acts[1..], t);
      OneMove(c, login, m, rest, d);
      ms := [m] + rest;
    }
  }

  lemma FollowOne(n: int, c: Client, login: Call, a: Action) returns (m: Move, c': Client)
    requires Counted(n, c) && c.remaining <= 1 && Enabled(c.sys, a) && Carrying(a)
    ensures Can(c, login, m) && c' == Go(c, login, m) && c'.sys == Next(c.sys, a) && c'.phase == c.phase
    ensures Counted(n, c') && c'.remaining <= 1
  {
    hide Inv, Next, Enabled, Calm, Live, Up, Called;
    if a.ClientTake? {
      m := Take(a.k);
      TakeCounts(n, c, login, a.k);
    } else {
      m := World(a);
      WorldCounts(n, c, login, a);
    }
    c' := Go(c, login, m);
  }

  /** A login that the server can answer. */
  ghost predicate Answerable(services: ServiceTable, login: Call) {
    && Enabled(Next(Init(services), Open), Alloc(login)) && Registered(services, login.desc)
    && Fits(RequestHeader(1, login))
  }

  lemma FirstConnection(services: ServiceTable)
    ensures Enabled(Init(services), Open)
    ensures var s := Next(Init(services), Open);
            s.id == 0 && s.alive && s.conns == [NEW_CONN] && s.services == services && Clean(NEW_CONN) && Inv(s)
  {
    hide Inv, TakeFrame, CallOk, WellFormed;
    NothingTaken();
    assert [] + [NEW_CONN] == [NEW_CONN];
    NothingBlocked();
    InitInv(services);
    StepInv(Init(services), Open);
  }

  lemma NothingBlocked()
    ensures !Blocked([] + [])
  {
    hide TakeFrame;
    NothingTaken();
    var none: bytes := [];
    assert none + none == none;
  }

  lemma CalledIs(s: Sys, login: Call, t: Sys)
    requires Enabled(s, Alloc(login)) && RunsTo(s, [Alloc(login), Register(s.id + 1), Send(s.id + 1)], t)
    ensures t == Called(s, login)
  {
    hide Enabled, Next;
    var a, b, c := Alloc(login), Register(s.id + 1), Send(s.id + 1);
    assert [a, b, c][1..] == [b, c] && [b, c][1..] == [c] && [c][1..] == [];
    assert RunsTo(Next(s, a), [b, c], t);
    assert RunsTo(Next(Next(s, a), b), [c], t);
    assert RunsTo(Next(Next(Next(s, a), b), c), [], t);
  }

  /** The first call, on the way. */
  lemma FirstCall(services: ServiceTable, n: int, login: Call) returns (c: Client)
    requires Answerable(services, login)
    ensures Can(StartClient(services, n), login, Connect) && c == Go(StartClient(services, n), login, Connect)
    ensures Counted(n, c) && c.phase == Phase.Running && c.remaining == n
    ensures Inv(c.sys) && c.sys.alive && Underway(c.sys, 1) && CleanFor(c.sys, 1)
  {
    hide Inv, Next, Enabled, Registered, Fits, RequestHeader, Underway, CleanFor, Counted, Clean, Called, RunsTo;
    FirstConnection(services);
    StartCounted(services, n);
    var s := Next(Init(services), Open);
    var acts, s3 := CallMade(s, login);
    CalledIs(s, login, s3);
    c := Go(StartClient(services, n), login, Connect);
    ConnectCounts(n, StartClient(services, n), login);
    CountedInv(n, c);
  }

  lemma CountedInv(n: int, c: Client)
    requires Counted(n, c)
    ensures Inv(c.sys) && c.sys.alive && (c.phase.Running? ==> c.sys.conns != []) && |c.sys.runs| + c.remaining == n
  {
    hide Inv;
  }

  /** With n below 1 the loop can quit below 0: the one call that is sent anyway may be answered. */
  lemma QuitsBelowZero(services: ServiceTable, n: int, login: Call) returns (d: Client)
    requires Answerable(services, login) && n <= 0
    ensures Comes(services, n, login, d) && d.phase.Quit? && d.remaining < 0
  {
    hide Inv, Underway, CleanFor, Counted, Can, Go, Moves, Answerable, RunsTo;
    var c := FirstCall(services, n, login);
    var acts, t := CanBeAnswered(c.sys, 1);
    var ms, e := Follow(n, c, login, acts, t);
    CountedInv(n, e);
    NotEmpty(t.runs, 1);
    OneMove(StartClient(services, n), login, Connect, ms, e);
    GoesDown(e, login);
    ComesOn(services, n, login, e, Down);
    d := Go(e, login, Down);
  }

  lemma GoesDown(c: Client, login: Call)
    requires c.phase == Phase.Running && Inv(c.sys) && c.sys.alive && c.sys.conns != []
    ensures Can(c, login, Down)
    ensures var d := Go(c, login, Down); d.phase == WhenDown(c.remaining) && d.remaining == c.remaining
  {
    hide Inv, CallOk, TakeFrame, WellFormed, Requested, Responded, ServerHandles, TakeCall;
  }

  lemma NotEmpty(m: map<int, Run>, id: int)
    requires id in m
    ensures |m| >= 1
  {
    assert m.Keys != {};
  }

  /** The loop quits only at 0, in every run, if and only if at least one request was asked for. */
  lemma QuitsOnlyAtZero(services: ServiceTable, n: int, login: Call)
    requires Answerable(services, login)
    ensures (forall c :: Comes(services, n, login, c) && c.phase.Quit? ==> c.remaining == 0) <==> n >= 1
  {
    hide Answerable, Moves;
    if n >= 1 {
      forall c | Comes(services, n, login, c) && c.phase.Quit? ensures c.remaining == 0 {
        var ms :| Moves(StartClient(services, n), login, ms, c);
        ExactCountdown(services, n, login, ms, c);
      }
    } else {
      var d := QuitsBelowZero(services, n, login);
    }
  }

  // ---------------------------------------------------------------- the concurrent client

  /** The calls that a loop from 0 to total sends. */
  function Calls(total: int): nat { if total > 0 then total else 0 }

  /** disconnects counts how often the client asked to disconnect. */
  datatype Batch = Batch(sys: Sys, phase: Phase, total: int, pending: int, disconnects: nat)

  /** k calls one after the other. */
  ghost predicate CanCallAll(s: Sys, login: Call, k: nat)
    decreases k
  {
    k > 0 ==> Enabled(s, Alloc(login)) && CanCallAll(Called(s, login), login, k - 1)
  }

  ghost function CalledAll(s: Sys, login: Call, k: nat): Sys
    requires CanCallAll(s, login, k)
    decreases k
  {
    if k == 0 then s else CalledAll(Called(s, login), login, k - 1)
  }

  ghost predicate CanBatch(b: Batch, login: Call, m: Move) {
    match m
    case Connect => b.phase.Connecting? && b.sys.alive && CanCallAll(Next(b.sys, Open), login, Calls(b.total))
    case Take(k) => Enabled(b.sys, ClientTake(k))
    case Down => b.phase.Running? && b.sys.alive && b.sys.conns != []
    case World(a) => Outside(a) && Enabled(b.sys, a)
  }

  ghost function GoBatch(b: Batch, login: Call, m: Move): Batch
    requires CanBatch(b, login, m)
  {
    match m
    case Connect => b.(sys := CalledAll(Next(b.sys, Open), login, Calls(b.total)), phase := Phase.Running)
    case Take(k) =>
      var s := Next(b.sys, ClientTake(k));
      if s.runs.Keys == b.sys.runs.Keys then b.(sys := s)
      else b.(sys := s, pending := b.pending - 1,
              disconnects := if b.pending == 1 then b.disconnects + 1 else b.disconnects)
    case Down => b.(sys := Next(b.sys, Close(|b.sys.conns| - 1)), phase := Quit)
    case World(a) => b.(sys := Next(b.sys, a))
  }

  ghost predicate BatchMoves(b: Batch, login: Call, ms: seq<Move>, d: Batch)
    decreases |ms|
  {
    if ms == [] then d == b else CanBatch(b, login, ms[0]) && BatchMoves(GoBatch(b, login, ms[0]), login, ms[1..], d)
  }

  function StartBatch(services: ServiceTable, total: int): Batch {
    Batch(Init(services), Connecting, total, total, 0)
  }

  ghost predicate BatchOk(b: Batch) {
    && Calm(b.sys) && (b.phase.Running? <==> Up(b.sys))
    && b.sys.runs.Keys <= b.sys.issued.Keys
    && |b.sys.issued| == (if b.phase.Connecting? then 0 else Calls(b.total))
    && |b.sys.runs| + b.pending == b.total
    && b.disconnects == if b.total >= 1 && |b.sys.runs| == b.total then 1 else 0
  }

  lemma {:induction false} CalledAllCalm(s: Sys, login: Call, k: nat)
    requires Calm(s) && CanCallAll(s, login, k) && s.runs.Keys <= s.issued.Keys
    ensures var t := CalledAll(s, login, k);
            && Calm(t) && (Up(t) <==> Up(s)) && t.runs == s.runs && t.runs.Keys <= t.issued.Keys
            && |t.issued| == |s.issued| + k
    decreases k
  {
    hide Inv, Enabled, Calm, Up, Called, Live;
    if k > 0 {
      CalledCalm(s, login);
      OneMoreIssued(s.issued, s.id + 1, login);
      CalledAllCalm(Called(s, login), login, k - 1);
    }
  }

  /** k calls later: they have the next ids and are live if the connection is up, and so is what was. */
  ghost predicate Later(s: Sys, login: Call, k: nat, t: Sys) {
    && t.id == s.id + k && (Up(t) <==> Up(s))
    && (forall id :: id in t.issued <==> id in s.issued || s.id < id <= s.id + k)
    && (forall id :: s.id < id <= s.id + k ==> id in t.issued && t.issued[id] == login && (Up(s) ==> Live(t, id)))
    && (forall id :: Live(s, id) ==> Live(t, id))
  }

  lemma OneLater(s: Sys, login: Call)
    requires Calm(s) && Enabled(s, Alloc(login))
    ensures Later(s, login, 1, Called(s, login))
  {
    hide Inv, Enabled, Calm, Up, Called, Live;
    CalledCalm(s, login);
  }

  lemma LaterStill(s: Sys, login: Call, k: nat, m: Sys, j: nat, t: Sys)
    requires Later(s, login, k, m) && Later(m, login, j, t)
    requires forall id :: id in m.issued && id in t.issued ==> t.issued[id] == m.issued[id]
    ensures Later(s, login, k + j, t)
  {
    hide Live, Up;
  }

  lemma {:induction false} CalledAllLater(s: Sys, login: Call, k: nat)
    requires Calm(s) && CanCallAll(s, login, k)
    ensures Later(s, login, k, CalledAll(s, login, k))
    ensures forall id :: id in s.issued ==>
            id in CalledAll(s, login, k).issued && CalledAll(s, login, k).issued[id] == s.issued[id]
    decreases k
  {
    hide Inv, Enabled, Calm, Called, Later;
    if k > 0 {
      CalledCalm(s, login);
      OneLater(s, login);
      CalledAllLater(Called(s, login), login, k - 1);
      LaterStill(s, login, 1, Called(s, login), k - 1, CalledAll(s, login, k));
    } else {
      NoneLater(s, login);
    }
  }

  lemma NoneLater(s: Sys, login: Call)
    ensures Later(s, login, 0, s)
  {}

  lemma OneMoreIssued(m: map<int, Call>, id: int, c: Call)
    requires id !in m
    ensures |m[id := c]| == |m| + 1
  {
    assert m[id := c].Keys == m.Keys + {id};
  }

  /** Exactly n calls were made, with the next n ids, and all of them are live. */
  ghost predicate AllSent(s: Sys, login: Call, n: nat, s': Sys) {
    && |s'.issued| == n && s'.id == s.id + n
    && forall id :: id in s'.issued ==> s.id < id <= s'.id && s'.issued[id] == login && Live(s', id)
  }

  lemma BatchConnect(b: Batch, login: Call)
    requires BatchOk(b) && CanBatch(b, login, Connect)
    ensures Enabled(b.sys, Open)
    ensures BatchOk(GoBatch(b, login, Connect)) && GoBatch(b, login, Connect).sys.runs == b.sys.runs
    ensures AllSent(b.sys, login, if b.total > 0 then b.total else 0, GoBatch(b, login, Connect).sys)
  {
    hide Inv, Next, Enabled, Live, Up, Calm, Called, CalledAll, CanCallAll;
    OpenedCalm(b.sys);
    CalledAllCalm(Next(b.sys, Open), login, Calls(b.total));
    CalledAllLater(Next(b.sys, Open), login, Calls(b.total));
    NoneIssued(b.sys.issued);
  }

  lemma NoneIssued(m: map<int, Call>)
    requires |m| == 0
    ensures forall id :: id !in m
  {
    assert m.Keys == {};
  }

  /** While answers come, there are calls without one. */
  lemma AnswersLeft(b: Batch, login: Call, k: nat) returns (id: int)
    requires BatchOk(b) && CanBatch(b, login, Take(k))
    ensures id in b.sys.issued && id !in b.sys.runs && |b.sys.runs| < |b.sys.issued| && b.phase.Running?
    ensures var s := Next(b.sys, ClientTake(k));
            && Calm(s) && Up(s) && s.runs.Keys == b.sys.runs.Keys + {id} && s.issued == b.sys.issued
            && |s.runs| == |b.sys.runs| + 1
  {
    hide Inv, Next, Enabled, Live, Up, Calm;
    id := AnswerIsLive(b.sys, k);
    var s := Next(b.sys, ClientTake(k));
    KeysPlusOne(b.sys.runs, s.runs, id);
    Fewer(b.sys.runs.Keys, b.sys.issued.Keys, id);
  }

  lemma Fewer(a: set<int>, b: set<int>, id: int)
    requires a <= b && id in b && id !in a
    ensures |a| < |b|
  {
    assert b == a + (b - a);
    assert id in b - a;
  }

  lemma BatchTake(b: Batch, login: Call, k: nat)
    requires BatchOk(b) && CanBatch(b, login, Take(k))
    ensures BatchOk(GoBatch(b, login, Take(k)))
  {
    hide Inv, Next, Enabled, Live, Up, Calm;
    var id := AnswersLeft(b, login, k);
    assert id in Next(b.sys, ClientTake(k)).runs.Keys;
  }

  lemma BatchDown(b: Batch, login: Call)
    requires BatchOk(b) && CanBatch(b, login, Down)
    ensures Enabled(b.sys, Close(|b.sys.conns| - 1))
    ensures BatchOk(GoBatch(b, login, Down)) && GoBatch(b, login, Down).sys.runs == b.sys.runs
    ensures GoBatch(b, login, Down).sys.issued == b.sys.issued
  {
    hide Inv, Next, Enabled, Live, Up, Calm;
    ClosedCalm(b.sys);
  }

  lemma BatchWorld(b: Batch, login: Call, a: Action)
    requires BatchOk(b) && CanBatch(b, login, World(a))
    ensures BatchOk(GoBatch(b, login, World(a)))
  {
    hide Inv, Next, Enabled, Live, Up, Calm;
    OutsideCalm(b.sys, a);
  }

  lemma {:induction false} BatchRun(b: Batch, login: Call, ms: seq<Move>, d: Batch)
    requires BatchOk(b) && BatchMoves(b, login, ms, d)
    ensures BatchOk(d) && d.total == b.total
    decreases |ms|
  {
    hide BatchOk, CanBatch;
    if ms != [] {
      match ms[0] {
        case Connect => BatchConnect(b, login);
        case Take(k) => BatchTake(b, login, k);
        case Down => BatchDown(b, login);
        case World(a) => BatchWorld(b, login, a);
      }
      BatchRun(GoBatch(b, login, ms[0]), login, ms[1..], d);
    }
  }

  lemma StartBatchOk(services: ServiceTable, total: int)
    ensures BatchOk(StartBatch(services, total))
  {
    hide Inv;
    InitInv(services);
    assert |Init(services).runs| == 0 && |Init(services).issued| == 0;
  }

  ghost predicate BatchComes(services: ServiceTable, total: int, login: Call, b: Batch) {
    exists ms :: BatchMoves(StartBatch(services, total), login, ms, b)
  }

  lemma {:induction false} BatchMovesOn(b: Batch, login: Call, ms: seq<Move>, c: Batch, m: Move)
    requires BatchMoves(b, login, ms, c) && CanBatch(c, login, m)
    ensures BatchMoves(b, login, ms + [m], GoBatch(c, login, m))
    decreases |ms|
  {
    hide CanBatch, GoBatch;
    if ms == [] {
      assert (ms + [m])[0] == m && (ms + [m])[1..] == [];
      assert BatchMoves(GoBatch(c, login, m), login, [], GoBatch(c, login, m));
    } else {
      assert (ms + [m])[0] == ms[0] && (ms + [m])[1..] == ms[1..] + [m];
      BatchMovesOn(GoBatch(b, login, ms[0]), login, ms[1..], c, m);
    }
  }

  lemma BatchComesOn(services: ServiceTable, total: int, login: Call, b: Batch, m: Move)
    requires BatchComes(services, total, login, b) && CanBatch(b, login, m)
    ensures BatchComes(services, total, login, GoBatch(b, login, m))
  {
    hide CanBatch, GoBatch, BatchMoves;
    var ms :| BatchMoves(StartBatch(services, total), login, ms, b);
    BatchMovesOn(StartBatch(services, total), login, ms, b, m);
  }

  lemma BatchComesFirst(services: ServiceTable, total: int, login: Call)
    ensures BatchComes(services, total, login, StartBatch(services, total))
  {
    assert BatchMoves(StartBatch(services, total), login, [], StartBatch(services, total));
  }

  class RpcClient {
    const services: ServiceTable
    const login: Call          // what sendLogin calls
    const total: int           // totalRequests_
    var pending: int           // pendingResponses_
    ghost var sys: Sys
    ghost var phase: Phase
    ghost var disconnects: nat

    ghost function View(): Batch
      reads this
    {
      Batch(sys, phase, total, pending, disconnects)
    }

    ghost predicate Valid()
      reads this
    {
      BatchOk(View()) && BatchComes(services, total, login, View())
    }

    constructor (services: ServiceTable, login: Call, numRequests: int)
      ensures Valid() && View() == StartBatch(services, numRequests)
      ensures this.services == services && this.login == login
    {
      this.services, this.login, total, pending := services, login, numRequests, numRequests;
      sys, phase, disconnects := Init(services), Connecting, 0;
      new;
      hide BatchOk, BatchComes;
      StartBatchOk(services, numRequests);
      BatchComesFirst(services, numRequests, login);
    }

    method SendLogin()
      requires Enabled(sys, Alloc(login))
      modifies this`sys
      ensures sys == Called(old(sys), login)
    {
      sys := Called(sys, login);
    }

    /** The connection has come up: all calls are sent; or it has gone down: the loop quits. */
    method OnConnection(connected: bool)
      requires Valid() && CanBatch(View(), login, if connected then Connect else Down)
      modifies this`sys, this`phase
      ensures Valid() && View() == GoBatch(old(View()), login, if connected then Connect else Down)
      ensures sys.runs == old(sys.runs)
      ensures connected ==> phase.Running? && AllSent(old(sys), login, if total > 0 then total else 0, sys)
      ensures !connected ==> phase.Quit? && sys.issued == old(sys.issued)
    {
      hide Inv, Next, Enabled, Live, Up, Calm, Called, BatchComes;
      ghost var before := View();
      if connected {
        BatchConnect(before, login);
        phase := Phase.Running;
        sys := Next(sys, Open);
        ghost var linked := sys;
        var i := 0;
        while i < total
          invariant phase == Phase.Running && 0 <= i <= Calls(total)
          invariant CanCallAll(sys, login, Calls(total) - i)
          invariant CalledAll(sys, login, Calls(total) - i) == CalledAll(linked, login, Calls(total))
        {
          SendLogin();
          i := i + 1;
        }
        assert CalledAll(sys, login, 0) == sys;
      } else {
        BatchDown(before, login);
        sys := Next(sys, Close(|sys.conns| - 1));
        phase := Quit;
      }
      BatchComesOn(services, total, login, before, if connected then Connect else Down);
    }

    /** The response to a login was taken off connection k. */
    method OnLoginDone(ghost k: nat) returns (disconnect: bool)
      requires Valid() && CanBatch(View(), login, Take(k))
      modifies this`pending, this`sys, this`disconnects
      ensures Valid() && View() == GoBatch(old(View()), login, Take(k))
      ensures |sys.runs| == old(|sys.runs|) + 1
      ensures disconnect <==> |sys.runs| == total
    {
      hide Inv, Next, Enabled, Live, Up, Calm, Called, BatchComes;
      ghost var before := View();
      ghost var id := AnswersLeft(before, login, k);
      BatchTake(before, login, k);
      sys := Next(sys, ClientTake(k));
      assert id in sys.runs.Keys;
      var left := pending;
      pending := pending - 1;
      disconnect := left == 1;
      if disconnect { disconnects := disconnects + 1; }
      BatchComesOn(services, total, login, before, Take(k));
    }
  }

  /** Over every behaviour of the network, the servers and the connection: completions and pending
      responses add up to the total; the client asks to disconnect exactly once, at the completion of the
      last of its calls, and not before, even when the connection is lost; after the last completion no
      answer can follow; and with no calls it never asks. */
  lemma DisconnectsOnceAtTheLast(services: ServiceTable, total: int, login: Call, ms: seq<Move>, b: Batch)
    requires BatchMoves(StartBatch(services, total), login, ms, b)
    ensures |b.sys.runs| + b.pending == total && |b.sys.runs| <= Calls(total)
    ensures b.disconnects == if total >= 1 && |b.sys.runs| == total then 1 else 0
    ensures |b.sys.runs| == Calls(total) ==> forall k :: !Enabled(b.sys, ClientTake(k))
  {
    hide CanBatch, GoBatch, Calm, Enabled;
    StartBatchOk(services, total);
    BatchRun(StartBatch(services, total), login, ms, b);
    SubsetSize(b.sys.runs.Keys, b.sys.issued.Keys);
    forall k | Enabled(b.sys, ClientTake(k)) ensures |b.sys.runs| < Calls(total) {
      CanTake(b, login, k);
      var id := AnswersLeft(b, login, k);
    }
  }

  lemma CanTake(b: Batch, login: Call, k: nat)
    requires Enabled(b.sys, ClientTake(k))
    ensures CanBatch(b, login, Take(k))
  {
    hide Enabled;
  }
}
