/** What holds over whole runs of the RPC system of module RpcSystem. */
module RpcTheorems {
  import opened Wire
  import opened Messages
  import opened Framing
  import opened Channel
  import opened RpcSystem

  /** The actions lead from s to t. */
  ghost predicate RunsTo(s: Sys, acts: seq<Action>, t: Sys)
    decreases |acts|
  {
    if acts == [] then t == s
    else Enabled(s, acts[0]) && RunsTo(Next(s, acts[0]), acts[1..], t)
  }

  ghost predicate StepsTo(s: Sys, a: Action, s': Sys) { Enabled(s, a) && s' == Next(s, a) }

  ghost predicate Reachable(services: ServiceTable, t: Sys) {
    exists acts :: RunsTo(Init(services), acts, t)
  }

  lemma {:induction false} RunInv(s: Sys, acts: seq<Action>, t: Sys)
    requires Inv(s) && RunsTo(s, acts, t)
    ensures Inv(t) && t.services == s.services
    decreases |acts|
  {
    hide Inv;
    if acts != [] {
      StepInv(s, acts[0]);
      hide Next, Enabled;
      RunInv(Next(s, acts[0]), acts[1..], t);
    }
  }

  lemma ReachableInv(services: ServiceTable, t: Sys)
    requires Reachable(services, t)
    ensures Inv(t) && t.services == services
  {
    hide Inv, RunsTo;
    var acts :| RunsTo(Init(services), acts, t);
    InitInv(services);
    RunInv(Init(services), acts, t);
  }

  lemma {:induction false} RunConcat(s: Sys, a: seq<Action>, m: Sys, b: seq<Action>, t: Sys)
    requires RunsTo(s, a, m) && RunsTo(m, b, t)
    ensures RunsTo(s, a + b, t)
    decreases |a|
  {
    hide Enabled, Next;
    if a == [] {
      assert a + b == b;
    } else {
      assert (a + b)[0] == a[0] && (a + b)[1..] == a[1..] + b;
      RunConcat(Next(s, a[0]), a[1..], m, b, t);
    }
  }

  lemma ReachableOn(services: ServiceTable, s: Sys, acts: seq<Action>, t: Sys)
    requires Reachable(services, s) && RunsTo(s, acts, t)
    ensures Reachable(services, t)
  {
    hide RunsTo;
    var before :| RunsTo(Init(services), before, s);
    RunConcat(Init(services), before, s, acts, t);
  }

  lemma ReachableStep(services: ServiceTable, s: Sys, a: Action)
    requires Reachable(services, s) && Enabled(s, a)
    ensures Reachable(services, Next(s, a))
  {
    hide Enabled, Next, Reachable;
    assert [a][1..] == [] && RunsTo(Next(s, a), [], Next(s, a));
    assert RunsTo(s, [a], Next(s, a));
    ReachableOn(services, s, [a], Next(s, a));
  }

  lemma InitInv(services: ServiceTable)
    ensures Inv(Init(services))
  {
    forall id ensures Stages(Init(services), id) == 0 {}
  }

  // ---------------------------------------------------------------- safety

  /** An outstanding call to a method the server has, sent over a connection that is still open, and
      not lost to a frame that is too long. */
  ghost predicate Underway(t: Sys, id: int) {
    && id in t.table && id in t.issued && Registered(t.services, t.issued[id].desc)
    && id in t.via && t.via[id] < |t.conns| && t.conns[t.via[id]].open && id !in t.conns[t.via[id]].lost
  }

  /** Partition: a call underway is in exactly one place of its connection and in no place of any
      other open connection. Its request is in, or half-received from, the stream to the server; or
      its handler runs; or its response is in, or half-received from, the stream to the client. */
  lemma EveryCallInOnePlace(services: ServiceTable, t: Sys, id: int)
    requires Reachable(services, t) && t.alive && Underway(t, id)
    ensures var c := t.conns[t.via[id]];
            Occurs(Requests(c), id) + One(id in c.running) + Occurs(Responses(c), id) == 1
    ensures forall j :: 0 <= j < |t.conns| && j != t.via[id] && t.conns[j].open ==> Places(t.conns[j], id) == 0
  {
    hide Decode, StreamsOk, BlameOk, ClientOk, LostOk, Reachable;
    ReachableInv(services, t);
    var k := t.via[id];
    assert ConnOk(t, k, t.conns[k]);
    OncePerCallAt(t, k, t.conns[k], id);
    assert ServerSideOk(t, k, t.conns[k]);
    forall j | 0 <= j < |t.conns| && j != k && t.conns[j].open ensures Places(t.conns[j], id) == 0 {
      assert ConnOk(t, j, t.conns[j]);
    }
  }

  /** The streams never break: at any point of any run a receiver waits for more bytes, finds a whole
      frame with a header that parses, or meets an invalid length, and that only because a frame over
      this connection was too long. A client only ever takes responses, and every response it takes is
      for a call in its table. */
  lemma StreamsNeverBreak(services: ServiceTable, t: Sys, k: nat)
    requires Reachable(services, t) && t.alive && k < |t.conns|
    ensures !TakeFrame(t.conns[k].serverBuf).Unparsed? && !TakeFrame(t.conns[k].clientBuf).Unparsed?
    ensures TakeFrame(t.conns[k].serverBuf).BadLength? ==> exists id :: TooLongRequest(t, k, id)
    ensures TakeFrame(t.conns[k].clientBuf).BadLength? ==> exists id :: TooLongResponse(t, k, id)
    ensures TakeFrame(t.conns[k].clientBuf).Got? ==>
              var h := TakeFrame(t.conns[k].clientBuf).header;
              TypeOf(h) == RESPONSE && SentOver(t, k, KeyOf(h))
  {
    hide TakeFrame, Inv, StreamsOk, ServerSideOk, OncePerCall, TooLongRequest, TooLongResponse, KeyOf, TypeOf, IdOf,
         Reachable, ResponseFor, Pipe, Requests, Responses, Blocked, SentOver;
    ReachableInv(services, t);
    var c := t.conns[k];
    ConnIs(t, k);
    NothingTaken();
    if c.open {
      StreamParts(t, k, c);
      NeverUnparsed(c.serverBuf, c.toServer, Requests(c));
      NeverUnparsed(c.clientBuf, c.toClient, Responses(c));
      if TakeFrame(c.clientBuf).Got? {
        InvParts(t);
        var h, id, c' := ClientFrame(t, k, c);
        KeyIsId(t, k, h);
      }
    }
  }

  lemma ConnIs(t: Sys, k: nat)
    requires Inv(t) && t.alive && k < |t.conns|
    ensures ConnOk(t, k, t.conns[k])
  {
    hide ConnOk;
  }

  lemma InvParts(t: Sys)
    requires Inv(t)
    ensures CallsOk(t) && HandledOk(t)
  {
    hide CallsOk, HandledOk, ConnOk;
  }

  lemma StreamParts(t: Sys, k: nat, c: Conn)
    requires StreamsOk(t, k, c)
    ensures Pipe(c.serverBuf, c.toServer, Requests(c)) && Pipe(c.clientBuf, c.toClient, Responses(c))
  {
    hide Pipe, Requests, Responses, RequestsOk, ResponsesOk;
  }

  lemma NeverUnparsed(buf: bytes, flight: bytes, hs: seq<Header>)
    requires Pipe(buf, flight, hs)
    ensures !TakeFrame(buf).Unparsed?
    ensures TakeFrame(buf).BadLength? ==> Blocked(buf + flight)
  {
    hide TakeFrame, Frames, Pipe, Jam, Fits;
    var tail := PipeTail(buf, flight, hs);
    TakeFromJammed(buf, flight, hs, tail);
  }

  /** Correlation: whenever a done closure ran for a call, its response object holds the message that
      the service method produced, and that method was the one the call named, run on the call's own
      request message; whatever order handlers finished in. */
  lemma Correlation(services: ServiceTable, t: Sys, id: int)
    requires Reachable(services, t) && id in t.runs
    ensures id in t.issued && id in t.handled
    ensures t.handled[id].0 == HandlerOf(t.issued[id])
    ensures t.runs[id] == Run(id, t.issued[id].done, Some(t.handled[id].1))
  {
    hide ConnOk, CallsOk, StagesOk, LostOk, WellFormed;
    ReachableInv(services, t);
  }

  /** A call's handler finishes at most once: when it does, no response of it exists yet. */
  lemma HandlerFinishesOnce(services: ServiceTable, t: Sys, k: nat, id: int, rsp: Message)
    requires Reachable(services, t) && Enabled(t, Finish(k, id, rsp))
    ensures id !in t.handled && id !in t.runs
  {
    hide ConnOk, StagesOk, CallsOk, WellFormed, TakeFrame, CallOk;
    ReachableInv(services, t);
    ConnIs(t, k);
    Running(t, k, t.conns[k], id);
  }

  /** A call's done closure runs at most once: when it does, it has not run yet, the call is in the
      table, and it leaves the table first. */
  lemma DoneRunsOnce(services: ServiceTable, t: Sys, k: nat, t': Sys)
    requires Reachable(services, t) && StepsTo(t, ClientTake(k), t')
    requires k < |t.conns| && TakeFrame(t.conns[k].clientBuf).Got?
    ensures var id := KeyOf(TakeFrame(t.conns[k].clientBuf).header);
            && id in t.table && id !in t.runs
            && t'.table == t.table - {id}
            && t'.runs.Keys == t.runs.Keys + {id}
  {
    hide TakeFrame, TakeCall, Inv, KeyOf, TypeOf, IdOf, CallOk, Reachable;
    ReachableInv(services, t);
    var id := Completes(t, k);
  }

  lemma Completes(t: Sys, k: nat) returns (id: int)
    requires Inv(t) && t.alive && k < |t.conns| && TakeFrame(t.conns[k].clientBuf).Got?
    ensures var h := TakeFrame(t.conns[k].clientBuf).header;
            && id == KeyOf(h) && TypeOf(h) == RESPONSE && id in t.table && id !in t.runs
            && TakeCall(t.table, h).Some? && TakeCall(t.table, h).value.id == id
  {
    hide TakeFrame, ConnOk, TakeCall, CallOk, KeyOf, TypeOf, IdOf, ResponseFor, Requests, Responses, Pipe, Blocked,
         LostOk, WellFormed;
    var h, i, c' := ClientFrame(t, k, t.conns[k]);
    KeyIsId(t, k, h);
    id := i;
    assert Stages(t, id) == One(id in t.issued);
  }

  lemma KeyIsId(s: Sys, k: nat, h: Header)
    requires CallsOk(s) && ResponseFor(s, k, h)
    ensures KeyOf(h) == IdOf(h)
  {
    hide CallOk;
  }

  /** Ids are fresh: a thread that takes an id takes one that no call ever had, and registering a
      call never overwrites a table entry nor revives a call that is done; over concurrent calls and
      reconnects alike. */
  lemma IdsAreFresh(services: ServiceTable, t: Sys, a: Action)
    requires Reachable(services, t) && Enabled(t, a)
    ensures a.Alloc? || a.Burn? ==> Next(t, a).id > t.id && forall id :: id in t.issued ==> id < Next(t, a).id
    ensures a.Register? ==> a.rid !in t.table && a.rid !in t.runs && a.rid !in t.disposed
    ensures a.Send? ==> a.sid in t.table
  {
    hide CallOk, ConnOk, Frame, LostOk, HandledOk, TakeFrame, WellFormed, ServerHandles, Requested, Responded, TakeCall;
    ReachableInv(services, t);
    if a.Register? { assert Stages(t, a.rid) == One(a.rid in t.issued); }
  }

  /** Exactly-once disposal: when the channel is gone, every call that ever took an id was either
      completed through its done closure or deleted by the destructor, and never both; calls
      orphaned by a reconnect included. */
  lemma ExactlyOnceDisposed(services: ServiceTable, t: Sys, id: int)
    requires Reachable(services, t) && !t.alive && id in t.issued
    ensures id in t.runs <==> id !in t.disposed
  {
    hide CallsOk, RoutesOk, HandledOk, ConnOk, LostOk;
    ReachableInv(services, t);
    assert Stages(t, id) == One(id in t.issued);
  }

  /** The channel can be destroyed exactly when no thread is inside `CallMethod`, and then every call in
      the table is disposed of and no other. */
  lemma DestroyDisposes(t: Sys)
    requires t.alive
    ensures Enabled(t, Destroy) <==> t.taken == {} && t.unsent == {}
    ensures Enabled(t, Destroy) ==>
              var t' := Next(t, Destroy);
              !t'.alive && t'.table == map[] && t'.runs == t.runs && t'.issued == t.issued
              && forall id :: id in t'.disposed <==> id in t.disposed || id in t.table
  {
    hide CallOk, TakeFrame, WellFormed, ServerHandles, Requested, Responded, TakeCall;
  }

  // ---------------------------------------------------------------- what steps keep

  /** What taking a response changes: connection k's buffer, and perhaps one call is completed. */
  lemma ClientTakeEffect(s: Sys, k: nat) returns (c: Conn, run: Option<Run>)
    requires Enabled(s, ClientTake(k))
    ensures s.alive && k < |s.conns| && TakeFrame(s.conns[k].clientBuf).Got?
    ensures c == s.conns[k].(clientBuf := TakeFrame(s.conns[k].clientBuf).rest)
    ensures var s' := Next(s, ClientTake(k));
            && s'.conns == s.conns[k := c]
            && s'.(conns := s.conns) == (if run.None? then s
                 else s.(table := s.table - {run.value.id}, runs := s.runs[run.value.id := run.value]))
  {
    hide TakeFrame, TypeOf, CallOk, WellFormed, ServerHandles, TakeCall, Requested, Responded, Answer;
    c := s.conns[k].(clientBuf := TakeFrame(s.conns[k].clientBuf).rest);
    var h := TakeFrame(s.conns[k].clientBuf).header;
    run := if TypeOf(h) != RESPONSE then None else TakeCall(s.table, h);
  }

  /** Connections are only added, and none opens again. */
  ghost predicate Grown(s: Sys, s': Sys) {
    |s.conns| <= |s'.conns| && forall j :: 0 <= j < |s.conns| && s'.conns[j].open ==> s.conns[j].open
  }

  lemma SendGrows(s: Sys, id: int)
    requires Enabled(s, Send(id))
    ensures Grown(s, Next(s, Send(id)))
  {
    hide Frame, TakeFrame, Fits, RequestHeader, ResponseHeader, Serialize, CallOk, Answer, Dispatch, TakeCall,
         WellFormed, TypeOf, IdOf, Blocked, Requested, Responded, ServerHandles;
    if s.conns != [] { RequestedOpen(s.conns[|s.conns| - 1], id, RequestHeader(id, s.issued[id])); }
  }

  lemma FinishGrows(s: Sys, k: nat, id: int, rsp: Message)
    requires Enabled(s, Finish(k, id, rsp))
    ensures Grown(s, Next(s, Finish(k, id, rsp)))
  {
    hide Frame, TakeFrame, Fits, RequestHeader, ResponseHeader, Serialize, CallOk, Answer, Dispatch, TakeCall,
         WellFormed, TypeOf, IdOf, Blocked, Requested, Responded, ServerHandles;
    RespondedOpen(s.conns[k].(running := s.conns[k].running - {id}), id,
      Answer(id, s.conns[k].running[id].desc.output, rsp));
  }

  lemma ServerTakeGrows(s: Sys, k: nat)
    requires Enabled(s, ServerTake(k))
    ensures Grown(s, Next(s, ServerTake(k)))
  {
    hide Frame, TakeFrame, Fits, RequestHeader, ResponseHeader, Serialize, CallOk, Answer, Dispatch, TakeCall,
         WellFormed, TypeOf, IdOf, Blocked, Requested, Responded, ServerHandles;
    HandledOpen(s.services, s.conns[k], TakeFrame(s.conns[k].serverBuf).rest, TakeFrame(s.conns[k].serverBuf).header);
  }

  lemma ClientTakeGrows(s: Sys, k: nat)
    requires Enabled(s, ClientTake(k))
    ensures Grown(s, Next(s, ClientTake(k)))
  {
    hide Next, Enabled;
    var c, run := ClientTakeEffect(s, k);
  }

  lemma OtherGrows(s: Sys, a: Action)
    requires Enabled(s, a) && !a.Send? && !a.Finish? && !a.ServerTake? && !a.ClientTake?
    ensures Grown(s, Next(s, a))
  {
    hide Frame, TakeFrame, Fits, RequestHeader, ResponseHeader, Serialize, CallOk, Answer, Dispatch, TakeCall,
         WellFormed, TypeOf, IdOf, Blocked, Requested, Responded, ServerHandles;
  }

  lemma ConnsGrow(s: Sys, a: Action)
    requires Enabled(s, a)
    ensures Grown(s, Next(s, a))
  {
    hide Next, Enabled, Grown;
    match a
    case Send(id) => SendGrows(s, id);
    case Finish(k, id, rsp) => FinishGrows(s, k, id, rsp);
    case ServerTake(k) => ServerTakeGrows(s, k);
    case ClientTake(k) => ClientTakeGrows(s, k);
    case _ => OtherGrows(s, a);
  }

  lemma RequestedOpen(c: Conn, id: int, h: Header)
    ensures Requested(c, id, h).open == c.open
  {}

  lemma RespondedOpen(c: Conn, id: int, h: Option<Header>)
    ensures Responded(c, id, h).open == c.open
  {}

  lemma HandledOpen(services: ServiceTable, c: Conn, rest: bytes, h: Header)
    ensures ServerHandles(services, c.(serverBuf := rest), h).open == c.open
  {
    hide Dispatch;
  }

  /** Steps of the network and of the servers. */
  predicate Outside(a: Action) {
    a.ToServer? || a.ServerTake? || a.ServerStop? || a.Finish? || a.ToClient? || a.ClientStop?
  }

  ghost predicate SameClient(s: Sys, s': Sys) {
    && s'.alive == s.alive && s'.id == s.id && s'.taken == s.taken && s'.unsent == s.unsent && s'.runs == s.runs
    && s'.disposed == s.disposed
    && s'.issued == s.issued && s'.table == s.table && s'.via == s.via && |s'.conns| == |s.conns|
    && forall j :: 0 <= j < |s.conns| ==> s'.conns[j].open == s.conns[j].open
  }

  lemma OutsideSame(s: Sys, a: Action)
    requires Enabled(s, a) && Outside(a)
    ensures SameClient(s, Next(s, a))
  {
    hide Next, Enabled, SameClient;
    match a
    case ToServer(_, _) => MoveSame(s, a);
    case ToClient(_, _) => MoveSame(s, a);
    case ServerStop(_) => MoveSame(s, a);
    case ClientStop(_) => MoveSame(s, a);
    case Finish(k, id, rsp) => FinishSame(s, k, id, rsp);
    case ServerTake(k) => ServerTakeSame(s, k);
  }

  lemma MoveSame(s: Sys, a: Action)
    requires Enabled(s, a) && (a.ToServer? || a.ToClient? || a.ServerStop? || a.ClientStop?)
    ensures SameClient(s, Next(s, a))
  {
    hide TakeFrame, CallOk, WellFormed, Requested, Responded, ServerHandles, TakeCall;
  }

  lemma FinishSame(s: Sys, k: nat, id: int, rsp: Message)
    requires Enabled(s, Finish(k, id, rsp))
    ensures SameClient(s, Next(s, Finish(k, id, rsp)))
  {
    hide TakeFrame, CallOk, WellFormed, Requested, Responded, ServerHandles, TakeCall, Answer;
    RespondedOpen(s.conns[k].(running := s.conns[k].running - {id}), id,
      Answer(id, s.conns[k].running[id].desc.output, rsp));
  }

  lemma ServerTakeSame(s: Sys, k: nat)
    requires Enabled(s, ServerTake(k))
    ensures SameClient(s, Next(s, ServerTake(k)))
  {
    hide TakeFrame, CallOk, WellFormed, Requested, Responded, ServerHandles, TakeCall;
    HandledOpen(s.services, s.conns[k], TakeFrame(s.conns[k].serverBuf).rest, TakeFrame(s.conns[k].serverBuf).header);
  }

  lemma {:induction false} OpenBefore(s: Sys, acts: seq<Action>, t: Sys, k: nat)
    requires RunsTo(s, acts, t) && k < |s.conns|
    ensures k < |t.conns| && (t.conns[k].open ==> s.conns[k].open)
    decreases |acts|
  {
    hide Enabled, Next;
    if acts != [] {
      ConnsGrow(s, acts[0]);
      OpenBefore(Next(s, acts[0]), acts[1..], t, k);
    }
  }

  lemma SentBefore(s: Sys, id: int)
    requires Inv(s) && id in s.unsent
    ensures id !in s.via
  {
    hide CallsOk, StagesOk, HandledOk, ConnOk, LostOk;
  }

  /** Only destruction disposes of calls. */
  lemma StepDisposes(s: Sys, a: Action)
    requires Enabled(s, a) && Next(s, a).alive
    ensures s.alive && Next(s, a).disposed == s.disposed
  {
    hide Next, Enabled, SameClient, TakeFrame;
    if Outside(a) {
      OutsideSame(s, a);
      SameDisposed(s, Next(s, a));
    } else if a.ClientTake? {
      var c, run := ClientTakeEffect(s, a.k);
      assert Next(s, a).(conns := s.conns).disposed == Next(s, a).disposed;
      assert Next(s, a).(conns := s.conns).alive == Next(s, a).alive;
    } else {
      ClientDisposes(s, a);
    }
  }

  lemma SameDisposed(s: Sys, s': Sys)
    requires SameClient(s, s')
    ensures s'.alive == s.alive && s'.disposed == s.disposed
  {}

  lemma ClientDisposes(s: Sys, a: Action)
    requires Enabled(s, a) && Next(s, a).alive && !Outside(a) && !a.ClientTake?
    ensures s.alive && Next(s, a).disposed == s.disposed
  {
    hide TakeFrame, CallOk, WellFormed, Requested, Responded, ServerHandles, TakeCall, Answer, RequestHeader;
  }

  lemma {:induction false} RunDisposes(s: Sys, acts: seq<Action>, t: Sys)
    requires RunsTo(s, acts, t) && t.alive
    ensures s.alive && t.disposed == s.disposed
    decreases |acts|
  {
    hide Enabled, Next;
    if acts != [] {
      RunDisposes(Next(s, acts[0]), acts[1..], t);
      StepDisposes(s, acts[0]);
    }
  }

  lemma AliveDisposesNothing(services: ServiceTable, t: Sys)
    requires Reachable(services, t) && t.alive
    ensures t.disposed == {}
  {
    hide RunsTo;
    var acts :| RunsTo(Init(services), acts, t);
    RunDisposes(Init(services), acts, t);
  }
}
