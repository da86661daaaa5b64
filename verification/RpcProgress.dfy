/** Progress of the RPC system of module RpcSystem: without new calls every run ends, and calls that are
    underway get their answers. */
module RpcProgress {
  import opened Wire
  import opened Messages
  import opened Framing
  import opened Channel
  import opened RpcSystem
  import opened RpcTheorems
  import opened RpcSteps
  import opened RpcLosses

  /** Steps of the network, the servers and the threads already inside `CallMethod`; no new call, no
      connection coming or going, no destruction. */
  predicate Quiet(a: Action) {
    match a
    case Register(_) => true
    case Send(_) => true
    case ToServer(_, _) => true
    case ServerTake(_) => true
    case ServerStop(_) => true
    case Finish(_, _, _) => true
    case ToClient(_, _) => true
    case ClientTake(_) => true
    case ClientStop(_) => true
    case _ => false
  }

  /** Stages still ahead of a connection's calls, and bytes still in flight. */
  function ConnWork(c: Conn): nat {
    3 * |Requests(c)| + 2 * |c.running| + |Responses(c)| + One(!c.serverShut) + One(!c.clientShut)
  }
  function ConnBytes(c: Conn): nat { |c.toServer| + |c.toClient| }

  function SumWork(cs: seq<Conn>): nat { if cs == [] then 0 else ConnWork(cs[0]) + SumWork(cs[1..]) }
  function SumBytes(cs: seq<Conn>): nat { if cs == [] then 0 else ConnBytes(cs[0]) + SumBytes(cs[1..]) }

  function Work(s: Sys): nat { 5 * |s.taken| + 4 * |s.unsent| + SumWork(s.conns) }
  function Flight(s: Sys): nat { SumBytes(s.conns) }

  lemma {:induction false} SumUpdate(cs: seq<Conn>, k: nat, c: Conn)
    requires k < |cs|
    ensures SumWork(cs[k := c]) + ConnWork(cs[k]) == SumWork(cs) + ConnWork(c)
    ensures SumBytes(cs[k := c]) + ConnBytes(cs[k]) == SumBytes(cs) + ConnBytes(c)
  {
    hide ConnWork, ConnBytes;
    if k == 0 {
      assert cs[0 := c][1..] == cs[1..];
    } else {
      assert cs[k := c][1..] == cs[1..][k - 1 := c];
      SumUpdate(cs[1..], k - 1, c);
    }
  }

  /** The measure: lexicographically smaller. */
  predicate Less(s': Sys, s: Sys) {
    Work(s') < Work(s) || (Work(s') == Work(s) && Flight(s') < Flight(s))
  }

  lemma RegisterDecreases(s: Sys, id: int)
    requires Enabled(s, Register(id))
    ensures Less(Next(s, Register(id)), s)
  {
    hide SumWork, SumBytes;
    assert |s.taken - {id}| == |s.taken| - 1;
    assert |s.unsent + {id}| <= |s.unsent| + 1;
  }

  lemma SendFacts(s: Sys, id: int, k: nat)
    requires Inv(s) && Enabled(s, Send(id)) && k < |s.conns|
    ensures HeaderOk(RequestHeader(id, s.issued[id]))
    ensures s.conns[k].open ==> StreamsOk(s, k, s.conns[k])
  {
    hide StreamsOk, OncePerCall, BlameOk, HeaderOk, RequestHeader, TakeFrame, WellFormed, CallsOk;
    InvParts(s);
    ConnIs(s, k);
    IssuedHeaderOk(s, id);
  }

  lemma SentWork(s: Sys, k: nat, c: Conn, id: int, h: Header)
    requires HeaderOk(h) && (c.open ==> StreamsOk(s, k, c))
    ensures ConnWork(Requested(c, id, h)) <= ConnWork(c) + 3
  {
    hide Requests, Responses, HeaderOk, StreamsOk;
    if c.open {
      RequestsAfter(s, k, c, id, h);
      SameFlags(c, id, h);
    }
  }

  lemma SameFlags(c: Conn, id: int, h: Header)
    ensures Requested(c, id, h).serverShut == c.serverShut && Requested(c, id, h).clientShut == c.clientShut
    ensures Responded(c, id, Some(h)).serverShut == c.serverShut && Responded(c, id, Some(h)).clientShut == c.clientShut
    ensures Responded(c, id, None).serverShut == c.serverShut && Responded(c, id, None).clientShut == c.clientShut
  {}

  lemma SendDecreases(s: Sys, id: int)
    requires Inv(s) && Enabled(s, Send(id))
    ensures Less(Next(s, Send(id)), s)
  {
    hide Inv, CallOk, StreamsOk, Frame, Fits, RequestHeader, SumWork, SumBytes, ConnWork, ConnBytes, TakeFrame,
         Requested, HeaderOk, WellFormed;
    assert |s.unsent - {id}| == |s.unsent| - 1;
    if s.conns != [] {
      var k := |s.conns| - 1;
      SendFacts(s, id, k);
      SentWork(s, k, s.conns[k], id, RequestHeader(id, s.issued[id]));
      SumUpdate(s.conns, k, Next(s, Send(id)).conns[k]);
    }
  }

  lemma MovedWork(c: Conn, n: nat)
    ensures 1 <= n <= |c.toServer| ==>
              var c' := c.(toServer := c.toServer[n..], serverBuf := c.serverBuf + c.toServer[..n]);
              ConnWork(c') == ConnWork(c) && ConnBytes(c') < ConnBytes(c)
    ensures 1 <= n <= |c.toClient| ==>
              var c' := c.(toClient := c.toClient[n..], clientBuf := c.clientBuf + c.toClient[..n]);
              ConnWork(c') == ConnWork(c) && ConnBytes(c') < ConnBytes(c)
  {
    hide Decode;
    if 1 <= n <= |c.toServer| { PipeMove(c.serverBuf, c.toServer, n); }
    if 1 <= n <= |c.toClient| { PipeMove(c.clientBuf, c.toClient, n); }
  }

  lemma ToServerDecreases(s: Sys, k: nat, n: nat)
    requires Enabled(s, ToServer(k, n))
    ensures Less(Next(s, ToServer(k, n)), s)
  {
    hide SumWork, SumBytes, ConnWork, ConnBytes, TakeFrame, CallOk, Frame, ServerHandles, TakeCall, RequestHeader,
         WellFormed, Requested, Responded;
    MovedWork(s.conns[k], n);
    SumUpdate(s.conns, k, Next(s, ToServer(k, n)).conns[k]);
  }

  lemma ToClientDecreases(s: Sys, k: nat, n: nat)
    requires Enabled(s, ToClient(k, n))
    ensures Less(Next(s, ToClient(k, n)), s)
  {
    hide SumWork, SumBytes, ConnWork, ConnBytes, TakeFrame, CallOk, Frame, ServerHandles, TakeCall, RequestHeader,
         WellFormed, Requested, Responded;
    MovedWork(s.conns[k], n);
    SumUpdate(s.conns, k, Next(s, ToClient(k, n)).conns[k]);
  }

  lemma ServerTakeDecreases(s: Sys, k: nat)
    requires Inv(s) && Enabled(s, ServerTake(k))
    ensures Less(Next(s, ServerTake(k)), s)
  {
    hide Inv, ConnOk, TakeFrame, ConnWork, ConnBytes, SumWork, SumBytes, ServerHandles, TypeOf, IdOf, WellFormed,
         CallOk, Requested, Responded, TakeCall, Pipe, RequestOk, Dispatch, Requests, Responses, Blocked;
    var c := s.conns[k];
    ConnIs(s, k);
    InvParts(s);
    var h, id, c1 := ServerFrame(s, k, c);
    HandledWork(s.services, c, c1, h);
    SumUpdate(s.conns, k, ServerHandles(s.services, c1, h));
  }

  lemma HandledWork(services: ServiceTable, c: Conn, c1: Conn, h: Header)
    requires Requests(c) == [h] + Requests(c1) && Responses(c1) == Responses(c) && c1 == c.(serverBuf := c1.serverBuf)
    requires TypeOf(h) == REQUEST && (Dispatch(services, h).Start? ==> Dispatch(services, h).id == IdOf(h))
    ensures ConnWork(ServerHandles(services, c1, h)) < ConnWork(c)
  {
    hide Decode, TypeOf, IdOf, Dispatch;
    var c2 := ServerHandles(services, c1, h);
    assert c2.running.Keys <= c.running.Keys + {IdOf(h)};
    KeysCount(c2.running, c.running, IdOf(h));
  }

  lemma KeysCount(a: map<int, Handler>, b: map<int, Handler>, id: int)
    requires a.Keys <= b.Keys + {id}
    ensures |a| <= |b| + 1
  {
    SubsetSize(a.Keys, b.Keys + {id});
    assert |b.Keys + {id}| <= |b.Keys| + 1;
  }

  lemma SubsetSize(a: set<int>, b: set<int>)
    requires a <= b
    ensures |a| <= |b|
  {
    assert b == a + (b - a);
  }

  lemma FinishDecreases(s: Sys, k: nat, id: int, rsp: Message)
    requires Inv(s) && Enabled(s, Finish(k, id, rsp))
    ensures Less(Next(s, Finish(k, id, rsp)), s)
  {
    hide Inv, StreamsOk, TakeFrame, ConnWork, ConnBytes, SumWork, SumBytes, ServerHandles, WellFormed, CallOk,
         Requested, Responded, TakeCall, Answer;
    var c := s.conns[k];
    var answer := Answer(id, c.running[id].desc.output, rsp);
    FinishFacts(s, k, id, rsp);
    AnsweredWork(s, k, c, id, answer);
    SumUpdate(s.conns, k, Next(s, Finish(k, id, rsp)).conns[k]);
  }

  lemma AnsweredWork(s: Sys, k: nat, c: Conn, id: int, answer: Option<Header>)
    requires id in c.running && (answer.Some? ==> HeaderOk(answer.value)) && (c.open ==> StreamsOk(s, k, c))
    ensures ConnWork(Responded(c.(running := c.running - {id}), id, answer)) < ConnWork(c)
  {
    hide HeaderOk, StreamsOk, Decode;
    var c1 := c.(running := c.running - {id});
    assert c1.running.Keys == c.running.Keys - {id};
    assert |c1.running| == |c.running| - 1;
    if c.open {
      SameStreams(s, k, c, c1);
      ResponsesAfter(s, k, c1, id, answer);
      if answer.Some? { SameFlags(c1, id, answer.value); } else { SameFlags(c1, id, Default(HEADER)); }
    }
  }

  lemma ClientTakeDecreases(s: Sys, k: nat)
    requires Inv(s) && Enabled(s, ClientTake(k))
    ensures Less(Next(s, ClientTake(k)), s)
  {
    hide Inv, ConnOk, TakeFrame, ConnBytes, SumWork, SumBytes, ServerHandles, TypeOf, IdOf, WellFormed, CallOk,
         Requested, Responded, TakeCall, Pipe, ResponseFor, Requests, Responses, Blocked, SentOver;
    var c := s.conns[k];
    ConnIs(s, k);
    InvParts(s);
    var h, id, c' := ClientFrame(s, k, c);
    SumUpdate(s.conns, k, c');
  }

  lemma StopDecreases(s: Sys, a: Action, k: nat)
    requires Enabled(s, a) && (a == ServerStop(k) || a == ClientStop(k))
    ensures Less(Next(s, a), s)
  {
    hide SumWork, SumBytes, TakeFrame, CallOk, Frame, ServerHandles, TakeCall, RequestHeader, WellFormed, Requested,
         Responded, Decode;
    SumUpdate(s.conns, k, Next(s, a).conns[k]);
  }

  /** Every quiet step takes the system closer to rest. */
  lemma QuietStepDecreases(s: Sys, a: Action)
    requires Inv(s) && Enabled(s, a) && Quiet(a)
    ensures Less(Next(s, a), s)
  {
    hide Inv, Next, Less, Enabled;
    match a
    case Register(id) => RegisterDecreases(s, id);
    case Send(id) => SendDecreases(s, id);
    case ToServer(k, n) => ToServerDecreases(s, k, n);
    case ServerTake(k) => ServerTakeDecreases(s, k);
    case ServerStop(k) => StopDecreases(s, a, k);
    case Finish(k, id, rsp) => FinishDecreases(s, k, id, rsp);
    case ToClient(k, n) => ToClientDecreases(s, k, n);
    case ClientTake(k) => ClientTakeDecreases(s, k);
    case ClientStop(k) => StopDecreases(s, a, k);
  }

  ghost predicate QuietStep(s: Sys, a: Action, s': Sys) {
    Quiet(a) && StepsTo(s, a, s')
  }

  lemma {:induction false} EndsFrom(states: nat -> Sys, acts: nat -> Action, i: nat)
    requires Inv(states(i))
    ensures exists n: nat :: n >= i && !QuietStep(states(n), acts(n), states(n + 1))
    decreases Work(states(i)), Flight(states(i))
  {
    hide Inv, Work, Flight, Next, Enabled;
    if QuietStep(states(i), acts(i), states(i + 1)) {
      StepInv(states(i), acts(i));
      QuietStepDecreases(states(i), acts(i));
      EndsFrom(states, acts, i + 1);
    }
  }

  /** Termination: no infinite sequence of quiet steps exists from any reachable state. */
  lemma QuietRunsEnd(services: ServiceTable, states: nat -> Sys, acts: nat -> Action)
    requires Reachable(services, states(0))
    ensures exists n: nat :: !QuietStep(states(n), acts(n), states(n + 1))
  {
    hide Inv, QuietStep, Reachable;
    ReachableInv(services, states(0));
    EndsFrom(states, acts, 0);
  }

  /** The smallest response, for showing that a running handler can finish. */
  lemma DefaultResponseOk(id: int, output: Schema)
    requires |output| < 0x2000_0000 && 1 <= id < TWO63
    ensures WellFormed(output, Default(output))
    ensures Answer(id, output, Default(output)) == Some(ResponseHeader(id, [])) && Fits(ResponseHeader(id, []))
  {
    DefaultWellFormed(output);
    EmptyFields(output, 0);
    assert Serialize(output, Default(output)) == RecordsBytes([] + []) == [];
    hide Serialize, WellFormed;
    SmallHeader(id);
  }

  lemma {:induction false} EmptyFields(schema: Schema, i: nat)
    requires i <= |schema|
    ensures RecordsFrom(schema, Default(schema).fields, i) == []
    decreases |schema| - i
  {
    if i < |schema| {
      EmptyFields(schema, i + 1);
      assert FieldRecords(schema, i, Default(schema).fields[i]) == [];
    }
  }

  lemma SmallHeader(id: int)
    requires 1 <= id < TWO63
    ensures Fits(ResponseHeader(id, []))
  {
    hide RecordsFrom, RecordsBytes, WellFormed;
    SmallWellFormed(id);
    TwoRecords(id);
    ElevenBytes(id);
    var rs := [Varint(1, 1), Fixed64(2, id)];
    assert rs + [] == rs;
  }

  lemma SmallWellFormed(id: int)
    requires 1 <= id < TWO63
    ensures WellFormed(HEADER, ResponseHeader(id, []))
  {
    var h := ResponseHeader(id, []);
    assert h.fields == [Num(1), Num(id), Str([]), Str([]), Str([])];
    assert |HEADER| == 5 && h.unknown == [];
  }

  lemma TwoRecords(id: int)
    requires 1 <= id
    ensures RecordsFrom(HEADER, ResponseHeader(id, []).fields, 0) == [Varint(1, 1), Fixed64(2, id)]
  {
    var f := [Num(1), Num(id), Str([]), Str([]), Str([])];
    assert RecordsFrom(HEADER, f, 5) == [];
    assert RecordsFrom(HEADER, f, 4) == [] + [];
    assert RecordsFrom(HEADER, f, 3) == [];
    assert RecordsFrom(HEADER, f, 2) == [];
    assert RecordsFrom(HEADER, f, 1) == [Fixed64(2, id)];
  }

  lemma ElevenBytes(id: nat)
    ensures |RecordsBytes([Varint(1, 1), Fixed64(2, id)])| == 11
  {
    var a, b := Varint(1, 1), Fixed64(2, id);
    assert [a, b][1..] == [b] && [b][1..] == [];
    assert RecordsBytes([a, b]) == RecordBytes(a) + RecordsBytes([b]);
    assert RecordsBytes([b]) == RecordBytes(b) + [];
    TwoSizes(id);
  }

  lemma TwoSizes(id: nat)
    ensures |RecordBytes(Varint(1, 1))| == 2 && |RecordBytes(Fixed64(2, id))| == 9
  {
    hide LittleEndian;
    assert VarintBytes(8) == [8] && VarintBytes(1) == [1] && VarintBytes(17) == [17];
    assert BodyBytes(Varint(1, 1)) == VarintBytes(1) && BodyBytes(Fixed64(2, id)) == LittleEndian(id, 8);
  }

  /** Steps by which a connection's calls get on and none is lost: everything but sending more requests
      and answers that cannot be sent or taken. */
  ghost predicate Careful(s: Sys, a: Action) {
    match a
    case ToServer(_, _) => true
    case ServerTake(_) => true
    case Finish(k, id, rsp) =>
      && k < |s.conns| && id in s.conns[k].running
      && Answer(id, s.conns[k].running[id].desc.output, rsp).Some?
      && Fits(Answer(id, s.conns[k].running[id].desc.output, rsp).value)
    case ToClient(_, _) => true
    case ClientTake(_) => true
    case _ => false
  }

  /** No deadlock: while a call is underway, some quiet step is enabled, and one that loses nothing. */
  lemma SomeQuietStep(s: Sys, id: int) returns (a: Action)
    requires Inv(s) && s.alive && Underway(s, id)
    ensures Quiet(a) && Enabled(s, a) && Careful(s, a)
  {
    hide Inv, CallOk, Requests, Responses, TakeFrame, StreamsOk, WellFormed, Fits, Answer;
    var k := s.via[id];
    UnderwayPlace(s, id);
    if id in s.conns[k].running {
      DefaultResponseOk(id, s.issued[id].desc.output);
      a := Finish(k, id, Default(s.issued[id].desc.output));
    } else {
      a := SomeStreamStep(s, k);
    }
  }

  lemma UnderwayPlace(s: Sys, id: int)
    requires Inv(s) && s.alive && Underway(s, id)
    ensures var c := s.conns[s.via[id]];
            && StreamsOk(s, s.via[id], c)
            && 1 <= id < TWO63 && |s.issued[id].desc.output| < 0x2000_0000
            && (if id in c.running then c.running[id] == HandlerOf(s.issued[id])
                else Requests(c) != [] || Responses(c) != [])
  {
    hide Decode, StreamsOk, BlameOk, HandledOk, StagesOk, LostOk, WellFormed;
    var k := s.via[id];
    var c := s.conns[k];
    assert ConnOk(s, k, c) && CallOk(s.services, id, s.issued[id]);
    OncePerCallAt(s, k, c, id);
    assert id !in c.dropped;
  }

  lemma SomeStreamStep(s: Sys, k: nat) returns (a: Action)
    requires s.alive && k < |s.conns| && s.conns[k].open && StreamsOk(s, k, s.conns[k])
    requires Requests(s.conns[k]) != [] || Responses(s.conns[k]) != []
    ensures Quiet(a) && Enabled(s, a) && Careful(s, a)
  {
    hide Requests, Responses, TakeFrame, StreamsOk, Enabled, Pipe, Answer, Fits;
    var c := s.conns[k];
    StreamParts(s, k, c);
    StreamSteps(s, k);
    if c.toServer != [] {
      a := ToServer(k, 1);
    } else if c.toClient != [] {
      a := ToClient(k, 1);
    } else if Requests(c) != [] {
      WholeFrame(c.serverBuf, Requests(c));
      a := ServerTake(k);
    } else {
      WholeFrame(c.clientBuf, Responses(c));
      a := ClientTake(k);
    }
  }

  lemma StreamSteps(s: Sys, k: nat)
    requires s.alive && k < |s.conns|
    ensures s.conns[k].toServer != [] ==> Enabled(s, ToServer(k, 1))
    ensures s.conns[k].toClient != [] ==> Enabled(s, ToClient(k, 1))
    ensures TakeFrame(s.conns[k].serverBuf).Got? ==> Enabled(s, ServerTake(k))
    ensures TakeFrame(s.conns[k].clientBuf).Got? ==> Enabled(s, ClientTake(k))
  {
    hide TakeFrame, CallOk, WellFormed;
  }

  lemma WholeFrame(buf: bytes, hs: seq<Header>)
    requires Pipe(buf, [], hs) && hs != []
    ensures TakeFrame(buf).Got?
  {
    hide Frames, TakeFrame, Fits, Pipe, Jam, Blocked;
    var tail := PipeTail(buf, [], hs);
    TakeFromJammed(buf, [], hs, tail);
  }

  /** Why a call may stay in the table for good. */
  ghost predicate LeftBehind(t: Sys, id: int) {
    && id in t.issued
    && (id in t.via ==>
          && t.via[id] < |t.conns|
          && (!t.conns[t.via[id]].open || !Registered(t.services, t.issued[id].desc)
              || (id in t.conns[t.via[id]].lost && SomeBad(t, t.via[id]))))
  }

  /** Progress: where every quiet run ends no thread is inside `CallMethod`, and the only calls left in
      the table were made without a connection, went over a connection that closed, named a method the
      server lacks, or were lost on a connection over which some frame was too long or some answer did
      not serialize. */
  lemma RestIsDrained(services: ServiceTable, t: Sys)
    requires Reachable(services, t) && t.alive && AtRest(t)
    ensures t.taken == {} && t.unsent == {}
    ensures forall id :: id in t.table ==> LeftBehind(t, id)
  {
    hide Inv, Enabled, Registered, Careful, Quiet, Reachable, Bad;
    ReachableInv(services, t);
    NoThreadInside(t);
    forall id | id in t.table ensures LeftBehind(t, id) {
      Routed(t, id);
      if Underway(t, id) { var a := SomeQuietStep(t, id); }
      if id in t.via { LostIffBad(services, t, t.via[id]); }
    }
  }

  lemma Routed(t: Sys, id: int)
    requires Inv(t) && id in t.table
    ensures id in t.issued && (id in t.via ==> t.via[id] < |t.conns|)
  {
    hide ConnOk, StagesOk, HandledOk, CallOk, LostOk;
  }

  lemma NoThreadInside(t: Sys)
    requires Inv(t) && t.alive && AtRest(t)
    ensures t.taken == {} && t.unsent == {}
  {
    hide CallOk, HandledOk, ConnOk, LostOk, TakeFrame, WellFormed;
    forall id ensures id !in t.taken && id !in t.unsent {
      assert Quiet(Register(id)) && !Enabled(t, Register(id));
      assert Quiet(Send(id)) && !Enabled(t, Send(id));
      assert Stages(t, id) == One(id in t.issued);
    }
  }

  // ---------------------------------------------------------------- every call is answered

  ghost predicate AllQuiet(acts: seq<Action>) { forall a :: a in acts ==> Quiet(a) }

  ghost predicate AtRest(t: Sys) { forall a :: Quiet(a) ==> !Enabled(t, a) }

  ghost predicate Lost(s: Sys, id: int) {
    id in s.via && s.via[id] < |s.conns| && id in s.conns[s.via[id]].lost
  }

  ghost predicate UnderwayOrDone(s: Sys, id: int) { Underway(s, id) || id in s.runs || Lost(s, id) }

  /** What no quiet step takes away. */
  ghost predicate Lasting(s: Sys, s': Sys, id: int) {
    && s'.alive == s.alive && s'.issued == s.issued
    && (id !in s.unsent && id in s.via ==> id in s'.via && s'.via[id] == s.via[id])
    && (id in s.table ==> id in s'.table || id in s'.runs)
    && (id in s.runs ==> id in s'.runs)
    && |s'.conns| == |s.conns|
    && forall j :: 0 <= j < |s.conns| ==> s'.conns[j].open == s.conns[j].open && s.conns[j].lost <= s'.conns[j].lost
  }

  lemma RegisterLasts(s: Sys, x: int, id: int)
    requires Enabled(s, Register(x))
    ensures Lasting(s, Next(s, Register(x)), id)
  {
    hide Frame, TakeFrame, TypeOf, CallOk, RequestHeader, ResponseHeader, Serialize, WellFormed, Fits, Blocked,
         ServerHandles, OutstandingOf;
  }

  lemma OneConnLasts(s: Sys, s': Sys, k: nat, c: Conn, id: int)
    requires k < |s.conns| && c.open == s.conns[k].open && s.conns[k].lost <= c.lost && s'.conns == s.conns[k := c]
    requires Lasting(s, s'.(conns := s.conns), id)
    ensures Lasting(s, s', id)
  {}

  lemma SendLasts(s: Sys, x: int, id: int)
    requires Enabled(s, Send(x))
    ensures Lasting(s, Next(s, Send(x)), id)
  {
    hide Frame, TakeFrame, TypeOf, CallOk, RequestHeader, ResponseHeader, Serialize, WellFormed, Fits, Blocked,
         ServerHandles, OutstandingOf;
    var s' := Next(s, Send(x));
    if s.conns != [] {
      var k := |s.conns| - 1;
      SentLasts(s, x, k, id);
      OneConnLasts(s, s', k, s'.conns[k], id);
    }
  }

  lemma SentLasts(s: Sys, x: int, k: nat, id: int)
    requires x in s.unsent
    ensures Lasting(s, s.(unsent := s.unsent - {x}, via := s.via[x := k]), id)
  {}

  lemma ToServerLasts(s: Sys, k: nat, n: nat, id: int)
    requires Enabled(s, ToServer(k, n))
    ensures Lasting(s, Next(s, ToServer(k, n)), id)
  {
    hide Frame, TakeFrame, TypeOf, CallOk, RequestHeader, ResponseHeader, Serialize, WellFormed, Fits, Blocked,
         ServerHandles, OutstandingOf;
  }

  lemma ServerTakeLasts(s: Sys, k: nat, id: int)
    requires Enabled(s, ServerTake(k))
    ensures Lasting(s, Next(s, ServerTake(k)), id)
  {
    hide Frame, TakeFrame, TypeOf, CallOk, RequestHeader, ResponseHeader, Serialize, WellFormed, Fits, Blocked,
         Dispatch, OutstandingOf;
  }

  lemma FinishLasts(s: Sys, k: nat, x: int, rsp: Message, id: int)
    requires Enabled(s, Finish(k, x, rsp))
    ensures Lasting(s, Next(s, Finish(k, x, rsp)), id)
  {
    hide Frame, TakeFrame, TypeOf, CallOk, RequestHeader, ResponseHeader, Serialize, WellFormed, Fits, Blocked,
         ServerHandles, OutstandingOf;
  }

  lemma ToClientLasts(s: Sys, k: nat, n: nat, id: int)
    requires Enabled(s, ToClient(k, n))
    ensures Lasting(s, Next(s, ToClient(k, n)), id)
  {
    hide Frame, TakeFrame, TypeOf, CallOk, RequestHeader, ResponseHeader, Serialize, WellFormed, Fits, Blocked,
         ServerHandles, OutstandingOf;
  }

  lemma ClientTakeLasts(s: Sys, k: nat, id: int)
    requires Enabled(s, ClientTake(k))
    ensures Lasting(s, Next(s, ClientTake(k)), id)
  {
    hide Lasting, Next, Enabled;
    var c, run := ClientTakeEffect(s, k);
    if run.Some? { CompletedLasts(s, run.value, id); } else { ItselfLasts(s, id); }
    OneConnLasts(s, Next(s, ClientTake(k)), k, c, id);
  }

  lemma ItselfLasts(s: Sys, id: int)
    ensures Lasting(s, s, id)
  {}

  lemma CompletedLasts(s: Sys, run: Run, id: int)
    ensures Lasting(s, s.(table := s.table - {run.id}, runs := s.runs[run.id := run]), id)
  {}

  lemma StopLasts(s: Sys, a: Action, id: int)
    requires Enabled(s, a) && (a.ServerStop? || a.ClientStop?)
    ensures Lasting(s, Next(s, a), id)
  {
    hide Frame, TakeFrame, TypeOf, CallOk, RequestHeader, ResponseHeader, Serialize, WellFormed, Fits, Blocked,
         ServerHandles, OutstandingOf;
  }

  lemma QuietLasts(s: Sys, a: Action, id: int)
    requires Enabled(s, a) && Quiet(a)
    ensures Lasting(s, Next(s, a), id)
  {
    hide Next, Enabled, Lasting;
    match a
    case Register(x) => RegisterLasts(s, x, id);
    case Send(x) => SendLasts(s, x, id);
    case ToServer(k, n) => ToServerLasts(s, k, n, id);
    case ServerTake(k) => ServerTakeLasts(s, k, id);
    case ServerStop(_) => StopLasts(s, a, id);
    case Finish(k, x, rsp) => FinishLasts(s, k, x, rsp, id);
    case ToClient(k, n) => ToClientLasts(s, k, n, id);
    case ClientTake(k) => ClientTakeLasts(s, k, id);
    case ClientStop(_) => StopLasts(s, a, id);
  }

  lemma SentOnce(s: Sys, id: int)
    requires Inv(s) && id in s.via
    ensures id !in s.unsent
  {
    hide ConnOk, CallsOk, StagesOk, HandledOk, LostOk;
  }

  lemma QuietKeeps(s: Sys, a: Action, id: int)
    requires Inv(s) && Enabled(s, a) && Quiet(a) && UnderwayOrDone(s, id)
    ensures UnderwayOrDone(Next(s, a), id)
  {
    hide Inv, Next, Registered, CallOk, TakeFrame, Enabled;
    QuietLasts(s, a, id);
    if id !in s.runs { SentOnce(s, id); }
  }

  lemma {:induction false} QuietRunKeeps(s: Sys, acts: seq<Action>, t: Sys, id: int)
    requires Inv(s) && s.alive && RunsTo(s, acts, t) && AllQuiet(acts)
    requires UnderwayOrDone(s, id)
    ensures Inv(t) && t.alive && UnderwayOrDone(t, id)
    decreases |acts|
  {
    hide Inv, Next, Enabled, UnderwayOrDone, Quiet;
    if acts != [] {
      assert acts[0] in acts && forall a :: a in acts[1..] ==> a in acts;
      QuietKeeps(s, acts[0], id);
      StepInv(s, acts[0]);
      QuietLasts(s, acts[0], id);
      QuietRunKeeps(Next(s, acts[0]), acts[1..], t, id);
    }
  }

  /** Every run of quiet steps that has come to rest has completed every call that was underway when
      it began, but for those that were lost; and if over the call's connection no frame was too long
      and no answer failed to serialize, none was. */
  lemma RestCompletes(services: ServiceTable, s: Sys, acts: seq<Action>, t: Sys, id: int)
    requires Reachable(services, s) && s.alive && Underway(s, id)
    requires RunsTo(s, acts, t) && AllQuiet(acts) && AtRest(t)
    ensures id in t.runs <==> !Lost(t, id)
    ensures id in t.runs ==> id !in t.table
    ensures id in t.via && (!SomeBad(t, t.via[id]) ==> id in t.runs)
  {
    hide Inv, Underway, RunsTo, Quiet, Enabled, Stages, Careful, Reachable, Bad;
    ReachableInv(services, s);
    QuietRunKeeps(s, acts, t, id);
    if Underway(t, id) { var a := SomeQuietStep(t, id); }
    if id in t.runs { RanOnce(t, id); }
    if Lost(t, id) {
      LostNotRun(t, t.via[id], id);
      ReachableOn(services, s, acts, t);
      LostIffBad(services, t, t.via[id]);
    }
  }

  lemma RanOnce(t: Sys, id: int)
    requires Inv(t) && id in t.runs
    ensures id !in t.table && id in t.via
  {
    hide ConnOk, CallsOk, RoutesOk, LostOk, WellFormed;
    assert Stages(t, id) == One(id in t.issued);
  }

  /** Where every quiet run ends, all calls that went over a connection that is open, to methods the
      server has, are completed and out of the table, if and only if over that connection no frame was
      too long and no answer failed to serialize. */
  lemma ConnectionDrainsIff(services: ServiceTable, t: Sys, k: nat)
    requires Reachable(services, t) && t.alive && AtRest(t) && k < |t.conns| && t.conns[k].open
    requires forall id :: id in t.issued && id in t.via && t.via[id] == k ==> Registered(services, t.issued[id].desc)
    ensures (forall id :: id in t.via && t.via[id] == k ==> id in t.runs && id !in t.table) <==> !SomeBad(t, k)
  {
    hide Inv, Registered, Reachable, Bad, AtRest;
    ReachableInv(services, t);
    LostIffBad(services, t, k);
    RestIsDrained(services, t);
    AliveDisposesNothing(services, t);
    if SomeBad(t, k) {
      var id :| id in t.conns[k].lost;
      LostNeverCompletes(services, t, k, id);
    } else {
      forall id | id in t.via && t.via[id] == k ensures id in t.runs && id !in t.table {
        DoneOrInTable(t, id);
      }
    }
  }

  lemma DoneOrInTable(t: Sys, id: int)
    requires Inv(t) && t.disposed == {} && id in t.via
    ensures id in t.runs <==> id !in t.table
    ensures id in t.issued
  {
    hide ConnOk, CallsOk, HandledOk, LostOk;
    assert Stages(t, id) == One(id in t.issued);
  }

  /** Calls in the table that have been handed over went over an open connection, and one is there for
      those that have not. */
  ghost predicate Connected(s: Sys) {
    && s.conns != [] && s.conns[|s.conns| - 1].open
    && forall id :: id in s.table && id !in s.unsent ==>
         id in s.via && s.via[id] < |s.conns| && s.conns[s.via[id]].open
  }

  /** Steps that leave the client's books alone but for what is completed. */
  lemma ConnectedOn(s: Sys, s': Sys)
    requires Connected(s) && s'.unsent == s.unsent && s'.via == s.via && |s'.conns| == |s.conns|
    requires forall j :: 0 <= j < |s.conns| ==> s'.conns[j].open == s.conns[j].open
    requires forall id :: id in s'.table ==> id in s.table
    ensures Connected(s')
  {}

  lemma QuietConnected(s: Sys, a: Action)
    requires Enabled(s, a) && Quiet(a) && Connected(s)
    ensures Connected(Next(s, a))
  {
    hide Next, Enabled, Connected, SameClient;
    match a
    case Register(id) => RegisterConnected(s, id);
    case Send(id) => SendConnected(s, id);
    case ClientTake(k) => TakeConnected(s, k);
    case _ => OutsideConnected(s, a);
  }

  lemma RegisterConnected(s: Sys, id: int)
    requires Enabled(s, Register(id)) && Connected(s)
    ensures Connected(Next(s, Register(id)))
  {
    hide TakeFrame, CallOk, WellFormed, Requested, Responded, ServerHandles, TakeCall;
  }

  lemma SendConnected(s: Sys, id: int)
    requires Enabled(s, Send(id)) && Connected(s)
    ensures Connected(Next(s, Send(id)))
  {
    hide Next, Enabled, Requested, RequestHeader;
    var k := |s.conns| - 1;
    SendIs(s, id, k);
    RequestedOpen(s.conns[k], id, RequestHeader(id, s.issued[id]));
  }

  lemma TakeConnected(s: Sys, k: nat)
    requires Enabled(s, ClientTake(k)) && Connected(s)
    ensures Connected(Next(s, ClientTake(k)))
  {
    hide Next, Enabled, Connected, TakeFrame;
    var c, run := ClientTakeEffect(s, k);
    var s' := Next(s, ClientTake(k));
    assert s'.(conns := s.conns).via == s'.via && s'.(conns := s.conns).unsent == s'.unsent;
    ConnectedOn(s, s');
  }

  lemma OutsideConnected(s: Sys, a: Action)
    requires Enabled(s, a) && Outside(a) && Connected(s)
    ensures Connected(Next(s, a))
  {
    hide Next, Enabled, Connected;
    OutsideSame(s, a);
    ConnectedOn(s, Next(s, a));
  }

  lemma {:induction false} QuietRunConnected(s: Sys, acts: seq<Action>, t: Sys)
    requires RunsTo(s, acts, t) && AllQuiet(acts) && Connected(s)
    ensures Connected(t) && t.issued == s.issued && t.alive == s.alive
    decreases |acts|
  {
    hide Next, Enabled, Connected, Quiet;
    if acts != [] {
      assert acts[0] in acts && forall a :: a in acts[1..] ==> a in acts;
      QuietConnected(s, acts[0]);
      QuietLasts(s, acts[0], 0);
      QuietRunConnected(Next(s, acts[0]), acts[1..], t);
    }
  }

  /** The table empties: when every call in the table or still being made has an open connection and
      names a method of the server, and no frame is too long and every answer serializes, then all runs
      without new calls that have come to rest have completed every call. */
  lemma TableEmpties(services: ServiceTable, s: Sys, acts: seq<Action>, t: Sys)
    requires Reachable(services, s) && s.alive && Connected(s)
    requires forall id :: id in s.issued ==> Registered(services, s.issued[id].desc)
    requires RunsTo(s, acts, t) && AllQuiet(acts) && AtRest(t)
    requires forall k :: 0 <= k < |t.conns| ==> !SomeBad(t, k)
    ensures t.taken == {} && t.table == map[] && t.runs.Keys == s.issued.Keys
  {
    hide Inv, Registered, Reachable, Bad, AtRest, AllQuiet;
    QuietRunConnected(s, acts, t);
    ReachableOn(services, s, acts, t);
    ReachableInv(services, t);
    RestIsDrained(services, t);
    AliveDisposesNothing(services, t);
    forall id ensures id !in t.table {}
    forall id ensures id in t.runs <==> id in t.issued { AllStages(t, id); }
  }

  lemma AllStages(t: Sys, id: int)
    requires Inv(t) && t.disposed == {} && t.taken == {} && t.table == map[]
    ensures id in t.runs <==> id in t.issued
  {
    hide ConnOk, CallsOk, RoutesOk, HandledOk, LostOk;
    assert Stages(t, id) == One(id in t.issued);
  }

  /** And every state can come to rest by quiet steps. */
  lemma {:induction false} CanComeToRest(s: Sys) returns (acts: seq<Action>, t: Sys)
    requires Inv(s)
    ensures RunsTo(s, acts, t) && AllQuiet(acts) && AtRest(t)
    decreases Work(s), Flight(s)
  {
    hide Inv, Next, Enabled, Quiet, Work, Flight;
    if AtRest(s) {
      acts, t := [], s;
    } else {
      var a :| Quiet(a) && Enabled(s, a);
      StepInv(s, a);
      QuietStepDecreases(s, a);
      var rest;
      rest, t := CanComeToRest(Next(s, a));
      acts := [a] + rest;
      assert acts[1..] == rest;
    }
  }

  // ---------------------------------------------------------------- answers that can be had

  /** Nothing too long is on the way in either direction, and the server still sends. */
  ghost predicate Clean(c: Conn) {
    c.open && !c.serverShut && !Blocked(c.serverBuf + c.toServer) && !Blocked(c.clientBuf + c.toClient)
  }

  ghost predicate CleanFor(s: Sys, id: int) {
    id in s.via && s.via[id] < |s.conns| && Clean(s.conns[s.via[id]]) && id !in s.conns[s.via[id]].lost
  }

  ghost predicate SameHistory(c: Conn, c': Conn) { c'.lost == c.lost && c'.clientShut == c.clientShut }

  /** The part of a careful step that concerns connection k. */
  lemma CarefulConn(s: Sys, a: Action, k: nat)
    requires Inv(s) && Enabled(s, a) && Quiet(a) && Careful(s, a) && k < |s.conns| && Clean(s.conns[k])
    ensures k < |Next(s, a).conns| && Clean(Next(s, a).conns[k]) && SameHistory(s.conns[k], Next(s, a).conns[k])
  {
    hide Inv, Next, Enabled, Clean, Careful;
    match a
    case ToServer(j, n) => CarefulMove(s, a, j, n, k);
    case ToClient(j, n) => CarefulMove(s, a, j, n, k);
    case ServerTake(j) => CarefulServerTake(s, j, k);
    case Finish(j, id, rsp) => CarefulFinish(s, j, id, rsp, k);
    case ClientTake(j) => CarefulClientTake(s, j, k);
    case Register(_) => NotCareful(s, a);
    case Send(_) => NotCareful(s, a);
    case ServerStop(_) => NotCareful(s, a);
    case ClientStop(_) => NotCareful(s, a);
  }

  lemma NotCareful(s: Sys, a: Action)
    requires a.Register? || a.Send? || a.ServerStop? || a.ClientStop?
    ensures !Careful(s, a)
  {}

  lemma CarefulMove(s: Sys, a: Action, j: nat, n: nat, k: nat)
    requires Enabled(s, a) && (a == ToServer(j, n) || a == ToClient(j, n)) && k < |s.conns| && Clean(s.conns[k])
    ensures k < |Next(s, a).conns| && Clean(Next(s, a).conns[k]) && SameHistory(s.conns[k], Next(s, a).conns[k])
  {
    hide TakeFrame, Blocked, CallOk, WellFormed, ServerHandles, TakeCall, Requested, Responded;
    var c := s.conns[j];
    if a.ToServer? { PipeMove(c.serverBuf, c.toServer, n); } else { PipeMove(c.clientBuf, c.toClient, n); }
  }

  lemma CarefulServerTake(s: Sys, j: nat, k: nat)
    requires Inv(s) && Enabled(s, ServerTake(j)) && k < |s.conns| && Clean(s.conns[k])
    ensures var s' := Next(s, ServerTake(j));
            k < |s'.conns| && Clean(s'.conns[k]) && SameHistory(s.conns[k], s'.conns[k])
  {
    hide Inv, TakeFrame, Blocked, CallOk, WellFormed, Dispatch, TypeOf, IdOf, TakeCall, Requested, Responded;
    TakeStaysBlocked(s, j);
  }

  lemma CarefulFinish(s: Sys, j: nat, id: int, rsp: Message, k: nat)
    requires Inv(s) && Enabled(s, Finish(j, id, rsp)) && Careful(s, Finish(j, id, rsp)) && k < |s.conns|
             && Clean(s.conns[k])
    ensures var s' := Next(s, Finish(j, id, rsp));
            k < |s'.conns| && Clean(s'.conns[k]) && SameHistory(s.conns[k], s'.conns[k])
  {
    hide Inv, TakeFrame, Blocked, CallOk, WellFormed, ServerHandles, TakeCall, Requested, Answer, Fits, Frame,
         StreamsOk, HeaderOk, Pipe, Requests, Responses;
    if j == k {
      var c := s.conns[k];
      var h := Answer(id, c.running[id].desc.output, rsp).value;
      FinishFacts(s, k, id, rsp);
      StreamParts(s, k, c);
      PipeSend(c.clientBuf, c.toClient, Responses(c), h);
    }
  }

  lemma CarefulClientTake(s: Sys, j: nat, k: nat)
    requires Inv(s) && Enabled(s, ClientTake(j)) && k < |s.conns| && Clean(s.conns[k])
    ensures var s' := Next(s, ClientTake(j));
            k < |s'.conns| && Clean(s'.conns[k]) && SameHistory(s.conns[k], s'.conns[k])
  {
    hide Inv, ConnOk, TakeFrame, ServerHandles, TypeOf, IdOf, WellFormed, CallOk, Requested, Responded, TakeCall,
         Pipe, ResponseFor, Requests, Responses, Blocked, SentOver;
    if j == k {
      ConnIs(s, k);
      InvParts(s);
      var h, id, c' := ClientFrame(s, k, s.conns[k]);
    }
  }

  /** Steps of the network, of the servers, and of the client's receiving side. */
  predicate Carrying(a: Action) {
    a.ToServer? || a.ServerTake? || a.Finish? || a.ToClient? || a.ClientTake?
  }

  ghost predicate AllCarrying(acts: seq<Action>) { forall a :: a in acts ==> Carrying(a) }

  lemma CarefulCarries(s: Sys, a: Action)
    requires Careful(s, a)
    ensures Carrying(a)
  {}

  /** A careful step takes no call off its way but to its closure. */
  lemma CarefulKeeps(s: Sys, a: Action, id: int)
    requires Inv(s) && Enabled(s, a) && Quiet(a) && Careful(s, a) && Underway(s, id) && CleanFor(s, id)
    ensures id in Next(s, a).runs || (Underway(Next(s, a), id) && CleanFor(Next(s, a), id))
  {
    hide Inv, Next, Enabled, Quiet, Careful, Clean, Registered;
    QuietLasts(s, a, id);
    QuietKeeps(s, a, id);
    SentOnce(s, id);
    CarefulConn(s, a, s.via[id]);
  }

  /** A call underway on a clean connection can always be brought to its closure. */
  lemma {:induction false} CanBeAnswered(s: Sys, id: int) returns (acts: seq<Action>, t: Sys)
    requires Inv(s) && s.alive && (id in s.runs || (Underway(s, id) && CleanFor(s, id)))
    ensures RunsTo(s, acts, t) && AllCarrying(acts) && Inv(t) && id in t.runs && t.issued == s.issued
    decreases Work(s), Flight(s)
  {
    hide Inv, Next, Enabled, Quiet, Work, Flight, Careful, Clean, Registered, Carrying;
    if id in s.runs {
      acts, t := [], s;
    } else {
      var a := SomeQuietStep(s, id);
      StepInv(s, a);
      QuietStepDecreases(s, a);
      QuietLasts(s, a, id);
      CarefulKeeps(s, a, id);
      CarefulCarries(s, a);
      var rest;
      rest, t := CanBeAnswered(Next(s, a), id);
      acts := [a] + rest;
      assert acts[1..] == rest;
    }
  }

  /** The current connection is open in both directions with nothing too long on it. */
  ghost predicate Ready(s: Sys) {
    s.conns != [] && Clean(s.conns[|s.conns| - 1]) && !s.conns[|s.conns| - 1].clientShut
  }

  /** So from every reachable state a call that fits, made over a clean connection to a method the server
      has, can be answered. */
  lemma EveryCallCanBeAnswered(services: ServiceTable, s: Sys, c: Call) returns (acts: seq<Action>, t: Sys)
    requires Reachable(services, s) && Enabled(s, Alloc(c)) && Registered(services, c.desc)
             && Fits(RequestHeader(s.id + 1, c))
    requires Ready(s)
    ensures RunsTo(s, acts, t) && s.id + 1 in t.runs && t.runs[s.id + 1].done == c.done
  {
    hide Inv, Registered, CallOk, AfterCall, Frame, RequestHeader, Next, Enabled, Quiet, Reachable, Clean, Fits;
    ReachableInv(services, s);
    var three, s3 := CallMade(s, c);
    RunInv(s, three, s3);
    var rest;
    rest, t := CanBeAnswered(s3, s.id + 1);
    RunConcat(s, three, s3, rest, t);
    acts := three + rest;
    DoneIsOwn(t, s.id + 1);
  }

  lemma DoneIsOwn(t: Sys, id: int)
    requires Inv(t) && id in t.runs
    ensures id in t.issued && t.runs[id].done == t.issued[id].done
  {
    hide ConnOk, CallsOk, StagesOk, LostOk;
  }

  /** A frame that fits, on a clean connection. */
  lemma SentClean(s: Sys, k: nat, c: Conn, id: int, h: Header)
    requires Clean(c) && !c.clientShut && StreamsOk(s, k, c) && HeaderOk(h) && Fits(h)
    ensures Clean(Requested(c, id, h)) && SameHistory(c, Requested(c, id, h))
  {
    hide Blocked, Fits, HeaderOk, Frame, Pipe, Requests, Responses, StreamsOk;
    StreamParts(s, k, c);
    PipeSend(c.serverBuf, c.toServer, Requests(c), h);
  }

  lemma CallMade(s: Sys, c: Call) returns (acts: seq<Action>, s3: Sys)
    requires Inv(s) && Enabled(s, Alloc(c)) && Registered(s.services, c.desc) && Fits(RequestHeader(s.id + 1, c))
    requires Ready(s)
    ensures acts == [Alloc(c), Register(s.id + 1), Send(s.id + 1)] && RunsTo(s, acts, s3)
    ensures s3.alive && Underway(s3, s.id + 1) && CleanFor(s3, s.id + 1)
    ensures s.id + 1 in s3.issued && s3.issued[s.id + 1] == c && Ready(s3)
  {
    hide Inv, Registered, CallOk, RequestHeader, TakeFrame, WellFormed, Fits, ServerHandles, Requested, Responded,
         TakeCall, StreamsOk, HeaderOk, Clean;
    var id := s.id + 1;
    var k := |s.conns| - 1;
    var s1 := Next(s, Alloc(c));
    var s2 := Next(s1, Register(id));
    s3 := Next(s2, Send(id));
    acts := [Alloc(c), Register(id), Send(id)];
    ThreeSteps(s, Alloc(c), s1, Register(id), s2, Send(id), s3);
    StepInv(s, Alloc(c));
    StepInv(s1, Register(id));
    SendFacts(s2, id, k);
    CleanIs(s.conns[k]);
    SentClean(s2, k, s2.conns[k], id, RequestHeader(id, c));
    CleanIs(s3.conns[k]);
    NeverLost(s2, k, id);
  }

  lemma CleanIs(c: Conn)
    requires Clean(c)
    ensures c.open && !c.serverShut
  {}

  lemma NeverLost(s: Sys, k: nat, id: int)
    requires Inv(s) && id in s.unsent && k < |s.conns|
    ensures id !in s.conns[k].lost
  {
    hide CallsOk, StagesOk, HandledOk, ConnOk;
  }
}
