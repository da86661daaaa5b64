/** The class `RPCChannel` takes the steps of module RpcSystem: what its methods are proved to do to a
    channel's state is what the system's actions do to the client and to its connection. */
module RpcSteps {
  import opened Wire
  import opened Messages
  import opened Framing
  import opened Channel
  import opened RpcSystem
  import opened RpcTheorems

  /** A channel object in the state of the system's client. */
  ghost predicate ClientView(st: State, s: Sys) {
    && st.id == s.id && st.table == s.table && st.connected == (s.conns != [])
    && (s.conns != [] ==> var c := s.conns[|s.conns| - 1]; st.down == (!c.open || c.clientShut))
  }

  /** Connection c after x was appended to its stream to the server. */
  ghost predicate Carried(c: Conn, c': Conn, x: bytes) {
    && c'.open == c.open && c'.clientShut == c.clientShut && c'.clientBuf == c.clientBuf
    && c'.toServer == c.toServer + x
  }

  /** s' is s after x was appended to the stream of the current connection, if there is one. */
  ghost predicate Appended(s: Sys, s': Sys, x: bytes) {
    && |s'.conns| == |s.conns|
    && forall j :: 0 <= j < |s.conns| ==> Carried(s.conns[j], s'.conns[j], if j == |s.conns| - 1 then x else [])
  }

  /** `CallMethod` is the three steps taken by one thread, with or without a connection: the same id, the
      same table, and the same bytes appended to the stream, or none. */
  lemma CallMethodSteps(s: Sys, c: Call, st: State) returns (s3: Sys)
    requires Enabled(s, Alloc(c)) && ClientView(st, s)
    ensures RunsTo(s, [Alloc(c), Register(s.id + 1), Send(s.id + 1)], s3) && ClientView(AfterCall(st, c), s3)
    ensures var frame := if st.connected && !st.down then Frame(RequestHeader(s.id + 1, c)) else [];
            AfterCall(st, c).sent == st.sent + frame && Appended(s, s3, frame)
    ensures AfterCall(st, c).runs == st.runs && s3.runs == s.runs && s3.alive
    ensures s3.id == s.id + 1 && s3.issued == s.issued[s.id + 1 := c]
    ensures s3.via == if s.conns == [] then s.via else s.via[s.id + 1 := |s.conns| - 1]
  {
    hide CallOk, Frame, RequestHeader, Serialize, Init, TakeFrame, WellFormed, ServerHandles, Requested, Responded,
         TakeCall;
    var id := s.id + 1;
    var s1 := Next(s, Alloc(c));
    var s2 := Next(s1, Register(id));
    s3 := Next(s2, Send(id));
    CallSerializes(s, c);
    ThreeSteps(s, Alloc(c), s1, Register(id), s2, Send(id), s3);
    forall k | 0 <= k < |s.conns| - 1 ensures Carried(s.conns[k], s3.conns[k], []) { Unmoved(s.conns[k]); }
    if s.conns != [] { RequestedCarries(s.conns[|s.conns| - 1], id, RequestHeader(id, c)); }
    assert st.sent + [] == st.sent;
  }

  lemma Unmoved(c: Conn)
    ensures Carried(c, c, [])
  {
    assert c.toServer + [] == c.toServer;
  }

  lemma RequestedCarries(c: Conn, id: int, h: Header)
    ensures Carried(c, Requested(c, id, h), if c.open && !c.clientShut then Frame(h) else [])
  {
    hide Blocked, Fits, Frame;
    assert c.toServer + [] == c.toServer;
  }

  lemma ThreeSteps(s: Sys, a: Action, s1: Sys, b: Action, s2: Sys, c: Action, s3: Sys)
    requires Enabled(s, a) && s1 == Next(s, a) && Enabled(s1, b) && s2 == Next(s1, b)
    requires Enabled(s2, c) && s3 == Next(s2, c)
    ensures RunsTo(s, [a, b, c], s3)
  {
    hide Enabled, Next;
    assert [a, b, c][1..] == [b, c] && [b, c][1..] == [c] && [c][1..] == [];
    assert RunsTo(s3, [], s3);
    assert RunsTo(s2, [c], s3);
    assert RunsTo(s1, [b, c], s3);
  }

  lemma CallSerializes(s: Sys, c: Call)
    requires Enabled(s, Alloc(c))
    ensures Serializable(c.desc.input, c.request) && Serializable(HEADER, RequestHeader(s.id + 1, c))
  {
    hide WellFormed, SameProto, RequestHeader, Serialize, TakeFrame;
  }

  /** And when the header does not serialize, the step `Burn`; when the request does not, none. */
  lemma FailedCallSteps(s: Sys, c: Call, st: State)
    requires s.alive && ClientView(st, s) && (Serializable(c.desc.input, c.request) ==> s.id + 1 < TWO63)
    requires !Serializable(c.desc.input, c.request) || !Serializable(HEADER, RequestHeader(s.id + 1, c))
    ensures if Serializable(c.desc.input, c.request) then
              Enabled(s, Burn) && ClientView(AfterCall(st, c), Next(s, Burn))
            else AfterCall(st, c) == st
    ensures AfterCall(st, c).sent == st.sent
  {
    hide Serializable, RequestHeader;
  }

  /** Handling a response is the step `ClientTake`, followed by the calls its closure makes. */
  lemma CompletionSteps(s: Sys, k: nat, st: State)
    requires Inv(s) && Enabled(s, ClientTake(k)) && st.table == s.table
    ensures var h := TakeFrame(s.conns[k].clientBuf).header; var s' := Next(s, ClientTake(k));
            && KeyOf(h) in s'.runs
            && AfterHeader(st, h) == AfterCalls(st.(table := s'.table, runs := st.runs + [s'.runs[KeyOf(h)]]),
                                                s'.runs[KeyOf(h)].done.next)
  {
    hide TakeFrame, TakeCall, Inv, KeyOf, TypeOf, IdOf, CallOk, AfterCalls, WellFormed, ServerHandles, Requested,
         Responded;
    var id := Completes(s, k);
  }

  /** Handling a request is the step `ServerTake`: the same service method starts on the same message
      for the same call, or none does. */
  lemma DispatchSteps(s: Sys, k: nat, st: State)
    requires Inv(s) && Enabled(s, ServerTake(k)) && st.services == s.services
    ensures var h := TakeFrame(s.conns[k].serverBuf).header; var s' := Next(s, ServerTake(k));
            if IdOf(h) in s'.conns[k].running then
              AfterHeader(st, h) == st.(started := st.started + [(IdOf(h), s'.conns[k].running[IdOf(h)])])
            else AfterHeader(st, h) == st
  {
    hide TakeFrame, Dispatch, Inv, TypeOf, IdOf, CallOk, WellFormed, TakeCall, Requested, Responded;
    var id := Starts(s, k);
  }

  lemma Starts(t: Sys, k: nat) returns (id: int)
    requires Inv(t) && t.alive && k < |t.conns| && TakeFrame(t.conns[k].serverBuf).Got?
    ensures var h := TakeFrame(t.conns[k].serverBuf).header;
            && id == IdOf(h) && TypeOf(h) == REQUEST && id !in t.conns[k].running
            && (Dispatch(t.services, h).Start? ==> Dispatch(t.services, h).id == id)
  {
    hide TakeFrame, TakeCall, CallOk, KeyOf, TypeOf, IdOf, RequestOk, Pipe, Dispatch, Decode, Occurs, Inv, ConnOk,
         Places, Blocked;
    var c := t.conns[k];
    ConnIs(t, k);
    InvParts(t);
    var h, i, c' := ServerFrame(t, k, c);
    id := i;
    OccursIn(Requests(c), h);
    OncePerCallAt(t, k, c, id);
  }

  /** A service method's done closure is the step `Finish`: the same bytes, or none when something does
      not serialize or the connection has stopped sending. */
  lemma DoneSteps(s: Sys, k: nat, id: int, rsp: Message, st: State)
    requires Enabled(s, Finish(k, id, rsp)) && st.connected && st.down == (!s.conns[k].open || s.conns[k].serverShut)
    ensures var c, c', output := s.conns[k], Next(s, Finish(k, id, rsp)).conns[k], s.conns[k].running[id].desc.output;
            var answer := Answer(id, output, rsp);
            var frame := if !st.down && answer.Some? then Frame(answer.value) else [];
            && AfterDone(st, id, output, rsp) == st.(sent := st.sent + frame)
            && c'.toClient == c.toClient + frame && id !in c'.running
  {
    hide WellFormed, Serialize, Serializable, Frame, ResponseHeader, Blocked, Fits, TakeFrame, CallOk, ServerHandles,
         TakeCall, Requested;
    assert st.sent + [] == st.sent;
    assert s.conns[k].toClient + [] == s.conns[k].toClient;
  }

  // ---------------------------------------------------------------- whole activations

  /** A call as generated code makes it, and so are the calls of its closure: the request is a message of
      the method's type, and client and server agree on the method. Neither it nor its header need be
      serializable. */
  ghost predicate ProperCall(services: ServiceTable, c: Call) {
    && WellFormed(c.desc.input, c.request) && SameProto(services, c.desc) && |c.desc.output| < 0x2000_0000
    && forall n :: n in c.done.next ==> ProperCall(services, n)
  }

  ghost predicate AllProper(services: ServiceTable, cs: seq<Call>) { forall c :: c in cs ==> ProperCall(services, c) }

  /** The closures that are still to run make such calls. */
  ghost predicate TableProper(s: Sys) {
    forall id :: id in s.table ==> AllProper(s.services, s.table[id].done.next)
  }

  /** The object has seen exactly the completions of the system. */
  ghost predicate SameRuns(st: State, s: Sys) {
    |st.runs| == |s.runs| && forall r :: r in st.runs ==> r.id in s.runs && s.runs[r.id] == r
  }

  /** The object in the state of the system's client, with everything a closure needs. */
  ghost predicate Tied(st: State, s: Sys) {
    Inv(s) && s.alive && ClientView(st, s) && st.services == s.services && SameRuns(st, s) && TableProper(s)
  }

  /** Steps of the client's own thread, with responses taken off connection k. */
  predicate OwnStep(k: nat, a: Action) { a == ClientTake(k) || a.Alloc? || a.Burn? || a.Register? || a.Send? }

  ghost predicate OwnSteps(k: nat, acts: seq<Action>) { forall a :: a in acts ==> OwnStep(k, a) }

  /** Connection k after some of its buffer was taken and, if it is the current one, x was sent. */
  ghost predicate Handled(s: Sys, s': Sys, k: nat, rest: bytes, x: bytes) {
    && |s'.conns| == |s.conns| && k < |s.conns|
    && forall j :: 0 <= j < |s.conns| ==>
         Carried(s.conns[j].(clientBuf := if j == k then rest else s.conns[j].clientBuf), s'.conns[j],
                 if j == |s.conns| - 1 then x else [])
  }

  lemma HandledNothing(s: Sys, k: nat)
    requires k < |s.conns|
    ensures Handled(s, s, k, s.conns[k].clientBuf, [])
  {
    forall c: Conn ensures Carried(c, c, []) { Unmoved(c); }
  }

  lemma HandledTwice(s: Sys, s1: Sys, s2: Sys, k: nat, rest1: bytes, x: bytes, rest2: bytes, y: bytes)
    requires Handled(s, s1, k, rest1, x) && Handled(s1, s2, k, rest2, y)
    ensures Handled(s, s2, k, rest2, x + y)
  {
    forall j | 0 <= j < |s.conns|
      ensures Carried(s.conns[j].(clientBuf := if j == k then rest2 else s.conns[j].clientBuf), s2.conns[j],
                      if j == |s.conns| - 1 then x + y else [])
    {
      var c := s.conns[j].toServer;
      if j == |s.conns| - 1 { Assoc(c, x, y); } else { assert c + [] == c; }
    }
  }

  /** The steps of calls among the client's own steps: which calls took an id, which ids were registered
      and sent, in order, and how many responses were taken. */
  datatype Tally = Tally(calls: seq<Call>, registered: seq<int>, sent: seq<int>, taken: nat) {
    function Plus(t: Tally): Tally {
      Tally(calls + t.calls, registered + t.registered, sent + t.sent, taken + t.taken)
    }
  }

  function TallyOf(acts: seq<Action>): Tally
    decreases |acts|
  {
    if acts == [] then Tally([], [], [], 0) else OneTally(acts[0]).Plus(TallyOf(acts[1..]))
  }

  function OneTally(a: Action): Tally {
    match a
    case Alloc(c) => Tally([c], [], [], 0)
    case Register(id) => Tally([], [id], [], 0)
    case Send(id) => Tally([], [], [id], 0)
    case ClientTake(_) => Tally([], [], [], 1)
    case _ => Tally([], [], [], 0)
  }

  lemma PlusPlus(a: Tally, b: Tally, c: Tally)
    ensures a.Plus(b).Plus(c) == a.Plus(b.Plus(c))
    ensures a.Plus(Tally([], [], [], 0)) == a && Tally([], [], [], 0).Plus(a) == a
  {}

  lemma {:induction false} TallyConcat(a: seq<Action>, b: seq<Action>)
    ensures TallyOf(a + b) == TallyOf(a).Plus(TallyOf(b))
    decreases |a|
  {
    hide OneTally, Tally.Plus;
    if a == [] {
      assert a + b == b;
      PlusPlus(TallyOf(b), TallyOf(b), TallyOf(b));
    } else {
      assert (a + b)[0] == a[0] && (a + b)[1..] == a[1..] + b;
      TallyConcat(a[1..], b);
      PlusPlus(OneTally(a[0]), TallyOf(a[1..]), TallyOf(b));
    }
  }

  lemma TallyOne(a: Action)
    ensures TallyOf([a]) == OneTally(a)
  {
    assert [a][1..] == [];
    PlusPlus(OneTally(a), OneTally(a), OneTally(a));
  }

  lemma TallyThree(a: Action, b: Action, c: Action)
    ensures TallyOf([a, b, c]) == OneTally(a).Plus(OneTally(b).Plus(OneTally(c)))
  {
    hide OneTally, Tally.Plus;
    assert [a, b, c] == [a] + ([b] + [c]);
    TallyConcat([a], [b] + [c]);
    TallyConcat([b], [c]);
    TallyOne(a);
    TallyOne(b);
    TallyOne(c);
  }

  /** n ids, the first one after this one. */
  function Ids(id: int, n: nat): seq<int> { seq(n, i => id + 1 + i) }

  /** In s' the calls have been made that were not in s: each has the next id, and went over the current
      connection if there was one; nothing else has changed about calls and their connections. */
  ghost predicate Placed(s: Sys, s': Sys, cs: seq<Call>) {
    && s'.id == s.id + |cs| && |s'.conns| == |s.conns|
    && (forall id :: s.id < id <= s.id + |cs| ==>
          && id in s'.issued && s'.issued[id] == cs[id - s.id - 1]
          && (s.conns != [] ==> id in s'.via && s'.via[id] == |s.conns| - 1))
    && (forall id :: id <= s.id || id > s.id + |cs| ==>
          && (id in s'.issued <==> id in s.issued) && (id in s.issued ==> s'.issued[id] == s.issued[id])
          && (id in s'.via <==> id in s.via) && (id in s.via ==> s'.via[id] == s.via[id]))
  }

  lemma PlacedTwice(s: Sys, m: Sys, t: Sys, a: seq<Call>, b: seq<Call>)
    requires Placed(s, m, a) && Placed(m, t, b)
    ensures Placed(s, t, a + b)
  {
    forall id | s.id < id <= s.id + |a + b|
      ensures id in t.issued && t.issued[id] == (a + b)[id - s.id - 1]
      ensures s.conns != [] ==> id in t.via && t.via[id] == |s.conns| - 1
    {
      if id <= m.id { assert (a + b)[id - s.id - 1] == a[id - s.id - 1]; }
    }
  }

  lemma PlacedNothing(s: Sys, s': Sys)
    requires s'.id == s.id && s'.issued == s.issued && s'.via == s.via && |s'.conns| == |s.conns|
    ensures Placed(s, s', [])
  {}

  /** The steps took so many responses; and if all these calls serialize, they made exactly these calls, in
      this order, each by taking an id, registering and sending, and handed exactly the frames of their
      headers to the connection, if it is live. */
  ghost predicate Made(s: Sys, live: bool, acts: seq<Action>, s': Sys, x: bytes, cs: seq<Call>, taken: nat) {
    && TallyOf(acts).taken == taken
    && (AllSend(s.id, cs) ==>
          && Placed(s, s', cs) && x == (if live then Frames(HeadersOf(s.id, cs)) else [])
          && TallyOf(acts) == Tally(cs, Ids(s.id, |cs|), Ids(s.id, |cs|), taken))
  }

  lemma MadeTwice(s: Sys, live: bool, acts1: seq<Action>, m: Sys, x: bytes, a: seq<Call>, n: nat,
                  acts2: seq<Action>, t: Sys, y: bytes, b: seq<Call>, k: nat)
    requires Made(s, live, acts1, m, x, a, n) && Made(m, live, acts2, t, y, b, k)
    ensures Made(s, live, acts1 + acts2, t, x + y, a + b, n + k)
  {
    hide AllSend, HeadersOf, Frames, Placed, TallyOf, Ids;
    TallyConcat(acts1, acts2);
    HeadersSplit(s.id, a, b);
    if AllSend(s.id, a + b) {
      PlacedIds(s, m, a);
      PlacedTwice(s, m, t, a, b);
      IdsSplit(s.id, |a|, |b|);
      if !live { assert x + y == []; }
    }
  }

  lemma IdsSplit(id: int, n: nat, k: nat)
    ensures Ids(id, n + k) == Ids(id, n) + Ids(id + n, k)
  {}

  lemma PlacedIds(s: Sys, s': Sys, cs: seq<Call>)
    requires Placed(s, s', cs)
    ensures s'.id == s.id + |cs|
  {}

  lemma MadeNothing(s: Sys, live: bool)
    ensures Made(s, live, [], s, [], [], 0)
  {
    hide AllSend, Placed, HeadersOf, Frames, Ids;
    PlacedNothing(s, s);
    NoHeaders(s.id);
  }

  lemma NoHeaders(id: int)
    ensures Frames(HeadersOf(id, [])) == [] && Ids(id, 0) == []
  {
    assert HeadersOf(id, []) == [];
  }

  lemma CallTally(c: Call, id: int)
    ensures TallyOf([Alloc(c), Register(id), Send(id)]) == Tally([c], [id], [id], 0)
  {
    TallyThree(Alloc(c), Register(id), Send(id));
  }

  lemma PlacedOne(s: Sys, c: Call, s': Sys)
    requires s'.id == s.id + 1 && s'.issued == s.issued[s.id + 1 := c] && |s'.conns| == |s.conns|
    requires s'.via == if s.conns == [] then s.via else s.via[s.id + 1 := |s.conns| - 1]
    ensures Placed(s, s', [c])
  {}

  lemma MadeOne(s: Sys, live: bool, c: Call, s': Sys)
    requires s'.id == s.id + 1 && s'.issued == s.issued[s.id + 1 := c] && |s'.conns| == |s.conns|
    requires s'.via == if s.conns == [] then s.via else s.via[s.id + 1 := |s.conns| - 1]
    ensures Made(s, live, [Alloc(c), Register(s.id + 1), Send(s.id + 1)], s',
                 if live then Frame(RequestHeader(s.id + 1, c)) else [], [c], 0)
  {
    hide AllSend, HeadersOf, Frames, Frame, RequestHeader, Placed, TallyOf;
    CallTally(c, s.id + 1);
    PlacedOne(s, c, s');
    OneFrame(s.id, c);
    assert Ids(s.id, 1) == [s.id + 1];
  }

  lemma BurnTally(acts: seq<Action>)
    requires acts == [] || acts == [Burn]
    ensures TallyOf(acts).taken == 0
  {
    TallyOne(Burn);
  }

  lemma NotAllSend(id: int, c: Call)
    requires !Sends(id + 1, c)
    ensures !AllSend(id, [c])
  {
    hide Sends;
    assert [c][0] == c && !Sends(id + 1 + 0, [c][0]);
  }

  /** A call that does not serialize is not made. */
  lemma MadeNone(s: Sys, live: bool, c: Call, acts: seq<Action>, s': Sys)
    requires !Sends(s.id + 1, c) && (acts == [] || acts == [Burn])
    ensures Made(s, live, acts, s', [], [c], 0)
  {
    hide Sends, AllSend, HeadersOf, Frames, Placed, Ids, TallyOf;
    BurnTally(acts);
    NotAllSend(s.id, c);
  }

  predicate Sending(st: State) { st.connected && !st.down }

  /** One call of a closure: three steps, one, or none. */
  lemma OneCall(s: Sys, c: Call, st: State, k: nat) returns (acts: seq<Action>, s': Sys, x: bytes)
    requires Tied(st, s) && ProperCall(s.services, c) && AfterCall(st, c).id < TWO63 && k < |s.conns|
    ensures RunsTo(s, acts, s') && OwnSteps(k, acts) && Tied(AfterCall(st, c), s')
    ensures AfterCall(st, c).sent == st.sent + x && Handled(s, s', k, s.conns[k].clientBuf, x)
    ensures Made(s, Sending(st), acts, s', x, [c], 0)
  {
    hide Inv, ProperCall, Next, Enabled, Serializable, RequestHeader, AfterCall, ClientView, Carried, Made;
    var id := s.id + 1;
    if Serializable(c.desc.input, c.request) && Serializable(HEADER, RequestHeader(id, c)) {
      CallCan(s, c, st);
      s' := CallMethodSteps(s, c, st);
      acts := [Alloc(c), Register(id), Send(id)];
      x := if st.connected && !st.down then Frame(RequestHeader(id, c)) else [];
      RunInv(s, acts, s');
      ViewTable(AfterCall(st, c), s');
      CallKeepsTable(s, c, st, s');
      AppendedHandled(s, s', k, x);
      MadeOne(s, Sending(st), c, s');
    } else {
      x := [];
      FailedCallIs(s, c, st);
      ViewTable(st, s);
      FailedCallSteps(s, c, st);
      HandledNothing(s, k);
      assert st.sent + [] == st.sent;
      if Serializable(c.desc.input, c.request) {
        acts, s' := [Burn], Next(s, Burn);
        assert [Burn][1..] == [] && RunsTo(s', [], s');
        StepInv(s, Burn);
        BurnIs(s);
      } else {
        acts, s' := [], s;
      }
      MadeNone(s, Sending(st), c, acts, s');
    }
  }

  lemma CallCan(s: Sys, c: Call, st: State)
    requires Tied(st, s) && ProperCall(s.services, c) && AfterCall(st, c).id < TWO63
    requires Serializable(c.desc.input, c.request) && Serializable(HEADER, RequestHeader(s.id + 1, c))
    ensures Enabled(s, Alloc(c))
  {
    hide Inv, WellFormed, Serialize, RequestHeader, SameProto, TakeFrame, SameRuns, TableProper, AllProper;
  }

  /** A registered call adds its own entry, whose closure makes proper calls. */
  lemma CallKeepsTable(s: Sys, c: Call, st: State, s': Sys)
    requires TableProper(s) && ClientView(st, s) && ProperCall(s.services, c) && s'.services == s.services
    requires Serializable(c.desc.input, c.request) && Serializable(HEADER, RequestHeader(s.id + 1, c))
    requires s'.table == AfterCall(st, c).table
    ensures TableProper(s') && AfterCall(st, c).services == st.services
  {
    hide WellFormed, Serialize, SameProto, RequestHeader, Frame;
    assert s'.table == s.table[s.id + 1 := OutstandingOf(c)];
    assert AllProper(s.services, c.done.next);
  }

  lemma AppendedHandled(s: Sys, s': Sys, k: nat, x: bytes)
    requires Appended(s, s', x) && k < |s.conns|
    ensures Handled(s, s', k, s.conns[k].clientBuf, x)
  {
    hide Carried;
    forall c: Conn ensures c.(clientBuf := c.clientBuf) == c {}
  }

  lemma FailedCallIs(s: Sys, c: Call, st: State)
    requires ClientView(st, s)
    requires !Serializable(c.desc.input, c.request) || !Serializable(HEADER, RequestHeader(s.id + 1, c))
    ensures AfterCall(st, c) == if Serializable(c.desc.input, c.request) then st.(id := st.id + 1) else st
  {
    hide Serializable, RequestHeader;
  }

  lemma BurnIs(s: Sys)
    requires Enabled(s, Burn)
    ensures Next(s, Burn) == s.(id := s.id + 1)
  {
    hide CallOk, TakeFrame, WellFormed, Requested, Responded, ServerHandles, TakeCall;
  }

  lemma {:induction false} IdsGrow(st: State, cs: seq<Call>)
    ensures st.id <= AfterCalls(st, cs).id
    decreases |cs|
  {
    hide Serializable, RequestHeader, Frame;
    if cs != [] { IdsGrow(AfterCall(st, cs[0]), cs[1..]); }
  }

  /** All calls of a closure, in order. */
  lemma {:induction false} CallsOf(s: Sys, cs: seq<Call>, st: State, k: nat)
    returns (acts: seq<Action>, s': Sys, x: bytes)
    requires Tied(st, s) && AllProper(s.services, cs) && AfterCalls(st, cs).id < TWO63 && k < |s.conns|
    ensures RunsTo(s, acts, s') && OwnSteps(k, acts) && Tied(AfterCalls(st, cs), s')
    ensures AfterCalls(st, cs).sent == st.sent + x && Handled(s, s', k, s.conns[k].clientBuf, x)
    ensures Made(s, Sending(st), acts, s', x, cs, 0)
    decreases |cs|
  {
    hide Inv, ProperCall, AfterCall, Next, Enabled, ClientView, Handled, OwnStep, SameRuns, TableProper, Made, Sending;
    if cs == [] {
      acts, s', x := [], s, [];
      HandledNothing(s, k);
      MadeNothing(s, Sending(st));
      assert st.sent + [] == st.sent;
    } else {
      assert cs[0] in cs && forall c :: c in cs[1..] ==> c in cs;
      IdsGrow(AfterCall(st, cs[0]), cs[1..]);
      var acts1, s1, x1 := OneCall(s, cs[0], st, k);
      SameServices(st, s, cs[0], s1);
      BufferIs(s, s1, k, s.conns[k].clientBuf, x1);
      var acts2, x2;
      acts2, s', x2 := CallsOf(s1, cs[1..], AfterCall(st, cs[0]), k);
      acts, x := acts1 + acts2, x1 + x2;
      RunConcat(s, acts1, s1, acts2, s');
      HandledTwice(s, s1, s', k, s.conns[k].clientBuf, x1, s.conns[k].clientBuf, x2);
      StillSending(st, cs[0]);
      assert cs == [cs[0]] + cs[1..];
      MadeTwice(s, Sending(st), acts1, s1, x1, [cs[0]], 0, acts2, s', x2, cs[1..], 0);
      Assoc(st.sent, x1, x2);
    }
  }

  lemma StillSending(st: State, c: Call)
    ensures Sending(AfterCall(st, c)) == Sending(st)
  {
    hide Serializable, RequestHeader, Frame;
  }

  lemma SameServices(st: State, s: Sys, c: Call, s1: Sys)
    requires Tied(st, s) && Tied(AfterCall(st, c), s1)
    ensures s1.services == s.services
  {
    hide Inv, Serializable, RequestHeader, Frame, SameRuns, TableProper, ClientView;
  }

  lemma BufferIs(s: Sys, s': Sys, k: nat, rest: bytes, x: bytes)
    requires Handled(s, s', k, rest, x)
    ensures |s'.conns| == |s.conns| && k < |s.conns| && s'.conns[k].clientBuf == rest
    ensures s'.conns[k].clientShut == s.conns[k].clientShut
  {}

  /** What taking a response does to the client, with the completed call named. */
  lemma Answered(s: Sys, k: nat) returns (run: Run)
    requires Inv(s) && s.alive && k < |s.conns| && TakeFrame(s.conns[k].clientBuf).Got?
    ensures Enabled(s, ClientTake(k))
    ensures run.id in s.table && run.id !in s.runs && run.done == s.table[run.id].done
    ensures var t := TakeFrame(s.conns[k].clientBuf); var s1 := Next(s, ClientTake(k));
            && run.id == KeyOf(t.header)
            && s1 == s.(conns := s.conns[k := s.conns[k].(clientBuf := t.rest)],
                        table := s.table - {run.id}, runs := s.runs[run.id := run])
  {
    hide TakeFrame, TakeCall, Inv, KeyOf, TypeOf, CallOk, WellFormed, ServerHandles, Requested, Responded;
    var id := Completes(s, k);
    run := TakeCall(s.table, TakeFrame(s.conns[k].clientBuf).header).value;
    TakenIs(s.table, TakeFrame(s.conns[k].clientBuf).header);
  }

  lemma TakenIs(table: map<int, Outstanding>, h: Header)
    requires TakeCall(table, h).Some?
    ensures var run := TakeCall(table, h).value; run.id in table && run.done == table[run.id].done
  {
    hide KeyOf, Parse;
  }

  lemma AnsweredTied(st: State, s: Sys, s1: Sys, k: nat, rest: bytes, run: Run)
    requires Tied(st, s) && Inv(s1) && k < |s.conns| && run.id in s.table && run.id !in s.runs
    requires s1 == s.(conns := s.conns[k := s.conns[k].(clientBuf := rest)],
                      table := s.table - {run.id}, runs := s.runs[run.id := run])
    ensures Tied(st.(table := s1.table, runs := st.runs + [run]), s1)
    ensures Handled(s, s1, k, rest, [])
  {
    hide Inv, AllProper;
    assert |s1.runs| == |s.runs| + 1;
    forall c: Conn ensures Carried(c, c, []) { Unmoved(c); }
  }

  lemma {:induction false} DownSame(st: State, cs: seq<Call>)
    ensures AfterCalls(st, cs).down == st.down && AfterCalls(st, cs).connected == st.connected
    decreases |cs|
  {
    hide Serializable, RequestHeader, Frame;
    if cs != [] { DownSame(AfterCall(st, cs[0]), cs[1..]); }
  }

  lemma {:induction false} DownSameOver(st: State, hs: seq<Header>)
    ensures AfterHeaders(st, hs).down == st.down && AfterHeaders(st, hs).connected == st.connected
    decreases |hs|
  {
    hide TakeCall, Dispatch, TypeOf, AfterCalls;
    if hs != [] {
      if TypeOf(hs[0]) == RESPONSE && TakeCall(st.table, hs[0]).Some? {
        var run := TakeCall(st.table, hs[0]).value;
        DownSame(st.(table := st.table - {run.id}, runs := st.runs + [run]), run.done.next);
      }
      DownSameOver(AfterHeader(st, hs[0]), hs[1..]);
    }
  }

  /** The calls that the closures of these runs make. */
  function NextOf(runs: seq<Run>): seq<Call>
    decreases |runs|
  {
    if runs == [] then [] else runs[0].done.next + NextOf(runs[1..])
  }

  lemma {:induction false} NextOfConcat(a: seq<Run>, b: seq<Run>)
    ensures NextOf(a + b) == NextOf(a) + NextOf(b)
    decreases |a|
  {
    if a == [] {
      assert a + b == b;
    } else {
      assert (a + b)[1..] == a[1..] + b;
      NextOfConcat(a[1..], b);
      Assoc(a[0].done.next, NextOf(a[1..]), NextOf(b));
    }
  }

  lemma NextOfOne(run: Run)
    ensures NextOf([run]) == run.done.next
  {
    assert [run][1..] == [] && run.done.next + [] == run.done.next;
  }

  /** From st to st' these closures ran and their calls were made by these steps. */
  ghost predicate AllMade(st: State, st': State, s: Sys, acts: seq<Action>, s': Sys, x: bytes) {
    && st.runs <= st'.runs
    && Made(s, Sending(st), acts, s', x, NextOf(st'.runs[|st.runs|..]), |st'.runs| - |st.runs|)
  }

  lemma AllMadeTwice(st: State, m: State, st': State, s: Sys, acts1: seq<Action>, s1: Sys, x: bytes,
                     acts2: seq<Action>, s': Sys, y: bytes)
    requires AllMade(st, m, s, acts1, s1, x) && AllMade(m, st', s1, acts2, s', y) && Sending(m) == Sending(st)
    ensures AllMade(st, st', s, acts1 + acts2, s', x + y)
  {
    hide Made, Sending;
    var a, b := m.runs[|st.runs|..], st'.runs[|m.runs|..];
    assert st'.runs[|st.runs|..] == a + b;
    NextOfConcat(a, b);
    MadeTwice(s, Sending(st), acts1, s1, x, NextOf(a), |a|, acts2, s', y, NextOf(b), |b|);
  }

  lemma TakeTally(k: nat)
    ensures TallyOf([ClientTake(k)]) == Tally([], [], [], 1)
  {
    TallyOne(ClientTake(k));
  }

  lemma TakeMade(s: Sys, live: bool, k: nat, s1: Sys)
    requires s1.id == s.id && s1.issued == s.issued && s1.via == s.via && |s1.conns| == |s.conns|
    ensures Made(s, live, [ClientTake(k)], s1, [], [], 1)
  {
    hide AllSend, Placed, HeadersOf, Frames, Ids, TallyOf, OneTally;
    TakeTally(k);
    PlacedNothing(s, s1);
    NoHeaders(s.id);
  }

  /** One response: it is taken, its closure runs, and the closure's calls are made. */
  lemma OneAnswer(s: Sys, k: nat, st: State) returns (acts: seq<Action>, s': Sys, x: bytes)
    requires Tied(st, s) && k < |s.conns| && TakeFrame(s.conns[k].clientBuf).Got?
    requires AfterHeader(st, TakeFrame(s.conns[k].clientBuf).header).id < TWO63
    ensures var t := TakeFrame(s.conns[k].clientBuf); var after := AfterHeader(st, t.header);
            && RunsTo(s, acts, s') && OwnSteps(k, acts) && Tied(after, s')
            && after.sent == st.sent + x && Handled(s, s', k, t.rest, x)
            && AllMade(st, after, s, acts, s', x) && Sending(after) == Sending(st)
  {
    hide Inv, TakeFrame, KeyOf, AfterHeader, Next, Enabled, ClientView, Handled, SameRuns, AllProper, Made;
    var run := Answered(s, k);
    var rest := TakeFrame(s.conns[k].clientBuf).rest;
    var s1 := Next(s, ClientTake(k));
    StepInv(s, ClientTake(k));
    ViewTable(st, s);
    CompletionSteps(s, k, st);
    AnsweredTied(st, s, s1, k, rest, run);
    var calls;
    calls, s', x := CallsOf(s1, run.done.next, st.(table := s1.table, runs := st.runs + [run]), k);
    acts := [ClientTake(k)] + calls;
    assert acts[1..] == calls;
    HandledTwice(s, s1, s', k, rest, [], rest, x);
    assert [] + x == x;
    TakeMade(s, Sending(st), k, s1);
    MadeTwice(s, Sending(st), [ClientTake(k)], s1, [], [], 1, calls, s', x, run.done.next, 0);
    AnswerRuns(st, s1.table, run);
    assert [] + run.done.next == run.done.next;
  }

  lemma AnswerRuns(st: State, table: map<int, Outstanding>, run: Run)
    ensures var st1 := st.(table := table, runs := st.runs + [run]); var after := AfterCalls(st1, run.done.next);
            && after.runs == st.runs + [run] && after.runs[|st.runs|..] == [run] && NextOf([run]) == run.done.next
            && Sending(after) == Sending(st)
  {
    var st1 := st.(table := table, runs := st.runs + [run]);
    AfterCallsRuns(st1, run.done.next);
    DownSame(st1, run.done.next);
    NextOfOne(run);
  }

  lemma ViewTable(st: State, s: Sys)
    requires ClientView(st, s)
    ensures st.table == s.table && st.id == s.id
  {}

  lemma {:induction false} IdsGrowOver(st: State, hs: seq<Header>)
    ensures st.id <= AfterHeaders(st, hs).id
    decreases |hs|
  {
    hide TakeCall, Dispatch, TypeOf, AfterCalls;
    if hs != [] {
      if TypeOf(hs[0]) == RESPONSE && TakeCall(st.table, hs[0]).Some? {
        var run := TakeCall(st.table, hs[0]).value;
        IdsGrow(st.(table := st.table - {run.id}, runs := st.runs + [run]), run.done.next);
      }
      IdsGrowOver(AfterHeader(st, hs[0]), hs[1..]);
    }
  }

  lemma ClientNeverUnparsed(s: Sys, k: nat)
    requires Inv(s) && s.alive && k < |s.conns|
    ensures !TakeFrame(s.conns[k].clientBuf).Unparsed?
  {
    hide Inv, TakeFrame, StreamsOk, ServerSideOk, OncePerCall, BlameOk, Pipe, Requests, Responses;
    ConnIs(s, k);
    var c := s.conns[k];
    if c.open {
      StreamParts(s, k, c);
      NeverUnparsed(c.clientBuf, c.toClient, Responses(c));
    } else {
      NothingTaken();
    }
  }

  /** Every response that the buffer holds. */
  lemma {:induction false} AllAnswers(s: Sys, k: nat, st: State) returns (acts: seq<Action>, s': Sys, x: bytes)
    requires Tied(st, s) && k < |s.conns|
    requires AfterHeaders(st, Framing.OnMessage(s.conns[k].clientBuf).headers).id < TWO63
    ensures var a := Framing.OnMessage(s.conns[k].clientBuf); var after := AfterHeaders(st, a.headers);
            && RunsTo(s, acts, s') && OwnSteps(k, acts) && Tied(after, s')
            && after.sent == st.sent + x && Handled(s, s', k, a.rest, x)
            && !a.outcome.GaveUp? && (a.outcome.Shutdown? <==> TakeFrame(a.rest).BadLength?)
            && AllMade(st, after, s, acts, s', x)
    decreases |s.conns[k].clientBuf|
  {
    hide Inv, TakeFrame, AfterHeader, Next, Enabled, ClientView, Handled, SameRuns, TableProper, OwnStep, AllMade,
         Sending;
    var buf := s.conns[k].clientBuf;
    var t := TakeFrame(buf);
    ClientNeverUnparsed(s, k);
    if t.Got? {
      var hs := Framing.OnMessage(t.rest).headers;
      assert Framing.OnMessage(buf).headers == [t.header] + hs && ([t.header] + hs)[1..] == hs;
      IdsGrowOver(AfterHeader(st, t.header), hs);
      var acts1, s1, x1 := OneAnswer(s, k, st);
      BufferIs(s, s1, k, t.rest, x1);
      var acts2, x2;
      acts2, s', x2 := AllAnswers(s1, k, AfterHeader(st, t.header));
      acts, x := acts1 + acts2, x1 + x2;
      RunConcat(s, acts1, s1, acts2, s');
      HandledTwice(s, s1, s', k, t.rest, x1, Framing.OnMessage(buf).rest, x2);
      AllMadeTwice(st, AfterHeader(st, t.header), AfterHeaders(AfterHeader(st, t.header), hs), s, acts1, s1, x1,
        acts2, s', x2);
      Assoc(st.sent, x1, x2);
    } else {
      acts, s', x := [], s, [];
      HandledNothing(s, k);
      NothingMade(st, s);
      assert st.sent + [] == st.sent;
    }
  }

  lemma NothingMade(st: State, s: Sys)
    ensures AllMade(st, st, s, [], s, [])
  {
    hide Made;
    MadeNothing(s, Sending(st));
    assert st.runs[|st.runs|..] == [];
  }

  lemma StopIs(s: Sys, k: nat)
    requires Enabled(s, ClientStop(k))
    ensures k < |s.conns| && Next(s, ClientStop(k)) == s.(conns := s.conns[k := s.conns[k].(clientShut := true)])
  {
    hide CallOk, TakeFrame, WellFormed, Requested, Responded, ServerHandles, TakeCall;
  }

  /** Shutting the connection down, if it is not down already. */
  lemma StopStep(s: Sys, k: nat, st: State) returns (acts: seq<Action>, s': Sys)
    requires Tied(st, s) && k < |s.conns| && TakeFrame(s.conns[k].clientBuf).BadLength?
    ensures RunsTo(s, acts, s') && (acts == [] || acts == [ClientStop(k)])
    ensures s' == s.(conns := s.conns[k := s.conns[k].(clientShut := true)])
    ensures Tied(st.(down := st.down || k == |s.conns| - 1), s')
  {
    hide Inv, TakeFrame, SameRuns, AllProper, Next, Enabled;
    if s.conns[k].clientShut {
      acts, s' := [], s;
      assert s.conns[k := s.conns[k].(clientShut := true)] == s.conns;
    } else {
      StopCan(s, k);
      acts, s' := [ClientStop(k)], Next(s, ClientStop(k));
      StepInv(s, ClientStop(k));
      StopIs(s, k);
      assert acts[1..] == [] && RunsTo(s', [], s');
      SeenSame(st, st.(down := st.down || k == |s.conns| - 1), s, s');
    }
  }

  lemma StopCan(s: Sys, k: nat)
    requires s.alive && k < |s.conns| && TakeFrame(s.conns[k].clientBuf).BadLength? && !s.conns[k].clientShut
    ensures Enabled(s, ClientStop(k))
  {
    hide TakeFrame;
  }

  lemma SeenSame(st: State, st': State, s: Sys, s': Sys)
    requires SameRuns(st, s) && st'.runs == st.runs && s'.runs == s.runs
    ensures SameRuns(st', s')
  {}

  /** One whole activation of the client's `onMessage` on connection k: whatever is in the buffer, and
      whatever calls the closures make, what it does to the channel object is a run of the system by the
      client's own steps, which ends with the same ids, table, completions and connection, the same bytes
      unread and the same bytes sent. One response is taken for each closure that ran; and if all calls of
      these closures serialize, exactly these calls have been made, in order, each by taking an id,
      registering and sending (see `Made`). */
  lemma ActivationSteps(s: Sys, k: nat, st: State) returns (acts: seq<Action>, s': Sys, x: bytes)
    requires Tied(st, s) && k < |s.conns|
    requires AfterHeaders(st, Framing.OnMessage(s.conns[k].clientBuf).headers).id < TWO63
    ensures RunsTo(s, acts, s') && forall a :: a in acts ==> OwnStep(k, a) || a == ClientStop(k)
    ensures var after := AfterActivation(st, s.conns[k].clientBuf, k == |s.conns| - 1);
            Tied(after, s') && after.sent == st.sent + x && AllMade(st, after, s, acts, s', x)
    ensures |s'.conns| == |s.conns| && s'.conns[k].clientBuf == Framing.OnMessage(s.conns[k].clientBuf).rest
    ensures forall j :: 0 <= j < |s.conns| ==>
              s'.conns[j].toServer == s.conns[j].toServer + if j == |s.conns| - 1 then x else []
  {
    hide Inv, TakeFrame, AfterHeaders, SameRuns, TableProper, ClientView, OwnStep, RunsTo, Framing.OnMessage, AllMade;
    var a := Framing.OnMessage(s.conns[k].clientBuf);
    var after := AfterHeaders(st, a.headers);
    DownSameOver(st, a.headers);
    acts, s', x := AllAnswers(s, k, st);
    BufferIs(s, s', k, a.rest, x);
    if a.outcome.Shutdown? {
      var stop, s2 := StopStep(s', k, after);
      RunConcat(s, acts, s', stop, s2);
      StopMakes(st, after, s, acts, s', x, k, stop, s2, after.(down := after.down || k == |s.conns| - 1));
      acts, s' := acts + stop, s2;
    } else {
      assert after.(down := after.down) == after;
    }
  }

  lemma StopMakes(st: State, after: State, s: Sys, acts: seq<Action>, s': Sys, x: bytes, k: nat,
                  stop: seq<Action>, s2: Sys, after': State)
    requires AllMade(st, after, s, acts, s', x) && after'.runs == after.runs && (stop == [] || stop == [ClientStop(k)])
    requires s2.id == s'.id && s2.issued == s'.issued && s2.via == s'.via && |s2.conns| == |s'.conns|
    ensures AllMade(st, after', s, acts + stop, s2, x)
  {
    hide AllSend, HeadersOf, Frames, Placed, Ids, NextOf, TallyOf, Tally.Plus, Sending;
    StopTally(acts, stop, k);
    PlacedStays(s, s', s2, NextOf(after.runs[|st.runs|..]));
  }

  lemma StopTally(acts: seq<Action>, stop: seq<Action>, k: nat)
    requires stop == [] || stop == [ClientStop(k)]
    ensures TallyOf(acts + stop) == TallyOf(acts)
  {
    TallyConcat(acts, stop);
    TallyOne(ClientStop(k));
    PlusPlus(TallyOf(acts), TallyOf(acts), TallyOf(acts));
  }

  lemma PlacedStays(s: Sys, s': Sys, s2: Sys, cs: seq<Call>)
    requires s2.id == s'.id && s2.issued == s'.issued && s2.via == s'.via && |s2.conns| == |s'.conns|
    ensures Placed(s, s', cs) ==> Placed(s, s2, cs)
  {}

  // ---------------------------------------------------------------- whole activations of a server

  /** A channel object at the server's end of connection k. */
  ghost predicate Serving(st: State, s: Sys, k: nat) {
    && Inv(s) && s.alive && k < |s.conns| && st.services == s.services
    && st.connected && st.down == (!s.conns[k].open || s.conns[k].serverShut)
  }

  predicate ServerStep(k: nat, a: Action) { a == ServerTake(k) || a == ServerStop(k) }

  ghost predicate BegunOne(c: Conn, c': Conn, n: (int, Handler)) {
    n.0 !in c.running && n.0 in c'.running && c'.running[n.0] == n.1
  }

  /** From c to c' exactly these service methods were started, each for a call that was not running. */
  ghost predicate Begun(c: Conn, c': Conn, begun: seq<(int, Handler)>) {
    && (forall n :: n in begun ==> BegunOne(c, c', n))
    && (forall id :: id in c.running ==> id in c'.running && c'.running[id] == c.running[id])
    && |c'.running| == |c.running| + |begun|
  }

  lemma OneBegun(c: Conn, m: Conn, c': Conn, n: (int, Handler))
    requires BegunOne(c, m, n) || BegunOne(m, c', n)
    requires forall id :: id in c.running ==> id in m.running && m.running[id] == c.running[id]
    requires forall id :: id in m.running ==> id in c'.running && c'.running[id] == m.running[id]
    ensures BegunOne(c, c', n)
  {
    var id := n.0;
    assert id in c.running ==> id in m.running;
    assert id in m.running ==> id in c'.running;
  }

  lemma BegunTwice(c: Conn, m: Conn, c': Conn, a: seq<(int, Handler)>, b: seq<(int, Handler)>)
    requires Begun(c, m, a) && Begun(m, c', b)
    ensures Begun(c, c', a + b)
  {
    forall n | n in a + b ensures BegunOne(c, c', n) {
      if n in a { assert BegunOne(c, m, n); } else { assert n in b && BegunOne(m, c', n); }
      OneBegun(c, m, c', n);
    }
  }

  /** What taking a request changes. */
  lemma ServerTakeIs(s: Sys, k: nat)
    requires s.alive && k < |s.conns| && TakeFrame(s.conns[k].serverBuf).Got?
    ensures Enabled(s, ServerTake(k))
    ensures var t := TakeFrame(s.conns[k].serverBuf);
            Next(s, ServerTake(k)) == s.(conns := s.conns[k := ServerHandles(s.services,
              s.conns[k].(serverBuf := t.rest), t.header)])
  {
    hide TakeFrame, CallOk, WellFormed, ServerHandles, TakeCall, Requested, Responded;
  }

  lemma HandlesIs(services: ServiceTable, c: Conn, rest: bytes, h: Header)
    ensures var c' := ServerHandles(services, c.(serverBuf := rest), h);
            && c' == c.(serverBuf := rest, running := c'.running, dropped := c'.dropped)
            && c'.running == if TypeOf(h) == REQUEST && Dispatch(services, h).Start?
                             then c.running[Dispatch(services, h).id := Dispatch(services, h).handler] else c.running
  {
    hide Dispatch, TypeOf;
  }

  /** One request. */
  lemma OneRequest(s: Sys, k: nat, st: State) returns (begun: seq<(int, Handler)>)
    requires Serving(st, s, k) && TakeFrame(s.conns[k].serverBuf).Got?
    ensures Enabled(s, ServerTake(k))
    ensures var t := TakeFrame(s.conns[k].serverBuf); var s1 := Next(s, ServerTake(k));
            && Serving(AfterHeader(st, t.header), s1, k) && |s1.conns| == |s.conns|
            && AfterHeader(st, t.header) == st.(started := st.started + begun)
            && s1.conns[k].serverBuf == t.rest && Begun(s.conns[k], s1.conns[k], begun)
  {
    hide Inv, TakeFrame, Dispatch, TypeOf, IdOf, ServerHandles, Next, Enabled;
    var t := TakeFrame(s.conns[k].serverBuf);
    var id := Starts(s, k);
    ServerTakeIs(s, k);
    HandlesIs(s.services, s.conns[k], t.rest, t.header);
    StepInv(s, ServerTake(k));
    var d := Dispatch(s.services, t.header);
    begun := if d.Start? then [(id, d.handler)] else [];
    assert st.started + [] == st.started;
  }

  lemma ServerNeverUnparsed(s: Sys, k: nat)
    requires Inv(s) && s.alive && k < |s.conns|
    ensures !TakeFrame(s.conns[k].serverBuf).Unparsed?
  {
    hide Inv, TakeFrame, StreamsOk, ServerSideOk, OncePerCall, BlameOk, Pipe, Requests, Responses;
    ConnIs(s, k);
    var c := s.conns[k];
    if c.open {
      StreamParts(s, k, c);
      NeverUnparsed(c.serverBuf, c.toServer, Requests(c));
    } else {
      NothingTaken();
    }
  }

  /** Every request that the buffer holds. */
  lemma {:induction false} AllRequests(s: Sys, k: nat, st: State)
    returns (acts: seq<Action>, s': Sys, begun: seq<(int, Handler)>)
    requires Serving(st, s, k)
    ensures var a := Framing.OnMessage(s.conns[k].serverBuf); var after := AfterHeaders(st, a.headers);
            && RunsTo(s, acts, s') && (forall b :: b in acts ==> b == ServerTake(k)) && |acts| == |a.headers|
            && Serving(after, s', k) && after == st.(started := st.started + begun)
            && |s'.conns| == |s.conns| && s'.conns[k].serverBuf == a.rest && Begun(s.conns[k], s'.conns[k], begun)
            && !a.outcome.GaveUp? && (a.outcome.Shutdown? <==> TakeFrame(a.rest).BadLength?)
    decreases |s.conns[k].serverBuf|
  {
    hide Inv, TakeFrame, AfterHeader, Next, Enabled, Begun;
    var buf := s.conns[k].serverBuf;
    var t := TakeFrame(buf);
    ServerNeverUnparsed(s, k);
    if t.Got? {
      var hs := Framing.OnMessage(t.rest).headers;
      assert Framing.OnMessage(buf).headers == [t.header] + hs && ([t.header] + hs)[1..] == hs;
      var first := OneRequest(s, k, st);
      var s1 := Next(s, ServerTake(k));
      var rest, more;
      rest, s', more := AllRequests(s1, k, AfterHeader(st, t.header));
      acts, begun := [ServerTake(k)] + rest, first + more;
      assert acts[1..] == rest;
      BegunTwice(s.conns[k], s1.conns[k], s'.conns[k], first, more);
      Assoc(st.started, first, more);
    } else {
      acts, s', begun := [], s, [];
      assert st.started + [] == st.started;
      NoneBegun(s.conns[k]);
    }
  }

  lemma NoneBegun(c: Conn)
    ensures Begun(c, c, [])
  {}

  lemma ServerStopIs(s: Sys, k: nat)
    requires s.alive && k < |s.conns| && TakeFrame(s.conns[k].serverBuf).BadLength? && !s.conns[k].serverShut
    ensures Enabled(s, ServerStop(k))
    ensures Next(s, ServerStop(k)) == s.(conns := s.conns[k := s.conns[k].(serverShut := true)])
  {
    hide CallOk, TakeFrame, WellFormed, Requested, Responded, ServerHandles, TakeCall;
  }

  /** Shutting the server's side down, if it is not down already. */
  lemma ServerStops(s: Sys, k: nat, st: State) returns (acts: seq<Action>, s': Sys)
    requires Serving(st, s, k) && TakeFrame(s.conns[k].serverBuf).BadLength?
    ensures RunsTo(s, acts, s') && (acts == [] || acts == [ServerStop(k)])
    ensures s' == s.(conns := s.conns[k := s.conns[k].(serverShut := true)]) && Serving(st.(down := true), s', k)
  {
    hide Inv, TakeFrame, Next, Enabled;
    if s.conns[k].serverShut {
      acts, s' := [], s;
      assert s.conns[k := s.conns[k].(serverShut := true)] == s.conns;
    } else {
      ServerStopIs(s, k);
      acts, s' := [ServerStop(k)], Next(s, ServerStop(k));
      StepInv(s, ServerStop(k));
      assert acts[1..] == [] && RunsTo(s', [], s');
    }
  }

  /** One whole activation of a server's `onMessage` on connection k is a run of the system by the server's
      own steps: the same service methods are started, for the same calls on the same messages and no
      others, the same bytes stay unread, and the connection is shut down at an invalid length. */
  lemma ServerActivationSteps(s: Sys, k: nat, st: State)
    returns (acts: seq<Action>, s': Sys, begun: seq<(int, Handler)>)
    requires Serving(st, s, k)
    ensures RunsTo(s, acts, s') && forall a :: a in acts ==> ServerStep(k, a)
    ensures var buf := s.conns[k].serverBuf; var after := AfterActivation(st, buf, true);
            && Serving(after, s', k) && after.started == st.started + begun
            && |s'.conns| == |s.conns| && s'.conns[k].serverBuf == Framing.OnMessage(buf).rest
            && Begun(s.conns[k], s'.conns[k], begun)
  {
    hide Inv, TakeFrame, AfterHeaders, Begun, RunsTo, Framing.OnMessage;
    var a := Framing.OnMessage(s.conns[k].serverBuf);
    acts, s', begun := AllRequests(s, k, st);
    if a.outcome.Shutdown? {
      var stop, s2 := ServerStops(s', k, AfterHeaders(st, a.headers));
      RunConcat(s, acts, s', stop, s2);
      BegunStays(s.conns[k], s'.conns[k], s2.conns[k], begun);
      acts, s' := acts + stop, s2;
    } else {
      assert AfterHeaders(st, a.headers).(down := st.down) == AfterHeaders(st, a.headers);
    }
  }

  lemma BegunStays(c: Conn, m: Conn, c': Conn, begun: seq<(int, Handler)>)
    requires Begun(c, m, begun) && c'.running == m.running
    ensures Begun(c, c', begun)
  {}
}
