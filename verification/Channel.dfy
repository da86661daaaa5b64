/** `RPCChannel` (src/RPCChannel.cc, src/include/RPCChannel.h): the functions say what each handler
    does to the channel's state, the class does it step by step. Module RpcSystem runs the same
    functions against a network and a server. */
module Channel {
  import opened Wire
  import opened Messages
  import opened Framing

  const REQUEST := 0
  const RESPONSE := 1
  const TWO63: int := 0x8000_0000_0000_0000

  datatype MethodDesc = MethodDesc(service: bytes, name: bytes, input: Schema, output: Schema)

  /** A call as the stub makes it, with the closure to run on its response. */
  datatype Call = Call(desc: MethodDesc, request: Message, done: Closure)

  /** A `done` closure: which one it is, and the calls it makes when it runs. */
  datatype Closure = Closure(tag: nat, next: seq<Call>)

  /** `OutstandingCall`: the response object is known by the type it was allocated with. */
  datatype Outstanding = Outstanding(desc: MethodDesc, done: Closure)

  /** One run of a `done` closure. The response object holds the parsed payload, or is left
      unspecified when the payload did not parse. */
  datatype Run = Run(id: int, done: Closure, response: Option<Message>)

  /** A service method that was started and has not run its `done` yet. */
  datatype Handler = Handler(desc: MethodDesc, request: Message)

  type ServiceTable = map<bytes, map<bytes, MethodDesc>>

  function OutstandingOf(c: Call): Outstanding { Outstanding(c.desc, c.done) }

  function HandlerOf(c: Call): Handler { Handler(c.desc, c.request) }

  // ---------------------------------------------------------------- headers

  function RequestHeader(id: int, c: Call): Header {
    Message([Num(REQUEST), Num(id), Str(c.desc.service), Str(c.desc.name),
                     Str(Serialize(c.desc.input, c.request))], [])
  }

  function ResponseHeader(id: int, payload: bytes): Header {
    Message([Num(RESPONSE), Num(id), Str([]), Str([]), Str(payload)], [])
  }

  function NumAt(h: Header, i: nat): int {
    if i < |h.fields| && h.fields[i].Num? then h.fields[i].n else 0
  }

  function StrAt(h: Header, i: nat): bytes {
    if i < |h.fields| && h.fields[i].Str? then h.fields[i].s else []
  }

  function TypeOf(h: Header): int { NumAt(h, 0) }
  function IdOf(h: Header): int { NumAt(h, 1) }
  function PayloadOf(h: Header): bytes { StrAt(h, 4) }

  /** The table is keyed by int64_t, the header carries a uint64_t. */
  function KeyOf(h: Header): int {
    if IdOf(h) < TWO63 then IdOf(h) else IdOf(h) - TWO64
  }

  // ---------------------------------------------------------------- server side

  datatype Dispatched =
    | NoService
    | NoMethod
    | BadPayload
    | Start(id: int, handler: Handler)

  function Dispatch(services: ServiceTable, h: Header): Dispatched {
    var svc, mth := StrAt(h, 2), StrAt(h, 3);
    if svc !in services then NoService
    else if mth !in services[svc] then NoMethod
    else
      var m := services[svc][mth];
      match Parse(m.input, PayloadOf(h))
      case None => BadPayload
      case Some(req) => Start(IdOf(h), Handler(m, req))
  }

  predicate Registered(services: ServiceTable, m: MethodDesc) {
    m.service in services && m.name in services[m.service]
  }

  /** Client and server are built from the same .proto: a registered name means the same method. */
  predicate SameProto(services: ServiceTable, m: MethodDesc) {
    Registered(services, m) ==> services[m.service][m.name] == m
  }

  /** The server starts exactly the method the caller named, on exactly the caller's request
      message; it drops the request if and only if the method is not registered. */
  lemma DispatchRequest(services: ServiceTable, id: int, c: Call)
    requires WellFormed(c.desc.input, c.request) && Serializable(c.desc.input, c.request)
    requires SameProto(services, c.desc)
    ensures Dispatch(services, RequestHeader(id, c))
         == if Registered(services, c.desc) then Start(id, HandlerOf(c))
            else if c.desc.service in services then NoMethod
            else NoService
  {
    RoundTrip(c.desc.input, c.request);
  }

  // ---------------------------------------------------------------- client side

  /** The table entry a RESPONSE header completes, with the response object it leaves behind. */
  function TakeCall(table: map<int, Outstanding>, h: Header): Option<Run> {
    if KeyOf(h) in table then
      var o := table[KeyOf(h)];
      Some(Run(KeyOf(h), o.done, Parse(o.desc.output, PayloadOf(h))))
    else None
  }

  // ---------------------------------------------------------------- the channel object

  /** A channel's state and what it did to its surroundings. */
  datatype State = State(
    connected: bool,
    down: bool,                            // the connection has stopped sending
    id: int,
    table: map<int, Outstanding>,
    services: ServiceTable,
    sent: bytes,
    runs: seq<Run>,
    started: seq<(int, Handler)>)

  function AfterCall(st: State, c: Call): State {
    var id := st.id + 1;
    if !Serializable(c.desc.input, c.request) then st
    else if !Serializable(HEADER, RequestHeader(id, c)) then st.(id := id)
    else
      var st' := st.(id := id, table := st.table[id := OutstandingOf(c)]);
      Handed(st', RequestHeader(id, c))
  }

  /** `conn_->send`: bytes handed to a connection that has shut down vanish. */
  function Handed(st: State, h: Header): State {
    if st.connected && !st.down then st.(sent := st.sent + Frame(h)) else st
  }

  function AfterCalls(st: State, cs: seq<Call>): State
    decreases |cs|
  {
    if cs == [] then st else AfterCalls(AfterCall(st, cs[0]), cs[1..])
  }

  /** All these calls serialize, the first one under the id after this one. */
  ghost predicate AllSend(id: int, cs: seq<Call>) { forall i :: 0 <= i < |cs| ==> Sends(id + 1 + i, cs[i]) }

  /** The call and its header under this id serialize. */
  predicate Sends(id: int, c: Call) {
    Serializable(c.desc.input, c.request) && Serializable(HEADER, RequestHeader(id, c))
  }

  /** The headers of calls made one after the other. */
  function HeadersOf(id: int, cs: seq<Call>): seq<Header> {
    seq(|cs|, i requires 0 <= i < |cs| => RequestHeader(id + 1 + i, cs[i]))
  }

  /** What calls made one after the other do: each takes the next id and is in the table under it, all
      other entries are as they were, and if there is a connection that still sends, the frames of their
      headers have been handed to it in that order. */
  ghost predicate CallsMade(st: State, st': State, cs: seq<Call>) {
    && st'.id == st.id + |cs|
    && (forall k :: st.id < k <= st.id + |cs| ==>
          k in st'.table && st'.table[k] == OutstandingOf(cs[k - st.id - 1]))
    && (forall k :: k <= st.id || k > st.id + |cs| ==>
          (k in st'.table <==> k in st.table) && (k in st.table ==> st'.table[k] == st.table[k]))
    && st'.sent == (if st.connected && !st.down then st.sent + Frames(HeadersOf(st.id, cs)) else st.sent)
    && st'.connected == st.connected && st'.down == st.down && st'.started == st.started
  }

  lemma HeadersSplit(id: int, a: seq<Call>, b: seq<Call>)
    ensures Frames(HeadersOf(id, a + b)) == Frames(HeadersOf(id, a)) + Frames(HeadersOf(id + |a|, b))
    ensures AllSend(id, a + b) <==> AllSend(id, a) && AllSend(id + |a|, b)
  {
    hide Sends, RequestHeader, Frames;
    FramesConcat(HeadersOf(id, a), HeadersOf(id + |a|, b));
    assert HeadersOf(id, a + b) == HeadersOf(id, a) + HeadersOf(id + |a|, b);
    SendSplit(id, a, b);
  }

  lemma SendSplit(id: int, a: seq<Call>, b: seq<Call>)
    ensures AllSend(id, a + b) <==> AllSend(id, a) && AllSend(id + |a|, b)
  {
    hide Sends;
    if AllSend(id, a + b) {
      forall i | 0 <= i < |a| ensures Sends(id + 1 + i, a[i]) { assert (a + b)[i] == a[i]; }
      forall i | 0 <= i < |b| ensures Sends(id + |a| + 1 + i, b[i]) {
        assert (a + b)[|a| + i] == b[i] && Sends(id + 1 + (|a| + i), (a + b)[|a| + i]);
      }
    }
    if AllSend(id, a) && AllSend(id + |a|, b) {
      forall i | 0 <= i < |a + b| ensures Sends(id + 1 + i, (a + b)[i]) {
        if i < |a| { assert Sends(id + 1 + i, a[i]); } else { assert Sends(id + |a| + 1 + (i - |a|), b[i - |a|]); }
      }
    }
  }

  lemma OneFrame(id: int, c: Call)
    ensures Frames(HeadersOf(id, [c])) == Frame(RequestHeader(id + 1, c))
  {
    hide RequestHeader, Frame;
    assert HeadersOf(id, [c]) == [RequestHeader(id + 1, c)];
    assert [RequestHeader(id + 1, c)][1..] == [];
    assert Frame(RequestHeader(id + 1, c)) + [] == Frame(RequestHeader(id + 1, c));
  }

  /** A single call is as the class `RPCChannel` makes it. */
  lemma OneCallMade(st: State, c: Call)
    requires AllSend(st.id, [c])
    ensures CallsMade(st, AfterCall(st, c), [c])
  {
    hide Serializable, RequestHeader, Frame, OutstandingOf, HeadersOf;
    assert [c][0] == c && Sends(st.id + 1 + 0, [c][0]);
    OneFrame(st.id, c);
  }

  lemma CallsMadeTwice(st: State, m: State, t: State, a: seq<Call>, b: seq<Call>)
    requires CallsMade(st, m, a) && CallsMade(m, t, b)
    ensures CallsMade(st, t, a + b)
  {
    hide OutstandingOf, HeadersOf, Frames, AllSend;
    HeadersSplit(st.id, a, b);
    Assoc(st.sent, Frames(HeadersOf(st.id, a)), Frames(HeadersOf(st.id + |a|, b)));
    forall k | st.id < k <= st.id + |a + b|
      ensures k in t.table && t.table[k] == OutstandingOf((a + b)[k - st.id - 1])
    {
      if k <= m.id { assert k in m.table && (a + b)[k - st.id - 1] == a[k - st.id - 1]; }
    }
  }

  lemma CallsMadeFrom(st: State, st': State, runs: seq<Run>, cs: seq<Call>)
    requires CallsMade(st.(runs := runs), st', cs)
    ensures CallsMade(st, st', cs)
  {
    hide OutstandingOf, HeadersOf, Frames;
  }

  /** A closure's calls are all made, one after the other. */
  lemma {:induction false} AfterCallsMeans(st: State, cs: seq<Call>)
    requires AllSend(st.id, cs)
    ensures CallsMade(st, AfterCalls(st, cs), cs)
    decreases |cs|
  {
    hide CallsMade, AllSend, AfterCall, HeadersOf, Frames;
    if cs == [] {
      NoCallMade(st);
    } else {
      assert cs == [cs[0]] + cs[1..];
      HeadersSplit(st.id, [cs[0]], cs[1..]);
      OneCallMade(st, cs[0]);
      MadeId(st, AfterCall(st, cs[0]), [cs[0]]);
      AfterCallsMeans(AfterCall(st, cs[0]), cs[1..]);
      CallsMadeTwice(st, AfterCall(st, cs[0]), AfterCalls(st, cs), [cs[0]], cs[1..]);
    }
  }

  lemma MadeId(st: State, st': State, cs: seq<Call>)
    requires CallsMade(st, st', cs)
    ensures st'.id == st.id + |cs|
  {}

  lemma NoCallMade(st: State)
    ensures CallsMade(st, st, [])
  {
    assert HeadersOf(st.id, []) == [] && st.sent + [] == st.sent;
  }

  lemma {:induction false} AfterCallsRuns(st: State, cs: seq<Call>)
    ensures AfterCalls(st, cs).runs == st.runs
    decreases |cs|
  {
    hide Serializable, RequestHeader, Frame;
    if cs != [] { AfterCallsRuns(AfterCall(st, cs[0]), cs[1..]); }
  }

  function AfterHeader(st: State, h: Header): State {
    if TypeOf(h) == RESPONSE then
      match TakeCall(st.table, h)
      case None => st
      case Some(run) =>
        AfterCalls(st.(table := st.table - {run.id}, runs := st.runs + [run]), run.done.next)
    else if TypeOf(h) == REQUEST then
      match Dispatch(st.services, h)
      case Start(id, handler) => st.(started := st.started + [(id, handler)])
      case _ => st
    else st
  }

  function AfterHeaders(st: State, hs: seq<Header>): State
    decreases |hs|
  {
    if hs == [] then st else AfterHeaders(AfterHeader(st, hs[0]), hs[1..])
  }

  /** The state after an activation of `onMessage` on a connection, which may be the current one: the
      headers are handled, and if an invalid length was met that connection is shut down. */
  function AfterActivation(st: State, buf: bytes, current: bool): State {
    var a := Framing.OnMessage(buf);
    AfterHeaders(st, a.headers).(down := st.down || (current && a.outcome.Shutdown?))
  }

  function AfterDone(st: State, id: int, output: Schema, rsp: Message): State {
    if !Serializable(output, rsp) then st
    else
      var h := ResponseHeader(id, Serialize(output, rsp));
      if !Serializable(HEADER, h) then st else Handed(st, h)
  }

  /** Headers that change nothing: an answer to no call in the table, a request that names no method of
      this server or whose payload does not parse, and any other type. */
  predicate Ignored(table: map<int, Outstanding>, services: ServiceTable, h: Header) {
    if TypeOf(h) == 1 then KeyOf(h) !in table
    else if TypeOf(h) == 0 then
      || StrAt(h, 2) !in services || StrAt(h, 3) !in services[StrAt(h, 2)]
      || Parse(services[StrAt(h, 2)][StrAt(h, 3)].input, PayloadOf(h)).None?
    else true
  }

  /** The unread side of muduo's Buffer. */
  class Buffer {
    var unread: bytes

    constructor ()
      ensures unread == []
    {
      unread := [];
    }

    method PeekInt32() returns (v: nat)
      requires |unread| >= LEN_FIELD
      ensures v == FromBigEndian(unread[..LEN_FIELD])
    {
      v := FromBigEndian(unread[..LEN_FIELD]);
    }

    method Retrieve(n: nat) returns (s: bytes)
      requires n <= |unread|
      modifies this
      ensures s == old(unread)[..n] && unread == old(unread)[n..]
    {
      s := unread[..n];
      unread := unread[n..];
    }

    /** Drops the length field, then takes what the frame holds behind it. */
    method RetrieveBody(msgLen: nat) returns (raw: bytes)
      requires LEN_FIELD <= msgLen <= |unread|
      modifies this
      ensures raw == old(unread)[LEN_FIELD..msgLen] && unread == old(unread)[msgLen..]
    {
      var _ := Retrieve(LEN_FIELD);
      raw := Retrieve(msgLen - LEN_FIELD);
    }

    /** The first half of a turn of the receiving loop: look at the length, and if a whole frame of a
        valid length is there, take it off and parse its header. */
    method NextFrame() returns (t: Taken)
      requires |unread| >= LEN_FIELD
      modifies this
      ensures t == TakeFrame(old(unread))
      ensures unread == if t.Got? || t.Unparsed? then t.rest else old(unread)
    {
      var msgLen := PeekInt32();
      if msgLen < LEN_FIELD || msgLen > MAX_FRAME { return BadLength; }
      if |unread| < msgLen { return NeedMore; }
      var raw := RetrieveBody(msgLen);
      var message := Parse(HEADER, raw);
      if message.None? { return Unparsed(unread); }
      return Got(message.value, unread);
    }
  }

  /** muduo's TcpConnection: `send` appends to the outgoing byte stream, until it is shut down. */
  class Connection {
    var sent: bytes
    var down: bool

    constructor ()
      ensures sent == [] && !down
    {
      sent, down := [], false;
    }
  }

  class RPCChannel {
    var conn: Connection?
    var id: int
    var outstandings: map<int, Outstanding>
    var services: ServiceTable
    var runs: seq<Run>
    var started: seq<(int, Handler)>

    constructor (services: ServiceTable)
      ensures conn == null && id == 0 && outstandings == map[] && runs == [] && started == []
      ensures this.services == services
    {
      conn, id, outstandings, this.services, runs, started := null, 0, map[], services, [], [];
    }

    ghost function View(): State
      reads this, conn
    {
      State(conn != null, conn != null && conn.down, id, outstandings, services,
            if conn == null then [] else conn.sent, runs, started)
    }

    method SetConnection(c: Connection)
      modifies `conn
      ensures conn == c && View() == old(View()).(connected := true, down := c.down, sent := c.sent)
    {
      conn := c;
    }

    /** The length prefix and the header, appended to the stream in one piece. */
    method Send(header: Header)
      requires conn != null && Serializable(HEADER, header)
      modifies conn
      ensures conn.sent == (if conn.down then old(conn.sent) else old(conn.sent) + Frame(header))
      ensures conn.down == old(conn.down)
    {
      var raw := Serialize(HEADER, header);
      var sendBuf: bytes := BigEndian((|raw| + LEN_FIELD) % TWO32);
      sendBuf := sendBuf + raw;
      if !conn.down { conn.sent := conn.sent + sendBuf; }
    }

    /** Serialize the request, take an id, build the header, register the call, send the frame. */
    method CallMethod(c: Call) returns (failed: bool)
      modifies this, conn
      ensures conn == old(conn) && (conn != null ==> conn.down == old(conn.down))
      ensures View() == AfterCall(old(View()), c)
      ensures failed <==> !Serializable(c.desc.input, c.request) || !Serializable(HEADER, RequestHeader(old(id) + 1, c))
                          || conn == null
      ensures !failed ==> id == old(id) + 1 && id in outstandings
    {
      hide Serializable, RequestHeader, OutstandingOf, Frame;
      if !Serializable(c.desc.input, c.request) { return true; }
      id := id + 1;
      var header := RequestHeader(id, c);
      if !Serializable(HEADER, header) { return true; }
      outstandings := outstandings[id := OutstandingOf(c)];
      if conn == null { return true; }
      Send(header);
      return false;
    }

    /** `done->Run()`: the closure records its response and may re-enter `CallMethod`. */
    method RunDone(run: Run)
      modifies this, conn
      ensures conn == old(conn) && (conn != null ==> conn.down == old(conn.down))
      ensures View() == AfterCalls(old(View()).(runs := old(runs) + [run]), run.done.next)
      ensures runs == old(runs) + [run]
      ensures AllSend(old(id), run.done.next) ==> CallsMade(old(View()), View(), run.done.next)
    {
      hide AllSend, CallsMade, AfterCall;
      runs := runs + [run];
      ghost var start := View();
      AfterCallsRuns(start, run.done.next);
      if AllSend(id, run.done.next) {
        AfterCallsMeans(start, run.done.next);
        CallsMadeFrom(old(View()), AfterCalls(start, run.done.next), runs, run.done.next);
      }
      var i := 0;
      while i < |run.done.next|
        invariant 0 <= i <= |run.done.next|
        invariant conn == old(conn) && (conn != null ==> conn.down == old(conn.down))
        invariant AfterCalls(View(), run.done.next[i..]) == AfterCalls(start, run.done.next)
      {
        assert run.done.next[i..][1..] == run.done.next[i + 1..];
        var _ := CallMethod(run.done.next[i]);
        i := i + 1;
      }
    }

    method OnRPCMessage(h: Header)
      modifies this, conn
      ensures conn == old(conn) && (conn != null ==> conn.down == old(conn.down))
      ensures View() == AfterHeader(old(View()), h)
      ensures TypeOf(h) == 1 && KeyOf(h) in old(outstandings) ==>
                var o := old(outstandings)[KeyOf(h)];
                && runs == old(runs) + [Run(KeyOf(h), o.done, Parse(o.desc.output, PayloadOf(h)))]
                && (AllSend(old(id), o.done.next) ==>
                      CallsMade(old(View()).(table := old(outstandings) - {KeyOf(h)}), View(), o.done.next))
      ensures TypeOf(h) == 0 && StrAt(h, 2) in services && StrAt(h, 3) in services[StrAt(h, 2)] ==>
                var m := services[StrAt(h, 2)][StrAt(h, 3)];
                var req := Parse(m.input, PayloadOf(h));
                req.Some? ==> View() == old(View()).(started := old(started) + [(IdOf(h), Handler(m, req.value))])
      ensures Ignored(old(outstandings), services, h) ==> View() == old(View())
    {
      hide AllSend, CallsMade, AfterCalls;
      if TypeOf(h) == RESPONSE {
        var key := KeyOf(h);
        if key !in outstandings { return; }
        var call := outstandings[key];
        outstandings := outstandings - {key};
        RunDone(Run(key, call.done, Parse(call.desc.output, PayloadOf(h))));
      } else if TypeOf(h) == REQUEST {
        var svcName, mthdName := StrAt(h, 2), StrAt(h, 3);
        if svcName !in services { return; }
        if mthdName !in services[svcName] { return; }
        var md := services[svcName][mthdName];
        var req := Parse(md.input, PayloadOf(h));
        if req.None? { return; }
        started := started + [(IdOf(h), Handler(md, req.value))];
      }
    }

    /** Frames are taken off the buffer while a whole one is there; the headers are handled as they
        come out. `on` is the connection the bytes arrived on. */
    method OnMessage(on: Connection, buf: Buffer)
      modifies this, conn, on, buf
      ensures conn == old(conn)
      ensures buf.unread == Framing.OnMessage(old(buf.unread)).rest
      ensures View() == AfterActivation(old(View()), old(buf.unread), conn == on)
      ensures on.down == (old(on.down) || Framing.OnMessage(old(buf.unread)).outcome.Shutdown?)
      ensures conn != null && conn != on ==> conn.down == old(conn.down)
    {
      hide TakeFrame, AfterHeader;
      ghost var start, first := View(), buf.unread;
      ghost var handled: seq<Header> := [];
      Begin(first);
      while |buf.unread| >= LEN_FIELD
        invariant conn == old(conn) && on.down == old(on.down) && (conn != null ==> conn.down == old(conn.down))
        invariant Framing.OnMessage(first) == Framing.OnMessage(buf.unread).Behind(handled)
        invariant View() == AfterHeaders(start, handled)
        decreases |buf.unread|
      {
        ghost var before := buf.unread;
        var t := buf.NextFrame();
        if !t.Got? {
          End(handled, before);
          if t.BadLength? { on.down := true; }
          return;
        }
        handled := TakeOne(start, handled, before, t.header, buf.unread);
        OnRPCMessage(t.header);
      }
      TooShort(buf.unread);
      End(handled, buf.unread);
    }

    /** The server's closure for a finished service method. */
    method DoneCallback(rid: int, output: Schema, rsp: Message)
      requires conn != null
      modifies conn
      ensures View() == AfterDone(old(View()), rid, output, rsp) && conn.down == old(conn.down)
    {
      if !Serializable(output, rsp) { return; }
      var respHdr := ResponseHeader(rid, Serialize(output, rsp));
      if !Serializable(HEADER, respHdr) { return; }
      Send(respHdr);
    }
  }

  lemma Begin(unread: bytes)
    ensures Framing.OnMessage(unread) == Framing.OnMessage(unread).Behind([])
  {
    assert [] + Framing.OnMessage(unread).headers == Framing.OnMessage(unread).headers;
  }

  /** One turn of the loop, seen from what is left to do. */
  lemma TakeOne(start: State, handled: seq<Header>, before: bytes, h: Header, rest: bytes)
    returns (handled': seq<Header>)
    requires TakeFrame(before) == Got(h, rest)
    ensures Framing.OnMessage(before).Behind(handled) == Framing.OnMessage(rest).Behind(handled')
    ensures AfterHeaders(start, handled') == AfterHeader(AfterHeaders(start, handled), h)
  {
    handled' := handled + [h];
    Assoc(handled, [h], Framing.OnMessage(rest).headers);
    AfterHeadersSnoc(start, handled, h);
  }

  lemma TooShort(unread: bytes)
    requires |unread| < LEN_FIELD
    ensures TakeFrame(unread).NeedMore?
  {}

  lemma End(handled: seq<Header>, unread: bytes)
    requires !TakeFrame(unread).Got?
    ensures Framing.OnMessage(unread).Behind(handled).headers == handled
    ensures var a := Framing.OnMessage(unread);
            && (a.outcome.Shutdown? <==> TakeFrame(unread).BadLength?)
            && a.rest == if TakeFrame(unread).Unparsed? then TakeFrame(unread).rest else unread
  {
    hide TakeFrame;
    assert handled + [] == handled;
  }

  lemma {:induction false} AfterHeadersSnoc(st: State, hs: seq<Header>, h: Header)
    ensures AfterHeaders(st, hs + [h]) == AfterHeader(AfterHeaders(st, hs), h)
    decreases |hs|
  {
    if hs == [] {
      assert [h][1..] == [] && hs + [h] == [h];
      assert AfterHeaders(AfterHeader(st, h), []) == AfterHeader(st, h);
    } else {
      assert (hs + [h])[1..] == hs[1..] + [h];
      AfterHeadersSnoc(AfterHeader(st, hs[0]), hs[1..], h);
    }
  }
}
