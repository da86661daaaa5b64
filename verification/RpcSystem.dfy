/** One client channel, its connections over time, and the servers at their other ends, as a
    transition system over byte streams. Every step is one atomic piece of the C++ code: the three
    parts of `CallMethod` (take an id, register, send), a chunk of bytes moving in either direction,
    one turn of a receiver's loop, a service method running its `done`, a connection coming or going,
    and the channel's destruction. Calls may be made by many threads at once. Frames
    may be longer than a receiver accepts: it then shuts its side of the connection down and takes no
    more. */
module RpcSystem {
  import opened Wire
  import opened Messages
  import opened Framing
  import opened Channel

  /** A connection: the two streams in flight, the two receive buffers, and what runs at the server. */
  datatype Conn = Conn(
    open: bool,
    toServer: bytes, serverBuf: bytes,
    running: map<int, Handler>,            // service methods started, `done` not yet run
    dropped: set<int>,                     // requests for methods this server does not have
    toClient: bytes, clientBuf: bytes,
    serverShut: bool, clientShut: bool,    // this side has called shutdown() and sends no more
    lost: set<int>)                        // history: calls whose request or response cannot arrive

  datatype Sys = Sys(
    alive: bool,
    id: int,                               // id_
    taken: set<int>,                       // ids taken by threads that have not registered yet
    table: map<int, Outstanding>,          // outstandings_
    unsent: set<int>,                      // registered, the thread has not reached conn_->send
    conns: seq<Conn>,                      // the last one is conn_
    services: ServiceTable,
    // history
    issued: map<int, Call>,                // every call that took an id
    via: map<int, nat>,                    // the connection its frame was handed to
    handled: map<int, (Handler, Message)>, // the handler that ran and the response it produced
    runs: map<int, Run>,                   // the run of its done closure
    disposed: set<int>)                    // deleted by the destructor

  const NEW_CONN := Conn(true, [], [], map[], {}, [], [], false, false, {})

  function Init(services: ServiceTable): Sys {
    Sys(true, 0, {}, map[], {}, [], services, map[], map[], map[], map[], {})
  }

  datatype Action =
    | Alloc(call: Call)
    | Burn                                 // a call takes an id and its header does not serialize
    | Register(rid: int)
    | Send(sid: int)
    | Open
    | Close(k: nat)
    | ToServer(k: nat, n: nat)
    | ServerTake(k: nat)
    | ServerStop(k: nat)
    | Finish(k: nat, fid: int, response: Message)
    | ToClient(k: nat, n: nat)
    | ClientTake(k: nat)
    | ClientStop(k: nat)
    | Destroy

  /** A call that gets an entry in the table: its request and its header serialize, and the method's
      name means the same at the server. */
  ghost predicate CallOk(services: ServiceTable, id: int, c: Call) {
    && WellFormed(c.desc.input, c.request) && Serializable(c.desc.input, c.request)
    && Serializable(HEADER, RequestHeader(id, c)) && SameProto(services, c.desc) && |c.desc.output| < 0x2000_0000
  }

  /** The header a finished service method sends, if it can be serialized. */
  function Answer(id: int, output: Schema, rsp: Message): Option<Header> {
    if !Serializable(output, rsp) then None
    else if !Serializable(HEADER, ResponseHeader(id, Serialize(output, rsp))) then None
    else Some(ResponseHeader(id, Serialize(output, rsp)))
  }

  ghost predicate Enabled(s: Sys, a: Action) {
    s.alive &&
    match a
    case Alloc(call) => s.id + 1 < TWO63 && CallOk(s.services, s.id + 1, call)
    case Burn => s.id + 1 < TWO63
    case Register(id) => id in s.taken && id in s.issued
    case Send(id) => id in s.unsent && id in s.issued
    case Open => true
    case Close(k) => k < |s.conns|
    case ToServer(k, n) => k < |s.conns| && 1 <= n <= |s.conns[k].toServer|
    case ServerTake(k) => k < |s.conns| && TakeFrame(s.conns[k].serverBuf).Got?
    case ServerStop(k) => k < |s.conns| && TakeFrame(s.conns[k].serverBuf).BadLength? && !s.conns[k].serverShut
    case Finish(k, id, rsp) =>
      k < |s.conns| && id in s.conns[k].running && WellFormed(s.conns[k].running[id].desc.output, rsp)
    case ToClient(k, n) => k < |s.conns| && 1 <= n <= |s.conns[k].toClient|
    case ClientTake(k) => k < |s.conns| && TakeFrame(s.conns[k].clientBuf).Got?
    case ClientStop(k) => k < |s.conns| && TakeFrame(s.conns[k].clientBuf).BadLength? && !s.conns[k].clientShut
    case Destroy => s.taken == {} && s.unsent == {}
  }

  function ServerHandles(services: ServiceTable, c: Conn, h: Header): Conn {
    if TypeOf(h) == REQUEST then
      match Dispatch(services, h)
      case Start(id, handler) => c.(running := c.running[id := handler])
      case _ => c.(dropped := c.dropped + {IdOf(h)})
    else c
  }

  /** The client hands the frame of call id to the connection. */
  ghost function Requested(c: Conn, id: int, h: Header): Conn {
    if !c.open then c
    else if c.clientShut then c.(lost := c.lost + {id})
    else if Blocked(c.serverBuf + c.toServer) || !Fits(h) then
      c.(toServer := c.toServer + Frame(h), lost := c.lost + {id})
    else c.(toServer := c.toServer + Frame(h))
  }

  /** The server hands the answer of call id to the connection, or has none to hand. */
  ghost function Responded(c: Conn, id: int, h: Option<Header>): Conn {
    if !c.open then c
    else if h.None? || c.serverShut then c.(lost := c.lost + {id})
    else if Blocked(c.clientBuf + c.toClient) || !Fits(h.value) then
      c.(toClient := c.toClient + Frame(h.value), lost := c.lost + {id})
    else c.(toClient := c.toClient + Frame(h.value))
  }

  ghost function Next(s: Sys, a: Action): (s': Sys)
    requires Enabled(s, a)
    ensures s'.services == s.services
  {
    match a
    case Alloc(call) =>
      s.(id := s.id + 1, taken := s.taken + {s.id + 1}, issued := s.issued[s.id + 1 := call])
    case Burn => s.(id := s.id + 1)
    case Register(id) =>
      s.(taken := s.taken - {id}, unsent := s.unsent + {id},
         table := s.table[id := OutstandingOf(s.issued[id])])
    case Send(id) =>
      if s.conns == [] then s.(unsent := s.unsent - {id})
      else
        var k := |s.conns| - 1;
        s.(unsent := s.unsent - {id}, via := s.via[id := k],
           conns := s.conns[k := Requested(s.conns[k], id, RequestHeader(id, s.issued[id]))])
    case Open => s.(conns := s.conns + [NEW_CONN])
    case Close(k) =>
      var c := s.conns[k].(open := false, toServer := [], serverBuf := [], toClient := [], clientBuf := []);
      s.(conns := s.conns[k := c])
    case ToServer(k, n) =>
      var c := s.conns[k];
      s.(conns := s.conns[k := c.(toServer := c.toServer[n..], serverBuf := c.serverBuf + c.toServer[..n])])
    case ServerTake(k) =>
      var c := s.conns[k];
      var t := TakeFrame(c.serverBuf);
      s.(conns := s.conns[k := ServerHandles(s.services, c.(serverBuf := t.rest), t.header)])
    case ServerStop(k) => s.(conns := s.conns[k := s.conns[k].(serverShut := true)])
    case Finish(k, id, rsp) =>
      var c := s.conns[k];
      var c' := Responded(c.(running := c.running - {id}), id, Answer(id, c.running[id].desc.output, rsp));
      s.(conns := s.conns[k := c'], handled := s.handled[id := (c.running[id], rsp)])
    case ToClient(k, n) =>
      var c := s.conns[k];
      s.(conns := s.conns[k := c.(toClient := c.toClient[n..], clientBuf := c.clientBuf + c.toClient[..n])])
    case ClientTake(k) =>
      var c := s.conns[k];
      var t := TakeFrame(c.clientBuf);
      var s' := s.(conns := s.conns[k := c.(clientBuf := t.rest)]);
      if TypeOf(t.header) != RESPONSE then s'
      else
        (match TakeCall(s.table, t.header)
         case None => s'
         case Some(run) => s'.(table := s.table - {run.id}, runs := s.runs[run.id := run]))
    case ClientStop(k) => s.(conns := s.conns[k := s.conns[k].(clientShut := true)])
    case Destroy => s.(alive := false, disposed := s.disposed + s.table.Keys, table := map[])
  }

  // ---------------------------------------------------------------- the invariant

  /** The headers on the way in one direction: half-received bytes and bytes in flight together. */
  function Requests(c: Conn): seq<Header> { Decode(c.serverBuf + c.toServer) }
  function Responses(c: Conn): seq<Header> { Decode(c.clientBuf + c.toClient) }

  function Occurs(hs: seq<Header>, id: int): nat {
    if hs == [] then 0 else One(IdOf(hs[0]) == id) + Occurs(hs[1..], id)
  }

  function One(b: bool): nat { if b then 1 else 0 }

  /** In how many places of a connection a call is. */
  function Places(c: Conn, id: int): nat {
    Occurs(Requests(c), id) + One(id in c.running) + One(id in c.dropped) + Occurs(Responses(c), id) + One(id in c.lost)
  }

  /** In how many stages of its life at the client a call is. */
  function Stages(s: Sys, id: int): nat {
    One(id in s.taken) + One(id in s.table) + One(id in s.runs) + One(id in s.disposed)
  }

  /** An outstanding call whose frame went over connection k. */
  predicate SentOver(s: Sys, k: nat, id: int) {
    id in s.table && id in s.via && s.via[id] == k
  }

  /** The stream holds whole frames that the receiver will take, and behind them nothing, or what a
      frame too long for the receiver blocks. */
  ghost predicate Pipe(buf: bytes, flight: bytes, hs: seq<Header>) {
    Frames(hs) <= buf + flight && AllFit(hs) && Jam((buf + flight)[|Frames(hs)|..])
  }

  /** Call id went over connection k and its handler has not finished. */
  ghost predicate Awaits(s: Sys, k: nat, id: int) {
    id in s.issued && id in s.via && s.via[id] == k && id !in s.handled
  }

  ghost predicate RequestOk(s: Sys, k: nat, h: Header) {
    Awaits(s, k, IdOf(h)) && h == RequestHeader(IdOf(h), s.issued[IdOf(h)])
  }

  ghost predicate ResponseFor(s: Sys, k: nat, h: Header) {
    var id := IdOf(h);
    && id in s.issued && id in s.via && s.via[id] == k && id in s.handled
    && Serializable(s.issued[id].desc.output, s.handled[id].1)
    && h == ResponseHeader(id, Serialize(s.issued[id].desc.output, s.handled[id].1))
  }

  ghost predicate RequestsOk(s: Sys, k: nat, hs: seq<Header>) {
    forall h :: h in hs ==> RequestOk(s, k, h)
  }

  ghost predicate ResponsesOk(s: Sys, k: nat, hs: seq<Header>) {
    forall h :: h in hs ==> ResponseFor(s, k, h)
  }

  ghost predicate ServerSideOk(s: Sys, k: nat, c: Conn) {
    && (forall id :: id in c.running ==> Awaits(s, k, id) && c.running[id] == HandlerOf(s.issued[id])
                                         && Registered(s.services, s.issued[id].desc))
    && (forall id :: id in c.dropped ==> Awaits(s, k, id) && !Registered(s.services, s.issued[id].desc))
  }

  ghost predicate StreamsOk(s: Sys, k: nat, c: Conn) {
    && Pipe(c.serverBuf, c.toServer, Requests(c))
    && Pipe(c.clientBuf, c.toClient, Responses(c))
    && RequestsOk(s, k, Requests(c))
    && ResponsesOk(s, k, Responses(c))
  }

  /** Each outstanding call of the connection is in exactly one place, no other call is in any. */
  ghost predicate OncePerCall(s: Sys, k: nat, c: Conn) {
    forall id :: Places(c, id) == One(SentOver(s, k, id))
  }

  /** Call id went over connection k with a frame, or was answered with one, that is too long. */
  ghost predicate TooLongRequest(s: Sys, k: nat, id: int) {
    id in s.issued && id in s.via && s.via[id] == k && !Fits(RequestHeader(id, s.issued[id]))
  }

  ghost predicate TooLongResponse(s: Sys, k: nat, id: int) {
    && id in s.issued && id in s.via && s.via[id] == k && id in s.handled
    && !Fits(ResponseHeader(id, Serialize(s.issued[id].desc.output, s.handled[id].1)))
  }

  /** Only frames that are too long block a stream. */
  ghost predicate BlameOk(s: Sys, k: nat, c: Conn) {
    && (Blocked(c.serverBuf + c.toServer) ==> exists id :: TooLongRequest(s, k, id))
    && (Blocked(c.clientBuf + c.toClient) ==> exists id :: TooLongResponse(s, k, id))
  }

  ghost predicate ConnOk(s: Sys, k: nat, c: Conn) {
    && ServerSideOk(s, k, c)
    && (if c.open then StreamsOk(s, k, c) && OncePerCall(s, k, c) && BlameOk(s, k, c)
        else c.toServer == c.serverBuf == c.toClient == c.clientBuf == [])
  }

  ghost predicate CallsOk(s: Sys) {
    && 0 <= s.id < TWO63
    && (forall id :: id in s.issued ==> 1 <= id <= s.id && CallOk(s.services, id, s.issued[id]))
    && (forall id :: id in s.table ==> id in s.issued && s.table[id] == OutstandingOf(s.issued[id]))
  }

  /** Every call that took an id is in exactly one stage of its life at the client. */
  ghost predicate StagesOk(s: Sys) {
    forall id :: Stages(s, id) == One(id in s.issued)
  }

  ghost predicate RoutesOk(s: Sys) {
    && (forall id :: id in s.unsent ==> id in s.table && id !in s.via)
    && (forall id :: id in s.via ==> id in s.issued && id !in s.taken && s.via[id] < |s.conns|)
  }

  ghost predicate HandledOk(s: Sys) {
    && (forall id :: id in s.handled ==>
          && id in s.via && id in s.issued && s.handled[id].0 == HandlerOf(s.issued[id])
          && WellFormed(s.issued[id].desc.output, s.handled[id].1))
    && (forall id :: id in s.runs ==>
          && id in s.handled
          && s.runs[id] == Run(id, s.issued[id].done, Some(s.handled[id].1)))
  }

  ghost predicate ClientOk(s: Sys) {
    CallsOk(s) && StagesOk(s) && RoutesOk(s) && HandledOk(s)
  }

  /** A call that was lost on its connection has not completed. */
  ghost predicate LostOk(s: Sys) {
    forall k, id :: 0 <= k < |s.conns| && id in s.conns[k].lost ==>
      id in s.issued && id in s.via && s.via[id] == k && id !in s.runs
  }

  ghost predicate Inv(s: Sys) {
    && ClientOk(s) && LostOk(s)
    && (if s.alive then forall k :: 0 <= k < |s.conns| ==> ConnOk(s, k, s.conns[k])
        else s.taken == {} && s.table == map[])
  }

  // ---------------------------------------------------------------- frame conditions

  /** Connection k cannot tell s from s', but for the calls that are outstanding. */
  ghost predicate SameFor(s: Sys, s': Sys, k: nat) {
    && s'.services == s.services
    && (forall id :: id in s.issued ==> id in s'.issued && s'.issued[id] == s.issued[id])
    && (forall id :: id in s.via && s.via[id] == k ==>
          && id in s'.via && s'.via[id] == k
          && (id in s'.handled <==> id in s.handled)
          && (id in s.handled ==> s'.handled[id] == s.handled[id]))
  }

  ghost predicate SameSent(s: Sys, s': Sys, k: nat) {
    forall id :: SentOver(s', k, id) == SentOver(s, k, id)
  }

  lemma ServerSideSame(s: Sys, s': Sys, k: nat, c: Conn)
    requires ServerSideOk(s, k, c) && SameFor(s, s', k)
    ensures ServerSideOk(s', k, c)
  {
    forall id | id in c.running || id in c.dropped ensures Awaits(s', k, id) && s'.issued[id] == s.issued[id] {
      assert Awaits(s, k, id);
    }
  }

  lemma HeadersSame(s: Sys, s': Sys, k: nat, reqs: seq<Header>, rsps: seq<Header>)
    requires RequestsOk(s, k, reqs) && ResponsesOk(s, k, rsps) && SameFor(s, s', k)
    ensures RequestsOk(s', k, reqs) && ResponsesOk(s', k, rsps)
  {
    hide RequestHeader, ResponseHeader;
    forall h | h in reqs ensures RequestOk(s', k, h) { assert RequestOk(s, k, h); }
    forall h | h in rsps ensures ResponseFor(s', k, h) { assert ResponseFor(s, k, h); }
  }

  lemma StreamsSame(s: Sys, s': Sys, k: nat, c: Conn)
    requires StreamsOk(s, k, c) && SameFor(s, s', k)
    ensures StreamsOk(s', k, c)
  {
    hide Pipe, Requests, Responses;
    HeadersSame(s, s', k, Requests(c), Responses(c));
    hide RequestsOk, ResponsesOk;
  }

  lemma BlameSame(s: Sys, s': Sys, k: nat, c: Conn)
    requires BlameOk(s, k, c) && SameFor(s, s', k)
    ensures BlameOk(s', k, c)
  {
    hide Blocked, Fits, RequestHeader, ResponseHeader, Serialize;
    forall id | TooLongRequest(s, k, id) ensures TooLongRequest(s', k, id) {}
    forall id | TooLongResponse(s, k, id) ensures TooLongResponse(s', k, id) {}
  }

  lemma ConnSame(s: Sys, s': Sys, k: nat, c: Conn)
    requires ConnOk(s, k, c) && SameFor(s, s', k) && SameSent(s, s', k)
    ensures ConnOk(s', k, c)
  {
    hide Places, StreamsOk, ServerSideOk, BlameOk;
    ServerSideSame(s, s', k, c);
    if c.open {
      StreamsSame(s, s', k, c);
      BlameSame(s, s', k, c);
    }
  }

  // ---------------------------------------------------------------- pipes

  lemma PipeTail(buf: bytes, flight: bytes, hs: seq<Header>) returns (tail: bytes)
    requires Pipe(buf, flight, hs)
    ensures buf + flight == Frames(hs) + tail && Jam(tail) && AllFit(hs)
    ensures Decode(buf + flight) == hs && (Blocked(buf + flight) <==> tail != [])
  {
    hide Frames, Decode, Fits, Jam, Blocked;
    tail := (buf + flight)[|Frames(hs)|..];
    JammedDecode(hs, tail);
  }

  lemma PipeIs(buf: bytes, flight: bytes, hs: seq<Header>, tail: bytes)
    requires buf + flight == Frames(hs) + tail && Jam(tail) && AllFit(hs)
    ensures Pipe(buf, flight, hs) && Decode(buf + flight) == hs && (Blocked(buf + flight) <==> tail != [])
  {
    hide Frames, Decode, Fits, Jam, Blocked;
    assert (buf + flight)[|Frames(hs)|..] == tail;
    JammedDecode(hs, tail);
  }

  /** Sending appends a header to what is on the way, unless it is too long or something too long is
      before it. */
  lemma PipeSend(buf: bytes, flight: bytes, hs: seq<Header>, h: Header)
    requires Pipe(buf, flight, hs) && HeaderOk(h)
    ensures var stuck := Blocked(buf + flight) || !Fits(h);
            var hs' := if stuck then hs else hs + [h];
            && Pipe(buf, flight + Frame(h), hs')
            && Decode(buf + (flight + Frame(h))) == hs'
            && (Blocked(buf + (flight + Frame(h))) <==> stuck)
  {
    hide Frame, Frames, Decode, Fits, Jam, Blocked, HeaderOk, Pipe;
    var tail := PipeTail(buf, flight, hs);
    JammedSend(hs, tail, h);
    Assoc(buf, flight, Frame(h));
    Assoc(Frames(hs), tail, Frame(h));
    if tail == [] && Fits(h) {
      assert Frames(hs + [h]) + [] == Frames(hs + [h]);
      NothingJams();
      PipeIs(buf, flight + Frame(h), hs + [h], []);
    } else {
      PipeIs(buf, flight + Frame(h), hs, tail + Frame(h));
    }
  }

  lemma NothingJams()
    ensures Jam([])
  {}

  /** A chunk moving to the receiver changes nothing on the way. */
  lemma PipeMove(buf: bytes, flight: bytes, n: nat)
    requires n <= |flight|
    ensures (buf + flight[..n]) + flight[n..] == buf + flight
  {
    Assoc(buf, flight[..n], flight[n..]);
    assert flight[..n] + flight[n..] == flight;
  }

  /** Taking a frame takes the first header on the way. */
  lemma PipeTake(buf: bytes, flight: bytes, hs: seq<Header>)
    requires Pipe(buf, flight, hs) && TakeFrame(buf).Got?
    ensures hs != [] && TakeFrame(buf).header == hs[0]
    ensures Pipe(TakeFrame(buf).rest, flight, hs[1..])
    ensures Decode(TakeFrame(buf).rest + flight) == hs[1..]
    ensures Blocked(TakeFrame(buf).rest + flight) <==> Blocked(buf + flight)
  {
    hide Frame, Frames, Decode, TakeFrame, Fits, Jam, Blocked, Pipe;
    var tail := PipeTail(buf, flight, hs);
    TakeFromJammed(buf, flight, hs, tail);
    PipeIs(TakeFrame(buf).rest, flight, hs[1..], tail);
  }

  // ---------------------------------------------------------------- counting

  lemma {:induction false} OccursAppend(hs: seq<Header>, h: Header, id: int)
    ensures Occurs(hs + [h], id) == Occurs(hs, id) + One(IdOf(h) == id)
  {
    hide IdOf;
    if hs != [] {
      assert (hs + [h])[1..] == hs[1..] + [h];
      OccursAppend(hs[1..], h, id);
    } else {
      assert Occurs([h], id) == One(IdOf(h) == id) + Occurs([h][1..], id);
    }
  }

  lemma {:induction false} OccursIn(hs: seq<Header>, h: Header)
    requires h in hs
    ensures Occurs(hs, IdOf(h)) >= 1
  {
    hide IdOf;
    if hs[0] != h { OccursIn(hs[1..], h); }
  }

  /** What an open connection knows of a call. */
  lemma OncePerCallAt(s: Sys, k: nat, c: Conn, id: int)
    requires c.open && ConnOk(s, k, c)
    ensures Occurs(Requests(c), id) + One(id in c.running) + One(id in c.dropped) + Occurs(Responses(c), id)
          + One(id in c.lost) == One(SentOver(s, k, id))
  {
    hide Requests, Responses, StreamsOk, ServerSideOk, BlameOk;
    assert Places(c, id) == One(SentOver(s, k, id));
  }

  lemma AppendOk(s: Sys, k: nat, reqs: seq<Header>, reqs': seq<Header>, rsps: seq<Header>, rsps': seq<Header>)
    requires RequestsOk(s, k, reqs) && RequestsOk(s, k, reqs') && ResponsesOk(s, k, rsps) && ResponsesOk(s, k, rsps')
    ensures RequestsOk(s, k, reqs + reqs') && ResponsesOk(s, k, rsps + rsps')
  {
    hide RequestOk, ResponseFor;
  }

  lemma TailOk(s: Sys, k: nat, h: Header, hs: seq<Header>)
    ensures RequestsOk(s, k, [h] + hs) ==> RequestsOk(s, k, hs)
    ensures ResponsesOk(s, k, [h] + hs) ==> ResponsesOk(s, k, hs)
  {
    hide RequestOk, ResponseFor;
    assert forall q :: q in hs ==> q in [h] + hs;
  }

  // ---------------------------------------------------------------- every step keeps the invariant

  lemma OthersSame(s: Sys, s': Sys, k: nat)
    requires Inv(s) && s.alive && |s.conns| == |s'.conns|
    requires forall j :: 0 <= j < |s.conns| && j != k ==>
               s'.conns[j] == s.conns[j] && SameFor(s, s', j) && SameSent(s, s', j)
    ensures forall j :: 0 <= j < |s.conns| && j != k ==> ConnOk(s', j, s'.conns[j])
  {
    hide ConnOk, SameFor, SameSent, ClientOk;
    forall j | 0 <= j < |s.conns| && j != k ensures ConnOk(s', j, s'.conns[j]) {
      ConnSame(s, s', j, s.conns[j]);
    }
  }

  /** Connections and completed calls as before. */
  lemma LostSame(s: Sys, s': Sys)
    requires LostOk(s) && s'.conns == s.conns && s'.via == s.via && s'.runs == s.runs
    requires forall id :: id in s.issued ==> id in s'.issued
    ensures LostOk(s')
  {}

  lemma BurnInv(s: Sys)
    requires Inv(s) && Enabled(s, Burn)
    ensures Inv(Next(s, Burn))
  {
    hide ConnOk, SameFor, SameSent, CallOk, Frame, TakeFrame, LostOk;
    var s' := Next(s, Burn);
    StagesSame(s, s');
    LostSame(s, s');
    SeesNothing(s, s');
    OthersSame(s, s', |s.conns|);
  }

  lemma SeesNothing(s: Sys, s': Sys)
    requires s' == s.(id := s'.id)
    ensures forall j: nat :: SameFor(s, s', j) && SameSent(s, s', j)
  {}

  lemma AllocInv(s: Sys, call: Call)
    requires Inv(s) && Enabled(s, Alloc(call))
    ensures Inv(Next(s, Alloc(call)))
  {
    hide ConnOk, ClientOk, SameFor, SameSent, CallOk, Frame, TakeFrame, LostOk;
    var s' := Next(s, Alloc(call));
    AllocClient(s, call, s');
    LostSame(s, s');
    OthersSame(s, s', |s.conns|);
  }

  lemma AllocClient(s: Sys, call: Call, s': Sys)
    requires ClientOk(s) && s.id + 1 < TWO63 && CallOk(s.services, s.id + 1, call)
    requires s' == s.(id := s.id + 1, taken := s.taken + {s.id + 1}, issued := s.issued[s.id + 1 := call])
    ensures ClientOk(s')
    ensures forall j: nat :: SameFor(s, s', j) && SameSent(s, s', j)
  {
    hide CallOk, StagesOk;
    AllocStages(s, call, s');
  }

  lemma AllocStages(s: Sys, call: Call, s': Sys)
    requires StagesOk(s) && CallsOk(s)
    requires s' == s.(id := s.id + 1, taken := s.taken + {s.id + 1}, issued := s.issued[s.id + 1 := call])
    ensures StagesOk(s')
  {
    hide CallOk;
    forall id ensures Stages(s', id) == One(id in s'.issued) {
      assert Stages(s, id) == One(id in s.issued);
    }
  }

  lemma RegisterInv(s: Sys, id: int)
    requires Inv(s) && Enabled(s, Register(id))
    ensures Inv(Next(s, Register(id)))
  {
    hide ConnOk, ClientOk, SameFor, SameSent, CallOk, Frame, TakeFrame, LostOk;
    var s' := Next(s, Register(id));
    RegisterClient(s, id, s');
    LostSame(s, s');
    OthersSame(s, s', |s.conns|);
  }

  lemma RegisterClient(s: Sys, id: int, s': Sys)
    requires ClientOk(s) && id in s.taken && id in s.issued
    requires s' == s.(taken := s.taken - {id}, unsent := s.unsent + {id},
                      table := s.table[id := OutstandingOf(s.issued[id])])
    ensures ClientOk(s')
    ensures forall j: nat :: SameFor(s, s', j) && SameSent(s, s', j)
  {
    hide CallOk, StagesOk;
    RegisterStages(s, id, s');
  }

  lemma RegisterStages(s: Sys, id: int, s': Sys)
    requires StagesOk(s) && id in s.taken && id in s.issued
    requires s' == s.(taken := s.taken - {id}, unsent := s.unsent + {id},
                      table := s.table[id := OutstandingOf(s.issued[id])])
    ensures StagesOk(s')
  {
    forall j ensures Stages(s', j) == One(j in s'.issued) {
      assert Stages(s, j) == One(j in s.issued);
    }
  }

  lemma SendInv(s: Sys, id: int)
    requires Inv(s) && Enabled(s, Send(id))
    ensures Inv(Next(s, Send(id)))
  {
    hide ConnOk, ClientOk, Frame, LostOk, SameFor, SameSent, SentOver, Awaits, Requested, RequestHeader, HeaderOk,
         CallOk, TakeFrame;
    var s' := Next(s, Send(id));
    if s.conns == [] {
      NotSentClient(s, s', id);
      LostSame(s, s');
    } else {
      var k := |s.conns| - 1;
      var h := RequestHeader(id, s.issued[id]);
      SendClient(s, s', k, id);
      SendLost(s, s', k, id, h);
      OthersSame(s, s', k);
      SendConn(s, s', k, s.conns[k], id);
    }
  }

  lemma SendLost(s: Sys, s': Sys, k: nat, id: int, h: Header)
    requires LostOk(s) && ClientOk(s) && id in s.unsent && id in s.issued && k < |s.conns|
    requires s' == s.(unsent := s.unsent - {id}, via := s.via[id := k],
                      conns := s.conns[k := Requested(s.conns[k], id, h)])
    ensures LostOk(s')
  {
    hide CallsOk, StagesOk, HandledOk, Frame, Fits, Blocked;
    NotRun(s, id);
  }

  lemma NotRun(s: Sys, id: int)
    requires StagesOk(s) && id in s.table
    ensures id !in s.runs
  {
    assert Stages(s, id) == One(id in s.issued);
  }

  lemma NotSentClient(s: Sys, s': Sys, id: int)
    requires ClientOk(s) && s' == s.(unsent := s.unsent - {id})
    ensures ClientOk(s')
  {
    hide CallOk;
    forall j ensures Stages(s', j) == One(j in s'.issued) {
      assert Stages(s, j) == One(j in s.issued);
    }
  }

  lemma SendClient(s: Sys, s': Sys, k: nat, id: int)
    requires ClientOk(s) && id in s.unsent && id in s.issued && k < |s.conns| == |s'.conns|
    requires s' == s.(unsent := s.unsent - {id}, via := s.via[id := k], conns := s'.conns)
    ensures ClientOk(s') && Awaits(s', k, id) && HeaderOk(RequestHeader(id, s'.issued[id]))
    ensures forall j: nat :: SameFor(s, s', j) && (j != k ==> SameSent(s, s', j))
    ensures !SentOver(s, k, id) && forall j :: SentOver(s', k, j) == (j == id || SentOver(s, k, j))
  {
    hide CallOk, HeaderOk, RequestHeader, StagesOk, Stages, SameProto;
    StagesSame(s, s');
    IssuedHeaderOk(s, id);
    NotTaken(s, id);
    SendEffects(s, s', k, id);
  }

  lemma NotTaken(s: Sys, id: int)
    requires StagesOk(s) && id in s.table
    ensures id !in s.taken
  {
    assert Stages(s, id) == One(id in s.issued);
  }

  lemma IssuedHeaderOk(s: Sys, id: int)
    requires CallsOk(s) && id in s.issued
    ensures HeaderOk(RequestHeader(id, s.issued[id]))
  {
    hide Serializable, WellFormed;
    assert CallOk(s.services, id, s.issued[id]);
    RequestWellFormed(id, s.issued[id]);
  }

  lemma RequestWellFormed(id: int, c: Call)
    requires 0 <= id < TWO63
    ensures WellFormed(HEADER, RequestHeader(id, c))
  {
    hide Serialize;
    assert |HEADER| == 5;
  }

  lemma ResponseWellFormed(id: int, payload: bytes)
    requires 0 <= id < TWO63
    ensures WellFormed(HEADER, ResponseHeader(id, payload))
  {
    assert |HEADER| == 5;
  }

  lemma SendEffects(s: Sys, s': Sys, k: nat, id: int)
    requires RoutesOk(s) && HandledOk(s) && id in s.unsent && id in s.issued
    requires s' == s.(unsent := s.unsent - {id}, via := s.via[id := k], conns := s'.conns)
    ensures Awaits(s', k, id)
    ensures forall j: nat :: SameFor(s, s', j) && (j != k ==> SameSent(s, s', j))
    ensures !SentOver(s, k, id) && forall j :: SentOver(s', k, j) == (j == id || SentOver(s, k, j))
  {}

  lemma StagesSame(s: Sys, s': Sys)
    requires StagesOk(s) && s'.taken == s.taken && s'.table == s.table && s'.runs == s.runs
    requires s'.disposed == s.disposed && s'.issued == s.issued
    ensures StagesOk(s')
  {
    forall j ensures Stages(s', j) == One(j in s'.issued) {
      assert Stages(s, j) == One(j in s.issued);
    }
  }

  /** Connection k after the frame of call id was handed to it. */
  lemma SendConn(s: Sys, s': Sys, k: nat, c: Conn, id: int)
    requires ConnOk(s, k, c) && SameFor(s, s', k)
    requires Awaits(s', k, id) && HeaderOk(RequestHeader(id, s'.issued[id]))
    requires !SentOver(s, k, id) && forall j :: SentOver(s', k, j) == (j == id || SentOver(s, k, j))
    ensures ConnOk(s', k, Requested(c, id, RequestHeader(id, s'.issued[id])))
  {
    hide Frame, Decode, Fits, Serialize, Places, StreamsOk, OncePerCall, BlameOk, SameFor, RequestHeader, HeaderOk,
         Blocked;
    ServerSideSame(s, s', k, c);
    if c.open {
      SendStreams(s, s', k, c, id);
      SendOnce(s, s', k, c, id);
      SendBlame(s, s', k, c, id);
    }
  }

  lemma SendStreams(s: Sys, s': Sys, k: nat, c: Conn, id: int)
    requires c.open && StreamsOk(s, k, c) && SameFor(s, s', k)
    requires Awaits(s', k, id) && HeaderOk(RequestHeader(id, s'.issued[id]))
    ensures StreamsOk(s', k, Requested(c, id, RequestHeader(id, s'.issued[id])))
  {
    hide Frame, Decode, Fits, Serialize, SameFor, HeaderOk, Blocked, Pipe;
    var h := RequestHeader(id, s'.issued[id]);
    assert IdOf(h) == id && RequestsOk(s', k, [h]);
    hide RequestHeader, IdOf;
    HeadersSame(s, s', k, Requests(c), Responses(c));
    AppendOk(s', k, Requests(c), [h], Responses(c), []);
    hide RequestsOk, ResponsesOk;
    if !c.clientShut { PipeSend(c.serverBuf, c.toServer, Requests(c), h); }
  }

  /** What the requests on the way are afterwards. */
  lemma RequestsAfter(s: Sys, k: nat, c: Conn, id: int, h: Header)
    requires c.open && StreamsOk(s, k, c) && HeaderOk(h)
    ensures var c' := Requested(c, id, h);
            && Responses(c') == Responses(c) && c'.running == c.running && c'.dropped == c.dropped
            && ((Requests(c') == Requests(c) && c'.lost == c.lost + {id})
                || (Requests(c') == Requests(c) + [h] && c'.lost == c.lost))
  {
    hide Frame, Decode, Fits, HeaderOk, Blocked, Pipe, RequestsOk, ResponsesOk;
    if !c.clientShut { PipeSend(c.serverBuf, c.toServer, Requests(c), h); }
  }

  lemma SendOnce(s: Sys, s': Sys, k: nat, c: Conn, id: int)
    requires c.open && ConnOk(s, k, c) && id in s'.issued && HeaderOk(RequestHeader(id, s'.issued[id]))
    requires !SentOver(s, k, id) && forall j :: SentOver(s', k, j) == (j == id || SentOver(s, k, j))
    ensures OncePerCall(s', k, Requested(c, id, RequestHeader(id, s'.issued[id])))
  {
    hide Frame, Decode, Fits, Serialize, Places, StreamsOk, BlameOk, ServerSideOk, HeaderOk, Blocked, SentOver;
    var h := RequestHeader(id, s'.issued[id]);
    var c' := Requested(c, id, h);
    assert IdOf(h) == id;
    hide RequestHeader, IdOf;
    RequestsAfter(s, k, c, id, h);
    assert Places(c, id) == 0;
    NotLost(c, id);
    forall j ensures Places(c', j) == One(SentOver(s', k, j)) {
      assert Places(c, j) == One(SentOver(s, k, j));
      PlacesSent(c, c', h, id, j);
    }
  }

  lemma NotLost(c: Conn, id: int)
    requires Places(c, id) == 0
    ensures id !in c.lost
  {
    hide Requests, Responses;
  }

  lemma PlacesSent(c: Conn, c': Conn, h: Header, id: int, j: int)
    requires Responses(c') == Responses(c) && c'.running == c.running && c'.dropped == c.dropped
    requires (Requests(c') == Requests(c) && c'.lost == c.lost + {id} && id !in c.lost)
          || (Requests(c') == Requests(c) + [h] && c'.lost == c.lost && IdOf(h) == id)
    ensures Places(c', j) == Places(c, j) + One(id == j)
  {
    hide Requests, Responses, IdOf;
    OccursAppend(Requests(c), h, j);
  }

  lemma SendBlame(s: Sys, s': Sys, k: nat, c: Conn, id: int)
    requires c.open && StreamsOk(s, k, c) && BlameOk(s, k, c) && SameFor(s, s', k)
    requires Awaits(s', k, id) && HeaderOk(RequestHeader(id, s'.issued[id]))
    ensures BlameOk(s', k, Requested(c, id, RequestHeader(id, s'.issued[id])))
  {
    hide Frame, Decode, Fits, Serialize, SameFor, HeaderOk, Blocked, Pipe, RequestHeader, RequestsOk, ResponsesOk,
         TooLongResponse;
    var h := RequestHeader(id, s'.issued[id]);
    BlameSame(s, s', k, c);
    if !c.clientShut { PipeSend(c.serverBuf, c.toServer, Requests(c), h); }
    assert !Fits(h) ==> TooLongRequest(s', k, id);
  }

  lemma OpenInv(s: Sys)
    requires Inv(s) && Enabled(s, Open)
    ensures Inv(Next(s, Open))
  {
    hide ConnOk, CallOk, StagesOk, TakeFrame, ServerHandles, Requested, Responded;
    var s' := Next(s, Open);
    StagesSame(s, s');
    forall j | 0 <= j < |s.conns| ensures ConnOk(s', j, s'.conns[j]) {
      ConnSame(s, s', j, s.conns[j]);
    }
    NewConnOk(s', |s.conns|);
  }

  lemma NewConnOk(s: Sys, k: nat)
    requires forall id :: !SentOver(s, k, id)
    ensures ConnOk(s, k, NEW_CONN)
  {
    hide Fits, TakeFrame;
    assert [] + [] == Frames([]) + [];
    PipeIs([], [], [], []);
    assert Requests(NEW_CONN) == Responses(NEW_CONN) == [];
    assert forall id :: Places(NEW_CONN, id) == 0;
  }

  /** Steps that touch connection k only leave the client's side as it is. */
  ghost predicate OnlyConn(s: Sys, s': Sys, k: nat) {
    && k < |s.conns| == |s'.conns| && s' == s.(conns := s.conns[k := s'.conns[k]])
    && s'.conns[k].lost == s.conns[k].lost
  }

  lemma OnlyConnInv(s: Sys, s': Sys, k: nat)
    requires Inv(s) && s.alive && |s'.conns| == |s.conns| && OnlyConn(s, s', k)
    requires ConnOk(s, k, s'.conns[k])
    ensures Inv(s')
  {
    hide ConnOk, CallOk, StagesOk;
    StagesSame(s, s');
    OthersSame(s, s', k);
    ConnSame(s, s', k, s'.conns[k]);
  }

  lemma CloseInv(s: Sys, k: nat)
    requires Inv(s) && Enabled(s, Close(k))
    ensures Inv(Next(s, Close(k)))
  {
    hide ClientOk, StreamsOk, OncePerCall, BlameOk, LostOk, TakeFrame;
    var s' := Next(s, Close(k));
    assert ConnOk(s, k, s.conns[k]);
    ServerSideShrunk(s, k, s.conns[k], s'.conns[k]);
    OnlyConnInv(s, s', k);
  }

  lemma ServerSideShrunk(s: Sys, k: nat, c: Conn, c': Conn)
    requires ServerSideOk(s, k, c) && c'.running == c.running && c'.dropped == c.dropped
    ensures ServerSideOk(s, k, c')
  {}

  lemma ToServerInv(s: Sys, k: nat, n: nat)
    requires Inv(s) && Enabled(s, ToServer(k, n))
    ensures Inv(Next(s, ToServer(k, n)))
  {
    hide ClientOk, LostOk, TakeFrame, StreamsOk, OncePerCall, BlameOk, ServerSideOk;
    var c := s.conns[k];
    assert ConnOk(s, k, c);
    PipeMove(c.serverBuf, c.toServer, n);
    MovedOk(s, k, c, Next(s, ToServer(k, n)).conns[k]);
    OnlyConnInv(s, Next(s, ToServer(k, n)), k);
  }

  lemma ToClientInv(s: Sys, k: nat, n: nat)
    requires Inv(s) && Enabled(s, ToClient(k, n))
    ensures Inv(Next(s, ToClient(k, n)))
  {
    hide ClientOk, LostOk, TakeFrame, StreamsOk, OncePerCall, BlameOk, ServerSideOk;
    var c := s.conns[k];
    assert ConnOk(s, k, c);
    PipeMove(c.clientBuf, c.toClient, n);
    MovedOk(s, k, c, Next(s, ToClient(k, n)).conns[k]);
    OnlyConnInv(s, Next(s, ToClient(k, n)), k);
  }

  /** The same bytes on the way, wherever the receiver stands. */
  lemma MovedOk(s: Sys, k: nat, c: Conn, c': Conn)
    requires c.open && ConnOk(s, k, c)
    requires c'.open && c'.running == c.running && c'.dropped == c.dropped && c'.lost == c.lost
    requires c'.serverBuf + c'.toServer == c.serverBuf + c.toServer
    requires c'.clientBuf + c'.toClient == c.clientBuf + c.toClient
    ensures ConnOk(s, k, c')
  {
    hide RequestsOk, ResponsesOk, Frames, AllFit, Decode, Blocked, Jam, TooLongRequest, TooLongResponse;
    forall id ensures Places(c', id) == One(SentOver(s, k, id)) {
      assert Places(c, id) == One(SentOver(s, k, id));
    }
  }

  /** A receiver that meets an invalid length shuts its side down; what is on the way stays. */
  lemma StopInv(s: Sys, a: Action, k: nat)
    requires Inv(s) && Enabled(s, a) && (a == ServerStop(k) || a == ClientStop(k))
    ensures Inv(Next(s, a))
  {
    hide ClientOk, LostOk, StreamsOk, OncePerCall, BlameOk, ServerSideOk;
    var c := s.conns[k];
    var s' := Next(s, a);
    assert ConnOk(s, k, c);
    BadLengthFilled(c);
    MovedOk(s, k, c, s'.conns[k]);
    OnlyConnInv(s, s', k);
  }

  lemma BadLengthFilled(c: Conn)
    ensures TakeFrame(c.serverBuf).BadLength? ==> c.serverBuf != []
    ensures TakeFrame(c.clientBuf).BadLength? ==> c.clientBuf != []
  {}

  /** The frame a server takes off its buffer is the request of a call that awaits its response
      over this connection; the server starts that call's method on that call's request message,
      or drops the request because it does not have the method. */
  lemma ServerFrame(s: Sys, k: nat, c: Conn) returns (h: Header, id: int, c': Conn)
    requires CallsOk(s) && ConnOk(s, k, c) && TakeFrame(c.serverBuf).Got?
    ensures c.open && h == TakeFrame(c.serverBuf).header && id == IdOf(h) && TypeOf(h) == REQUEST
    ensures c' == c.(serverBuf := TakeFrame(c.serverBuf).rest)
    ensures RequestOk(s, k, h) && Requests(c) == [h] + Requests(c') && Responses(c) == Responses(c')
    ensures Pipe(c'.serverBuf, c'.toServer, Requests(c'))
    ensures Blocked(c'.serverBuf + c'.toServer) <==> Blocked(c.serverBuf + c.toServer)
    ensures var m := s.issued[id].desc;
            if Registered(s.services, m) then Dispatch(s.services, h) == Start(id, HandlerOf(s.issued[id]))
            else !Dispatch(s.services, h).Start?
  {
    hide Frame, Frames, Decode, Parse, Serialize, WellFormed, Fits, Dispatch, TakeFrame, Places, Blocked, BlameOk, Jam;
    h, id := TakeFrame(c.serverBuf).header, IdOf(TakeFrame(c.serverBuf).header);
    c' := c.(serverBuf := TakeFrame(c.serverBuf).rest);
    BufferFilled(c);
    PipeTake(c.serverBuf, c.toServer, Requests(c));
    assert RequestOk(s, k, h);
    DispatchRequest(s.services, id, s.issued[id]);
  }

  lemma BufferFilled(c: Conn)
    ensures TakeFrame(c.serverBuf).Got? ==> c.serverBuf != []
    ensures TakeFrame(c.clientBuf).Got? ==> c.clientBuf != []
  {}

  lemma ServerTakeInv(s: Sys, k: nat)
    requires Inv(s) && Enabled(s, ServerTake(k))
    ensures Inv(Next(s, ServerTake(k)))
  {
    hide ClientOk, ConnOk, TakeFrame, LostOk, ServerHandles;
    ClientCallsOk(s);
    ServerTakeConn(s, k, s.conns[k]);
    LostKept(s.services, s.conns[k], TakeFrame(s.conns[k].serverBuf).rest, TakeFrame(s.conns[k].serverBuf).header);
    OnlyConnInv(s, Next(s, ServerTake(k)), k);
  }

  lemma ClientCallsOk(s: Sys)
    requires ClientOk(s)
    ensures CallsOk(s)
  {
    hide CallsOk;
  }

  lemma LostKept(services: ServiceTable, c: Conn, rest: bytes, h: Header)
    ensures ServerHandles(services, c.(serverBuf := rest), h).lost == c.lost
  {
    hide Dispatch;
  }

  lemma ServerTakeConn(s: Sys, k: nat, c: Conn)
    requires CallsOk(s) && ConnOk(s, k, c) && TakeFrame(c.serverBuf).Got?
    ensures var t := TakeFrame(c.serverBuf);
            ConnOk(s, k, ServerHandles(s.services, c.(serverBuf := t.rest), t.header))
  {
    hide Frame, Decode, TakeFrame, CallsOk, Dispatch, IdOf, TypeOf, Places, Fits, Serialize, Blocked, TooLongRequest,
         TooLongResponse, RequestOk, RequestsOk, ResponsesOk, Pipe, SentOver;
    var h, id, c1 := ServerFrame(s, k, c);
    var c2 := ServerHandles(s.services, c1, h);
    ServerTakeServerSide(s, k, c, h, id, c1);
    TailOk(s, k, h, Requests(c1));
    assert Requests(c2) == Requests(c1) && Responses(c2) == Responses(c1);
    forall j ensures Places(c2, j) == One(SentOver(s, k, j)) {
      assert Places(c, j) == One(SentOver(s, k, j));
      PlacesStarted(c, c2, h, j);
    }
  }

  /** The call is new to the server, and is started or dropped as it should. */
  lemma ServerTakeServerSide(s: Sys, k: nat, c: Conn, h: Header, id: int, c1: Conn)
    requires ConnOk(s, k, c) && c.open && h in Requests(c) && id == IdOf(h) && TypeOf(h) == REQUEST
    requires RequestOk(s, k, h) && c1 == c.(serverBuf := c1.serverBuf)
    requires var m := s.issued[id].desc;
             if Registered(s.services, m) then Dispatch(s.services, h) == Start(id, HandlerOf(s.issued[id]))
             else !Dispatch(s.services, h).Start?
    ensures id !in c.running && id !in c.dropped
    ensures ServerSideOk(s, k, ServerHandles(s.services, c1, h))
  {
    hide Frame, Decode, TakeFrame, Dispatch, IdOf, TypeOf, Places, StreamsOk, BlameOk, OncePerCall, RequestHeader;
    OncePerCallAt(s, k, c, id);
    OccursIn(Requests(c), h);
  }

  lemma PlacesStarted(c: Conn, c': Conn, h: Header, id: int)
    requires Requests(c) == [h] + Requests(c') && Responses(c') == Responses(c)
    requires IdOf(h) !in c.running && IdOf(h) !in c.dropped
    requires (c'.running.Keys == c.running.Keys + {IdOf(h)} && c'.dropped == c.dropped)
          || (c'.running == c.running && c'.dropped == c.dropped + {IdOf(h)})
    requires c'.lost == c.lost
    ensures Places(c', id) == Places(c, id)
  {
    hide Requests, Responses, IdOf;
    assert Requests(c)[1..] == Requests(c');
  }

  lemma FinishInv(s: Sys, k: nat, id: int, rsp: Message)
    requires Inv(s) && Enabled(s, Finish(k, id, rsp))
    ensures Inv(Next(s, Finish(k, id, rsp)))
  {
    hide ClientOk, ConnOk, SameFor, SameSent, Awaits, ResponseHeader, Serialize, Serializable, WellFormed, Responded,
         Answer, LostOk, TakeFrame;
    var s' := Next(s, Finish(k, id, rsp));
    Running(s, k, s.conns[k], id);
    FinishClient(s, s', k, id, rsp);
    FinishLost(s, s', k, id, rsp);
    OthersSame(s, s', k);
    FinishConn(s, s', k, s.conns[k], id, rsp);
  }

  lemma Running(s: Sys, k: nat, c: Conn, id: int)
    requires ConnOk(s, k, c) && id in c.running
    ensures Awaits(s, k, id) && id in s.issued && c.running[id] == HandlerOf(s.issued[id])
  {
    hide StreamsOk, OncePerCall, BlameOk;
  }

  lemma FinishLost(s: Sys, s': Sys, k: nat, id: int, rsp: Message)
    requires LostOk(s) && ClientOk(s) && Awaits(s, k, id) && k < |s.conns| && id in s.conns[k].running
    requires s'.issued == s.issued && s'.via == s.via && s'.runs == s.runs
    requires s'.conns == s.conns[k := Responded(s.conns[k].(running := s.conns[k].running - {id}), id,
                                                Answer(id, s.issued[id].desc.output, rsp))]
    ensures LostOk(s')
  {
    hide CallsOk, StagesOk, Answer, Fits, Blocked, Frame;
  }

  /** s' is s except that the handler of call id has produced its response. */
  ghost predicate Produced(s: Sys, s': Sys, id: int, rsp: Message) {
    && s'.services == s.services && s'.issued == s.issued && s'.via == s.via && s'.table == s.table
    && id in s.issued && s'.handled == s.handled[id := (HandlerOf(s.issued[id]), rsp)]
  }

  lemma FinishClient(s: Sys, s': Sys, k: nat, id: int, rsp: Message)
    requires ClientOk(s) && Awaits(s, k, id) && WellFormed(s.issued[id].desc.output, rsp)
    requires |s.conns| == |s'.conns|
    requires s' == s.(conns := s'.conns, handled := s.handled[id := (HandlerOf(s.issued[id]), rsp)])
    ensures ClientOk(s') && Produced(s, s', id, rsp) && 1 <= id < TWO63
    ensures forall j: nat :: j != k ==> SameFor(s, s', j) && SameSent(s, s', j)
  {
    hide CallOk, StagesOk, WellFormed;
    StagesSame(s, s');
  }

  /** The answer has a proper header. */
  lemma AnswerOk(id: int, output: Schema, rsp: Message)
    requires 1 <= id < TWO63 && Answer(id, output, rsp).Some?
    ensures Serializable(output, rsp) && Answer(id, output, rsp).value == ResponseHeader(id, Serialize(output, rsp))
    ensures HeaderOk(Answer(id, output, rsp).value) && IdOf(Answer(id, output, rsp).value) == id
  {
    hide Serialize, WellFormed;
    ResponseWellFormed(id, Serialize(output, rsp));
  }

  lemma FinishConn(s: Sys, s': Sys, k: nat, c: Conn, id: int, rsp: Message)
    requires ConnOk(s, k, c) && Produced(s, s', id, rsp) && id in c.running && 1 <= id < TWO63
    ensures ConnOk(s', k, Responded(c.(running := c.running - {id}), id, Answer(id, s.issued[id].desc.output, rsp)))
  {
    hide Frame, Serialize, Fits, Answer, StreamsOk, OncePerCall, BlameOk, Produced, Blocked;
    FinishServerSide(s, s', k, c, id, rsp);
    Running(s, k, c, id);
    if c.open {
      FinishStreams(s, s', k, c, id, rsp);
      FinishOnce(s, s', k, c, id, rsp);
      FinishBlame(s, s', k, c, id, rsp);
    }
  }

  lemma FinishServerSide(s: Sys, s': Sys, k: nat, c: Conn, id: int, rsp: Message)
    requires ServerSideOk(s, k, c) && Produced(s, s', id, rsp) && id in c.running
    ensures ServerSideOk(s', k, c.(running := c.running - {id}))
  {
    forall j | (j in c.running && j != id) || j in c.dropped ensures Awaits(s', k, j) {
      assert Awaits(s, k, j);
      assert Registered(s.services, s.issued[id].desc);
    }
  }

  lemma FinishStreams(s: Sys, s': Sys, k: nat, c: Conn, id: int, rsp: Message)
    requires c.open && ConnOk(s, k, c) && Produced(s, s', id, rsp) && id in c.running && Awaits(s, k, id)
             && 1 <= id < TWO63
    ensures StreamsOk(s', k, Responded(c.(running := c.running - {id}), id, Answer(id, s.issued[id].desc.output, rsp)))
  {
    hide Frame, Decode, Fits, Serialize, Serializable, Places, HeaderOk, Blocked, Pipe, BlameOk, OncePerCall, Answer,
         ResponseHeader, RequestHeader, IdOf;
    var answer := Answer(id, s.issued[id].desc.output, rsp);
    OncePerCallAt(s, k, c, id);
    FinishHeaders(s, s', k, c, id, rsp);
    if answer.Some? {
      var h := answer.value;
      AnswerOk(id, s.issued[id].desc.output, rsp);
      assert ResponsesOk(s', k, [h]);
      AppendOk(s', k, Requests(c), [], Responses(c), [h]);
      assert Requests(c) + [] == Requests(c);
      hide RequestsOk, ResponsesOk;
      PipeSend(c.clientBuf, c.toClient, Responses(c), h);
    }
  }

  /** What the responses on the way are afterwards. */
  lemma ResponsesAfter(s: Sys, k: nat, c: Conn, id: int, h: Option<Header>)
    requires c.open && StreamsOk(s, k, c) && (h.Some? ==> HeaderOk(h.value))
    ensures var c' := Responded(c, id, h);
            && Requests(c') == Requests(c) && c'.running == c.running && c'.dropped == c.dropped
            && ((Responses(c') == Responses(c) && c'.lost == c.lost + {id})
                || (h.Some? && Responses(c') == Responses(c) + [h.value] && c'.lost == c.lost))
  {
    hide Frame, Decode, Fits, HeaderOk, Blocked, Pipe, RequestsOk, ResponsesOk;
    if h.Some? { PipeSend(c.clientBuf, c.toClient, Responses(c), h.value); }
  }

  lemma FinishOnce(s: Sys, s': Sys, k: nat, c: Conn, id: int, rsp: Message)
    requires c.open && ConnOk(s, k, c) && Produced(s, s', id, rsp) && id in c.running && 1 <= id < TWO63
    ensures OncePerCall(s', k, Responded(c.(running := c.running - {id}), id,
            Answer(id, s.issued[id].desc.output, rsp)))
  {
    hide Frame, Decode, Fits, Serialize, Serializable, Places, HeaderOk, Blocked, BlameOk, ServerSideOk, Answer,
         ResponseHeader, IdOf, Responded, StreamsOk;
    var answer := Answer(id, s.issued[id].desc.output, rsp);
    var c1 := c.(running := c.running - {id});
    var c' := Responded(c1, id, answer);
    if answer.Some? { AnswerOk(id, s.issued[id].desc.output, rsp); }
    OncePerCallAt(s, k, c, id);
    SameStreams(s, k, c, c1);
    ResponsesAfter(s, k, c1, id, answer);
    forall j ensures Places(c', j) == One(SentOver(s', k, j)) {
      assert Places(c, j) == One(SentOver(s, k, j));
      PlacesFinished(c, c', answer, id, j);
    }
  }

  lemma SameStreams(s: Sys, k: nat, c: Conn, c': Conn)
    requires StreamsOk(s, k, c) && c' == c.(running := c'.running)
    ensures StreamsOk(s, k, c') && Requests(c') == Requests(c) && Responses(c') == Responses(c)
  {
    hide Pipe, RequestsOk, ResponsesOk, Decode;
  }

  lemma PlacesFinished(c: Conn, c': Conn, h: Option<Header>, id: int, j: int)
    requires Requests(c) == Requests(c') && c'.dropped == c.dropped
    requires id in c.running && c'.running == c.running - {id} && id !in c.lost
    requires (Responses(c') == Responses(c) && c'.lost == c.lost + {id})
          || (h.Some? && IdOf(h.value) == id && Responses(c') == Responses(c) + [h.value] && c'.lost == c.lost)
    ensures Places(c', j) == Places(c, j)
  {
    hide Requests, Responses, IdOf;
    if h.Some? { OccursAppend(Responses(c), h.value, j); }
  }

  lemma FinishBlame(s: Sys, s': Sys, k: nat, c: Conn, id: int, rsp: Message)
    requires c.open && StreamsOk(s, k, c) && BlameOk(s, k, c) && Produced(s, s', id, rsp) && Awaits(s, k, id)
             && 1 <= id < TWO63
    ensures BlameOk(s', k, Responded(c.(running := c.running - {id}), id, Answer(id, s.issued[id].desc.output, rsp)))
  {
    hide Frame, Decode, Fits, Serialize, Serializable, HeaderOk, Blocked, Pipe, ResponseHeader, RequestsOk,
         ResponsesOk, Answer, RequestHeader;
    var answer := Answer(id, s.issued[id].desc.output, rsp);
    forall j | TooLongRequest(s, k, j) ensures TooLongRequest(s', k, j) {}
    forall j | TooLongResponse(s, k, j) ensures TooLongResponse(s', k, j) {}
    if answer.Some? {
      AnswerOk(id, s.issued[id].desc.output, rsp);
      PipeSend(c.clientBuf, c.toClient, Responses(c), answer.value);
      assert !Fits(answer.value) ==> TooLongResponse(s', k, id);
    }
  }

  /** The headers on the way do not see that the handler of another call has finished. */
  lemma FinishHeaders(s: Sys, s': Sys, k: nat, c: Conn, id: int, rsp: Message)
    requires c.open && StreamsOk(s, k, c) && Produced(s, s', id, rsp)
    requires id !in s.handled && Occurs(Requests(c), id) == 0
    ensures RequestsOk(s', k, Requests(c)) && ResponsesOk(s', k, Responses(c))
  {
    hide Pipe, Requests, Responses, RequestHeader, ResponseHeader;
    forall q | q in Requests(c) ensures RequestOk(s', k, q) {
      assert RequestOk(s, k, q);
      OccursIn(Requests(c), q);
    }
    forall q | q in Responses(c) ensures ResponseFor(s', k, q) {
      assert ResponseFor(s, k, q);
    }
  }

  /** The frame a client takes off its buffer is a response, it completes a call that is in the
      table, and the response object receives exactly what the call's own handler produced. */
  lemma ClientFrame(s: Sys, k: nat, c: Conn) returns (h: Header, id: int, c': Conn)
    requires CallsOk(s) && HandledOk(s) && ConnOk(s, k, c) && TakeFrame(c.clientBuf).Got?
    ensures c.open && h == TakeFrame(c.clientBuf).header && id == IdOf(h)
    ensures c' == c.(clientBuf := TakeFrame(c.clientBuf).rest)
    ensures TypeOf(h) == RESPONSE && ResponseFor(s, k, h)
    ensures Responses(c) == [h] + Responses(c') && Requests(c) == Requests(c')
    ensures Pipe(c'.clientBuf, c'.toClient, Responses(c'))
    ensures Blocked(c'.clientBuf + c'.toClient) <==> Blocked(c.clientBuf + c.toClient)
    ensures SentOver(s, k, id) && id !in c.lost
    ensures TakeCall(s.table, h) == Some(Run(id, s.issued[id].done, Some(s.handled[id].1)))
  {
    hide Frame, Frames, Decode, Parse, Serialize, WellFormed, Fits, Dispatch, TakeFrame, Places, Blocked, BlameOk, Jam;
    h, id := TakeFrame(c.clientBuf).header, IdOf(TakeFrame(c.clientBuf).header);
    c' := c.(clientBuf := TakeFrame(c.clientBuf).rest);
    BufferFilled(c);
    PipeTake(c.clientBuf, c.toClient, Responses(c));
    assert ResponseFor(s, k, h);
    OccursIn(Responses(c), h);
    OncePerCallAt(s, k, c, id);
    RoundTrip(s.issued[id].desc.output, s.handled[id].1);
  }

  lemma ClientTakeInv(s: Sys, k: nat)
    requires Inv(s) && Enabled(s, ClientTake(k))
    ensures Inv(Next(s, ClientTake(k)))
  {
    hide ConnOk, TakeFrame, CallOk, ClientOk, SameFor, SameSent, TakeCall, IdOf, TypeOf, LostOk, ResponseFor,
         SentOver, Pipe, Requests, Responses, Blocked;
    var s' := Next(s, ClientTake(k));
    ClientParts(s);
    var h, id, c' := ClientFrame(s, k, s.conns[k]);
    ResponseIs(s, k, h);
    assert s' == s.(conns := s.conns[k := c'], table := s.table - {id},
                    runs := s.runs[id := Run(id, s.issued[id].done, Some(s.handled[id].1))]);
    ClientTakeClient(s, s', k, id);
    ClientTakeLost(s, s', k, id, c');
    OthersSame(s, s', k);
    ClientTakeConn(s, s', k, s.conns[k]);
  }

  lemma ClientParts(s: Sys)
    requires ClientOk(s)
    ensures CallsOk(s) && HandledOk(s)
  {
    hide CallsOk, HandledOk;
  }

  lemma ResponseIs(s: Sys, k: nat, h: Header)
    requires ResponseFor(s, k, h)
    ensures IdOf(h) in s.issued && IdOf(h) in s.handled
  {
    hide IdOf;
  }

  lemma ClientTakeLost(s: Sys, s': Sys, k: nat, id: int, c: Conn)
    requires LostOk(s) && k < |s.conns| && SentOver(s, k, id) && id !in s.conns[k].lost && c.lost == s.conns[k].lost
    requires s' == s.(conns := s.conns[k := c], table := s'.table, runs := s'.runs)
             && s'.runs.Keys == s.runs.Keys + {id}
    ensures LostOk(s')
  {}

  lemma ClientTakeClient(s: Sys, s': Sys, k: nat, id: int)
    requires ClientOk(s) && SentOver(s, k, id) && id in s.handled && id in s.issued
    requires s' == s.(conns := s'.conns, table := s.table - {id},
                      runs := s.runs[id := Run(id, s.issued[id].done, Some(s.handled[id].1))])
    requires |s.conns| == |s'.conns|
    ensures ClientOk(s') && SameFor(s, s', k)
    ensures forall j :: 0 <= j < |s.conns| && j != k ==> SameFor(s, s', j) && SameSent(s, s', j)
    ensures forall j :: SentOver(s', k, j) == (j != id && SentOver(s, k, j))
  {
    hide CallOk, StagesOk, WellFormed;
    CompletedStages(s, s', id);
    NotUnsent(s, k, id);
  }

  lemma CompletedStages(s: Sys, s': Sys, id: int)
    requires StagesOk(s) && id in s.table && id in s.issued
    requires s'.taken == s.taken && s'.table == s.table - {id} && s'.disposed == s.disposed && s'.issued == s.issued
    requires s'.runs.Keys == s.runs.Keys + {id}
    ensures StagesOk(s')
  {
    forall j ensures Stages(s', j) == One(j in s'.issued) {
      assert Stages(s, j) == One(j in s.issued);
    }
  }

  lemma NotUnsent(s: Sys, k: nat, id: int)
    requires RoutesOk(s) && SentOver(s, k, id)
    ensures id !in s.unsent
  {}

  lemma ClientTakeConn(s: Sys, s': Sys, k: nat, c: Conn)
    requires CallsOk(s) && HandledOk(s) && ConnOk(s, k, c) && TakeFrame(c.clientBuf).Got?
    requires SameFor(s, s', k)
    requires forall j :: SentOver(s', k, j) == (j != IdOf(TakeFrame(c.clientBuf).header) && SentOver(s, k, j))
    ensures ConnOk(s', k, c.(clientBuf := TakeFrame(c.clientBuf).rest))
  {
    hide Frame, Decode, TakeFrame, CallsOk, HandledOk, TakeCall, IdOf, TypeOf, Places, ResponseFor, Blocked,
         TooLongRequest, TooLongResponse, RequestsOk, ResponsesOk, Pipe, SameFor, ServerSideOk, SentOver,
         RequestHeader, ResponseHeader;
    var h, id, c' := ClientFrame(s, k, c);
    ServerSideSame(s, s', k, c);
    ServerSideShrunk(s', k, c, c');
    HeadersSame(s, s', k, Requests(c), Responses(c));
    BlameSame(s, s', k, c);
    TailOk(s', k, h, Responses(c'));
    forall j ensures Places(c', j) == One(SentOver(s', k, j)) {
      assert Places(c, j) == One(SentOver(s, k, j));
      PlacesCompleted(c, c', h, j);
    }
  }

  lemma PlacesCompleted(c: Conn, c': Conn, h: Header, id: int)
    requires Responses(c) == [h] + Responses(c') && Requests(c') == Requests(c)
    requires c'.running == c.running && c'.dropped == c.dropped && c'.lost == c.lost
    ensures Places(c, id) == Places(c', id) + One(IdOf(h) == id)
  {
    hide Requests, Responses, IdOf;
    assert Responses(c)[1..] == Responses(c');
  }

  lemma DestroyInv(s: Sys)
    requires Inv(s) && Enabled(s, Destroy)
    ensures Inv(Next(s, Destroy))
  {
    hide ConnOk, CallOk, StagesOk, LostOk, TakeFrame, WellFormed;
    var s' := Next(s, Destroy);
    LostSame(s, s');
    DestroyStages(s, s');
  }

  lemma DestroyStages(s: Sys, s': Sys)
    requires StagesOk(s) && s'.taken == s.taken && s'.runs == s.runs && s'.issued == s.issued
    requires s'.table == map[] && s'.disposed == s.disposed + s.table.Keys
    ensures StagesOk(s')
  {
    forall id ensures Stages(s', id) == One(id in s'.issued) {
      assert Stages(s, id) == One(id in s.issued);
    }
  }

  /** Every step keeps the invariant. */
  lemma StepInv(s: Sys, a: Action)
    requires Inv(s) && Enabled(s, a)
    ensures Inv(Next(s, a))
  {
    hide Inv, Next;
    match a
    case Alloc(call) => AllocInv(s, call);
    case Burn => BurnInv(s);
    case Register(id) => RegisterInv(s, id);
    case Send(id) => SendInv(s, id);
    case Open => OpenInv(s);
    case Close(k) => CloseInv(s, k);
    case ToServer(k, n) => ToServerInv(s, k, n);
    case ServerTake(k) => ServerTakeInv(s, k);
    case ServerStop(k) => StopInv(s, a, k);
    case Finish(k, id, rsp) => FinishInv(s, k, id, rsp);
    case ToClient(k, n) => ToClientInv(s, k, n);
    case ClientTake(k) => ClientTakeInv(s, k);
    case ClientStop(k) => StopInv(s, a, k);
    case Destroy => DestroyInv(s);
  }
}
