/** Calls that the RPC system of module RpcSystem cannot complete, and why: a frame was too long for its
    receiver (src/RPCChannel.cc:142-146), or an answer did not serialize (src/RPCChannel.cc:176-189). */
module RpcLosses {
  import opened Wire
  import opened Messages
  import opened Framing
  import opened Channel
  import opened RpcSystem
  import opened RpcTheorems

  // ---------------------------------------------------------------- what loses calls

  /** The service method of call id, sent over connection k, finished with nothing to send. */
  ghost predicate Unanswered(s: Sys, k: nat, id: int) {
    && id in s.issued && id in s.via && s.via[id] == k && id in s.handled
    && Answer(id, s.issued[id].desc.output, s.handled[id].1).None?
  }

  /** Call id over connection k has a frame that is too long, or no answer to send. */
  ghost predicate Bad(s: Sys, k: nat, id: int) {
    TooLongRequest(s, k, id) || TooLongResponse(s, k, id) || Unanswered(s, k, id)
  }

  ghost predicate SomeBad(s: Sys, k: nat) { exists id :: Bad(s, k, id) }

  /** The connection has lost calls, or one of its ends sends no more. */
  ghost predicate Hurt(c: Conn) { c.lost != {} || c.serverShut || c.clientShut }

  /** Nothing is lost and nobody shuts down but because of a bad call over the same connection. */
  ghost predicate Explained(s: Sys) {
    forall k :: 0 <= k < |s.conns| && Hurt(s.conns[k]) ==> SomeBad(s, k)
  }

  /** And every bad call over a connection that is open is lost. */
  ghost predicate BadLost(s: Sys) {
    forall k, id :: 0 <= k < |s.conns| && s.conns[k].open && Bad(s, k, id) ==> id in s.conns[k].lost
  }

  ghost predicate LossInv(s: Sys) { Explained(s) && BadLost(s) }

  /** Calls, their connections and their responses are never rewritten. */
  ghost predicate History(s: Sys, s': Sys) {
    && (forall id :: id in s.issued ==> id in s'.issued && s'.issued[id] == s.issued[id])
    && (forall id :: id in s.via ==> id in s'.via && s'.via[id] == s.via[id])
    && (forall id :: id in s.handled ==> id in s'.handled && s'.handled[id] == s.handled[id])
  }

  lemma BadStays(s: Sys, s': Sys, k: nat)
    requires History(s, s') && SomeBad(s, k)
    ensures SomeBad(s', k)
  {
    hide Fits, RequestHeader, ResponseHeader, Serialize, Answer;
    var id :| Bad(s, k, id);
    assert Bad(s', k, id);
  }

  /** A step by which no call is sent, answered or lost. */
  ghost predicate NothingNew(s: Sys, s': Sys) {
    && s'.via == s.via && s'.handled == s.handled
    && (forall id :: id in s.issued ==> id in s'.issued && s'.issued[id] == s.issued[id])
    && |s'.conns| == |s.conns|
    && forall k :: 0 <= k < |s.conns| ==> SameLoss(s.conns[k], s'.conns[k])
  }

  ghost predicate SameLoss(c: Conn, c': Conn) {
    c'.lost == c.lost && c'.serverShut == c.serverShut && c'.clientShut == c.clientShut && (c'.open ==> c.open)
  }

  lemma NothingNewKeeps(s: Sys, s': Sys)
    requires LossInv(s) && RoutesOk(s) && NothingNew(s, s')
    ensures LossInv(s')
  {
    hide Fits, RequestHeader, ResponseHeader, Serialize, Answer;
    forall k | 0 <= k < |s'.conns| && Hurt(s'.conns[k])
      ensures SomeBad(s', k)
    {
      assert SameLoss(s.conns[k], s'.conns[k]);
      BadStays(s, s', k);
    }
    forall k, id | 0 <= k < |s'.conns| && s'.conns[k].open && Bad(s', k, id) ensures id in s'.conns[k].lost {
      assert SameLoss(s.conns[k], s'.conns[k]);
      assert Bad(s, k, id);
    }
  }

  lemma RoutesOf(s: Sys)
    requires Inv(s)
    ensures RoutesOk(s)
  {
    hide CallsOk, StagesOk, HandledOk, ConnOk, LostOk, RoutesOk;
  }

  lemma MovesNothingNew(s: Sys, a: Action)
    requires Inv(s) && Enabled(s, a)
    requires a.Alloc? || a.Burn? || a.Register? || a.Close? || a.ToServer? || a.ToClient? || a.Destroy?
    ensures NothingNew(s, Next(s, a))
  {
    hide ConnOk, LostOk, CallOk, TakeFrame, WellFormed, ServerHandles, Requested, Responded, TakeCall, StagesOk,
         HandledOk;
  }

  lemma ServerTakeNothingNew(s: Sys, k: nat)
    requires Enabled(s, ServerTake(k))
    ensures NothingNew(s, Next(s, ServerTake(k)))
  {
    hide CallOk, TakeFrame, WellFormed, ServerHandles, Requested, Responded, TakeCall;
    HandledSame(s.services, s.conns[k], TakeFrame(s.conns[k].serverBuf).rest, TakeFrame(s.conns[k].serverBuf).header);
  }

  lemma HandledSame(services: ServiceTable, c: Conn, rest: bytes, h: Header)
    ensures SameLoss(c, ServerHandles(services, c.(serverBuf := rest), h))
  {
    hide Dispatch;
  }

  lemma ClientTakeNothingNew(s: Sys, k: nat)
    requires Enabled(s, ClientTake(k))
    ensures NothingNew(s, Next(s, ClientTake(k)))
  {
    hide Next, Enabled;
    var c, run := ClientTakeEffect(s, k);
    var s' := Next(s, ClientTake(k));
    assert s'.via == s'.(conns := s.conns).via && s'.handled == s'.(conns := s.conns).handled
           && s'.issued == s'.(conns := s.conns).issued;
  }

  lemma OpenLoss(s: Sys)
    requires LossInv(s) && RoutesOk(s) && Enabled(s, Open)
    ensures LossInv(Next(s, Open))
  {
    hide Fits, RequestHeader, ResponseHeader, Serialize, Answer, TakeFrame, CallOk, WellFormed, ServerHandles,
         Requested, Responded, TakeCall;
    var s' := Next(s, Open);
    forall k | 0 <= k < |s'.conns| && Hurt(s'.conns[k])
      ensures SomeBad(s', k)
    {
      assert k < |s.conns| && s'.conns[k] == s.conns[k];
      BadStays(s, s', k);
    }
    forall k, id | 0 <= k < |s'.conns| && s'.conns[k].open && Bad(s', k, id) ensures id in s'.conns[k].lost {
      assert Bad(s, k, id) && k < |s.conns|;
    }
  }

  /** Who shuts down has met an invalid length, and that is there because of a bad call. */
  lemma StopLoss(s: Sys, a: Action, k: nat)
    requires Inv(s) && LossInv(s) && Enabled(s, a) && (a == ServerStop(k) || a == ClientStop(k))
    ensures LossInv(Next(s, a))
  {
    hide Inv, Bad, TakeFrame, CallOk, WellFormed, ServerHandles, Requested, Responded, TakeCall;
    var s' := Next(s, a);
    StopBlame(s, a, k);
    forall j | 0 <= j < |s'.conns| && Hurt(s'.conns[j])
      ensures SomeBad(s', j)
    {
      assert SomeBad(s, j);
      BadStays(s, s', j);
    }
    forall j, id | 0 <= j < |s'.conns| && s'.conns[j].open && Bad(s', j, id) ensures id in s'.conns[j].lost {
      SameBad(s, s', j, id);
    }
  }

  lemma SameBad(s: Sys, s': Sys, k: nat, id: int)
    requires s'.issued == s.issued && s'.via == s.via && s'.handled == s.handled
    ensures Bad(s', k, id) <==> Bad(s, k, id)
  {
    hide Fits, RequestHeader, ResponseHeader, Serialize, Answer;
  }

  lemma StopBlame(s: Sys, a: Action, k: nat)
    requires Inv(s) && Enabled(s, a) && (a == ServerStop(k) || a == ClientStop(k))
    ensures SomeBad(s, k)
  {
    hide Inv, TakeFrame, CallOk, WellFormed, ServerSideOk, StreamsOk, OncePerCall, Pipe, Blocked, TooLongRequest,
         TooLongResponse, Unanswered, Requests, Responses;
    var c := s.conns[k];
    ConnIs(s, k);
    NothingTaken();
    StreamParts(s, k, c);
    NeverUnparsed(c.serverBuf, c.toServer, Requests(c));
    NeverUnparsed(c.clientBuf, c.toClient, Responses(c));
    if a == ServerStop(k) {
      var id :| TooLongRequest(s, k, id);
      assert Bad(s, k, id);
    } else {
      var id :| TooLongResponse(s, k, id);
      assert Bad(s, k, id);
    }
  }

  lemma BlameOf(s: Sys, k: nat, c: Conn)
    requires ConnOk(s, k, c) && c.open
    ensures Blocked(c.serverBuf + c.toServer) || Blocked(c.clientBuf + c.toClient) ==> SomeBad(s, k)
  {
    hide ServerSideOk, StreamsOk, OncePerCall, Blocked, TooLongRequest, TooLongResponse, Unanswered;
    if Blocked(c.serverBuf + c.toServer) {
      var id :| TooLongRequest(s, k, id);
      assert Bad(s, k, id);
    }
    if Blocked(c.clientBuf + c.toClient) {
      var id :| TooLongResponse(s, k, id);
      assert Bad(s, k, id);
    }
  }

  // ---------------------------------------------------------------- sending and answering

  /** Handing a request to the connection changes its losses like this. */
  lemma RequestedLoss(c: Conn, id: int, h: Header)
    ensures var c' := Requested(c, id, h);
            && c'.open == c.open && c'.serverShut == c.serverShut && c'.clientShut == c.clientShut
            && (c'.lost == c.lost || (c'.lost == c.lost + {id} && c.open
                  && (c.clientShut || Blocked(c.serverBuf + c.toServer) || !Fits(h))))
            && (c.open && !Fits(h) ==> id in c'.lost)
  {
    hide Blocked, Fits, Frame;
  }

  lemma RespondedLoss(c: Conn, id: int, h: Option<Header>)
    ensures var c' := Responded(c, id, h);
            && c'.open == c.open && c'.serverShut == c.serverShut && c'.clientShut == c.clientShut
            && (c'.lost == c.lost || (c'.lost == c.lost + {id} && c.open
                  && (c.serverShut || Blocked(c.clientBuf + c.toClient) || h.None? || !Fits(h.value))))
            && (c.open && (h.None? || !Fits(h.value)) ==> id in c'.lost)
  {
    hide Blocked, Fits, Frame;
  }

  lemma SendNowhere(s: Sys, id: int)
    requires Enabled(s, Send(id)) && s.conns == []
    ensures NothingNew(s, Next(s, Send(id)))
  {
    hide TakeFrame, CallOk, WellFormed, ServerHandles, Requested, Responded, TakeCall, RequestHeader;
  }

  /** What sending changes, without the system around it. */
  lemma SendIs(s: Sys, id: int, k: nat)
    requires Enabled(s, Send(id)) && |s.conns| == k + 1
    ensures s.alive && id in s.unsent && id in s.issued
    ensures Next(s, Send(id)) == s.(unsent := s.unsent - {id}, via := s.via[id := k],
              conns := s.conns[k := Requested(s.conns[k], id, RequestHeader(id, s.issued[id]))])
  {
    hide TakeFrame, CallOk, WellFormed, ServerHandles, Requested, Responded, TakeCall, RequestHeader;
  }

  lemma SendLoss(s: Sys, id: int)
    requires Inv(s) && LossInv(s) && Enabled(s, Send(id))
    ensures LossInv(Next(s, Send(id)))
  {
    hide Inv, Next, Enabled, LossInv, ConnOk, Requested, RequestHeader, RoutesOk;
    var s' := Next(s, Send(id));
    if s.conns == [] {
      RoutesOf(s);
      SendNowhere(s, id);
      NothingNewKeeps(s, s');
    } else {
      var k := |s.conns| - 1;
      SendIs(s, id, k);
      SentBefore(s, id);
      SentExplained(s, s', k, id);
      SentBadLost(s, s', k, id);
      LossParts(s');
    }
  }

  lemma LossParts(s: Sys)
    ensures LossInv(s) <==> Explained(s) && BadLost(s)
  {}

  /** Whatever was wrong with connection k before is still explained, and what is new is. */
  lemma SentExplained(s: Sys, s': Sys, k: nat, id: int)
    requires Inv(s) && s.alive && LossInv(s) && k < |s.conns| && id in s.issued && id !in s.via
    requires s' == s.(unsent := s'.unsent, via := s.via[id := k],
                      conns := s.conns[k := Requested(s.conns[k], id, RequestHeader(id, s.issued[id]))])
    ensures Explained(s')
  {
    hide Inv, Bad, RequestHeader, Requested, Fits, Blocked, ConnOk;
    var h := RequestHeader(id, s.issued[id]);
    ConnIs(s, k);
    if s.conns[k].open { BlameOf(s, k, s.conns[k]); }
    RequestedLoss(s.conns[k], id, h);
    SentBad(s, s', k, id);
    forall j | 0 <= j < |s'.conns| && Hurt(s'.conns[j]) ensures SomeBad(s', j) {
      if SomeBad(s, j) { BadStays(s, s', j); }
    }
  }

  lemma SentBadLost(s: Sys, s': Sys, k: nat, id: int)
    requires Inv(s) && LossInv(s) && k < |s.conns| && id in s.issued && id !in s.via
    requires s' == s.(unsent := s'.unsent, via := s.via[id := k],
                      conns := s.conns[k := Requested(s.conns[k], id, RequestHeader(id, s.issued[id]))])
    ensures BadLost(s')
  {
    hide Inv, Bad, RequestHeader, Requested, Fits, Blocked;
    RequestedLoss(s.conns[k], id, RequestHeader(id, s.issued[id]));
    forall j, i | 0 <= j < |s'.conns| && s'.conns[j].open && Bad(s', j, i) ensures i in s'.conns[j].lost {
      SentBadIs(s, s', k, id, j, i);
    }
  }

  /** The call just sent is bad if its frame is too long. */
  lemma SentBad(s: Sys, s': Sys, k: nat, id: int)
    requires id in s.issued && s'.issued == s.issued && s'.via == s.via[id := k]
    ensures !Fits(RequestHeader(id, s.issued[id])) ==> Bad(s', k, id) && SomeBad(s', k)
  {
    hide Fits, RequestHeader;
    assert !Fits(RequestHeader(id, s.issued[id])) ==> Bad(s', k, id);
  }

  lemma SentBadIs(s: Sys, s': Sys, k: nat, id: int, j: nat, i: int)
    requires Inv(s) && id !in s.via && s'.issued == s.issued && s'.via == s.via[id := k] && s'.handled == s.handled
    requires Bad(s', j, i)
    ensures if i == id then j == k && !Fits(RequestHeader(id, s.issued[id])) else Bad(s, j, i)
  {
    hide Fits, RequestHeader, ResponseHeader, Serialize, Answer, ConnOk, LostOk, CallsOk, StagesOk;
  }

  lemma FinishLoss(s: Sys, k: nat, id: int, rsp: Message)
    requires Inv(s) && LossInv(s) && Enabled(s, Finish(k, id, rsp))
    ensures LossInv(Next(s, Finish(k, id, rsp)))
  {
    hide Inv, Bad, TakeFrame, CallOk, WellFormed, ServerHandles, Requested, Responded, TakeCall, Fits, Blocked,
         ConnOk, Answer, Awaits;
    var s' := Next(s, Finish(k, id, rsp));
    var c := s.conns[k];
    var answer := Answer(id, c.running[id].desc.output, rsp);
    ConnIs(s, k);
    Running(s, k, c, id);
    AwaitsIs(s, k, id);
    if c.open { BlameOf(s, k, c); }
    RespondedLoss(c.(running := c.running - {id}), id, answer);
    AnsweredBad(s, s', k, id, rsp);
    forall j | 0 <= j < |s'.conns| && Hurt(s'.conns[j])
      ensures SomeBad(s', j)
    {
      if SomeBad(s, j) { BadStays(s, s', j); }
    }
    forall j, i | 0 <= j < |s'.conns| && s'.conns[j].open && Bad(s', j, i) ensures i in s'.conns[j].lost {
      AnsweredBadIs(s, s', k, id, rsp, j, i);
    }
  }

  lemma AwaitsIs(s: Sys, k: nat, id: int)
    requires Awaits(s, k, id)
    ensures id in s.issued && id in s.via && s.via[id] == k && id !in s.handled
  {}

  lemma AnsweredBad(s: Sys, s': Sys, k: nat, id: int, rsp: Message)
    requires id in s.issued && id in s.via && s.via[id] == k && s'.issued == s.issued && s'.via == s.via
    requires s'.handled == s.handled[id := (HandlerOf(s.issued[id]), rsp)]
    ensures var answer := Answer(id, s.issued[id].desc.output, rsp);
            answer.None? || !Fits(answer.value) ==> Bad(s', k, id) && SomeBad(s', k)
  {
    hide Fits, RequestHeader, ResponseHeader, Serialize, Serializable;
    var answer := Answer(id, s.issued[id].desc.output, rsp);
    assert answer.None? || !Fits(answer.value) ==> Bad(s', k, id);
  }

  lemma AnsweredBadIs(s: Sys, s': Sys, k: nat, id: int, rsp: Message, j: nat, i: int)
    requires id in s.issued && id in s.via && s.via[id] == k && s'.issued == s.issued && s'.via == s.via
    requires s'.handled == s.handled[id := (HandlerOf(s.issued[id]), rsp)] && Bad(s', j, i)
    ensures var answer := Answer(id, s.issued[id].desc.output, rsp);
            Bad(s, j, i) || (i == id && j == k && (answer.None? || !Fits(answer.value)))
  {
    hide Fits, RequestHeader, Serialize, Serializable;
  }

  lemma LossStep(s: Sys, a: Action)
    requires Inv(s) && LossInv(s) && Enabled(s, a)
    ensures LossInv(Next(s, a))
  {
    hide Inv, LossInv, Next, Enabled, RoutesOk, NothingNew;
    RoutesOf(s);
    match a
    case Open => OpenLoss(s);
    case Send(id) => SendLoss(s, id);
    case Finish(k, id, rsp) => FinishLoss(s, k, id, rsp);
    case ServerStop(k) => StopLoss(s, a, k);
    case ClientStop(k) => StopLoss(s, a, k);
    case ServerTake(k) => ServerTakeNothingNew(s, k); NothingNewKeeps(s, Next(s, a));
    case ClientTake(k) => ClientTakeNothingNew(s, k); NothingNewKeeps(s, Next(s, a));
    case _ => MovesNothingNew(s, a); NothingNewKeeps(s, Next(s, a));
  }

  lemma {:induction false} RunLoss(s: Sys, acts: seq<Action>, t: Sys)
    requires Inv(s) && LossInv(s) && RunsTo(s, acts, t)
    ensures LossInv(t)
    decreases |acts|
  {
    hide Inv, LossInv, Next, Enabled;
    if acts != [] {
      StepInv(s, acts[0]);
      LossStep(s, acts[0]);
      RunLoss(Next(s, acts[0]), acts[1..], t);
    }
  }

  /** In every reachable state: calls are lost on an open connection if and only if a call over it had a
      frame that is too long or an answer that did not serialize; then at least that call is lost; and
      on a closed one they are lost only for such a reason. */
  lemma LostIffBad(services: ServiceTable, t: Sys, k: nat)
    requires Reachable(services, t) && k < |t.conns|
    ensures Hurt(t.conns[k]) ==> SomeBad(t, k)
    ensures t.conns[k].open ==> (t.conns[k].lost != {} <==> SomeBad(t, k))
    ensures t.conns[k].open ==> forall id :: Bad(t, k, id) ==> id in t.conns[k].lost
  {
    hide Inv, Bad, RunsTo;
    var acts :| RunsTo(Init(services), acts, t);
    InitInv(services);
    RunLoss(Init(services), acts, t);
  }

  // ---------------------------------------------------------------- frames that are too long

  /** A lost call went over this connection and never completes; and it was lost because some call over
      this connection has a frame that is too long or an answer that does not serialize. */
  lemma LostNeverCompletes(services: ServiceTable, t: Sys, k: nat, id: int)
    requires Reachable(services, t) && k < |t.conns| && id in t.conns[k].lost
    ensures id !in t.runs && id in t.via && t.via[id] == k && SomeBad(t, k)
  {
    hide ClientOk, ConnOk, Bad, Reachable;
    ReachableInv(services, t);
    LostIffBad(services, t, k);
  }

  /** Sending a frame that is too long over an open connection blocks the stream to the server. */
  lemma OversizedBlocks(services: ServiceTable, s: Sys, id: int)
    requires Reachable(services, s) && Enabled(s, Send(id)) && s.conns != []
    requires var c := s.conns[|s.conns| - 1]; c.open && !c.clientShut
    requires !Fits(RequestHeader(id, s.issued[id]))
    ensures var c := Next(s, Send(id)).conns[|s.conns| - 1];
            Blocked(c.serverBuf + c.toServer) && id in c.lost
  {
    hide Inv, StreamsOk, ServerSideOk, OncePerCall, BlameOk, Fits, RequestHeader, Frame, Blocked, Pipe, Requests,
         Responses, CallOk, TakeFrame, ServerHandles, TakeCall, Responded, Reachable;
    ReachableInv(services, s);
    var k := |s.conns| - 1;
    var c := s.conns[k];
    ConnIs(s, k);
    StreamParts(s, k, c);
    InvParts(s);
    IssuedHeaderOk(s, id);
    PipeSend(c.serverBuf, c.toServer, Requests(c), RequestHeader(id, s.issued[id]));
  }

  ghost predicate ServerBlocked(s: Sys, k: nat) {
    k < |s.conns| && Blocked(s.conns[k].serverBuf + s.conns[k].toServer)
  }

  // ---------------------------------------------------------------- such frames exist

  lemma OneByte()
    ensures Pow128(1) == 128
  {}

  lemma {:induction false} VarintWidth(v: nat, n: nat)
    requires v < Pow128(n) && n >= 1
    ensures 1 <= |VarintBytes(v)| <= n
  {
    if v >= 128 {
      assert n > 1 by { OneByte(); }
      VarintWidth(v / 128, n - 1);
    }
  }

  /** The bytes of a message's strings. */
  function Text(fields: seq<Value>, i: nat): nat
    decreases |fields| - i
  {
    if i >= |fields| then 0 else (if fields[i].Str? then |fields[i].s| else 0) + Text(fields, i + 1)
  }

  predicate Flat(schema: Schema) { |schema| < 0x2000_0000 && forall k :: k in schema ==> !k.Sub? }

  /** One field is encoded with at most twenty bytes more than its string has. */
  lemma FieldSize(schema: Schema, i: nat, v: Value)
    requires Flat(schema) && i < |schema| && WellFormedValue(schema, i, v) && (v.Str? ==> |v.s| < TWO31)
    ensures var text := if v.Str? then |v.s| else 0;
            text <= |RecordsBytes(FieldRecords(schema, i, v))| <= text + 20
  {
    hide RecordBytes;
    assert schema[i] in schema;
    var rs := FieldRecords(schema, i, v);
    if rs != [] {
      var r := rs[0];
      assert rs == [r] && [r][1..] == [];
      assert RecordsBytes([r]) == RecordBytes(r) + [];
      if v.Num? { NarrowWiden(schema[i], v.n); }
      RecordSize(r);
    }
  }

  lemma RecordSize(r: Record)
    requires ValidRecord(r) && !r.Group?
    ensures var text := if r.Len? then |r.data| else 0; text <= |RecordBytes(r)| <= text + 20
  {
    PowWidths();
    VarintWidth(TagOf(r), 10);
    match r
    case Varint(_, v) => VarintWidth(v, 10);
    case Len(_, d) => VarintWidth(|d|, 10);
    case _ =>
  }

  lemma {:induction false} FlatSize(schema: Schema, m: Message, i: nat)
    requires Flat(schema) && WellFormed(schema, m) && i <= |schema|
    requires forall v :: v in m.fields && v.Str? ==> |v.s| < TWO31
    ensures Text(m.fields, i) <= |RecordsBytes(RecordsFrom(schema, m.fields, i))|
         <= Text(m.fields, i) + 20 * (|schema| - i)
    decreases |schema| - i
  {
    hide FieldRecords, RecordsBytes, Flat, WellFormedValue;
    if i < |schema| {
      var v := m.fields[i];
      FieldSize(schema, i, v);
      FlatSize(schema, m, i + 1);
      RecordsPart(FieldRecords(schema, i, v), RecordsFrom(schema, m.fields, i + 1));
    } else {
      NoBytes();
    }
  }

  lemma NoBytes()
    ensures RecordsBytes([]) == []
  {}

  lemma FlatSerialized(schema: Schema, m: Message)
    requires Flat(schema) && WellFormed(schema, m) && m.unknown == []
    requires forall v :: v in m.fields && v.Str? ==> |v.s| < TWO31
    ensures Text(m.fields, 0) <= |Serialize(schema, m)| <= Text(m.fields, 0) + 20 * |schema|
  {
    FlatSize(schema, m, 0);
    hide RecordsFrom, RecordsBytes;
    assert RecordsFrom(schema, m.fields, 0) + [] == RecordsFrom(schema, m.fields, 0);
  }

  /** A login with a name of 64 MiB. */
  function LongLogin(desc: MethodDesc): Call {
    Call(desc, Message([Str(seq(MAX_FRAME, i => 0)), Str([])], []), Closure(0, []))
  }

  lemma LongRequest()
    ensures var m := Message([Str(seq(MAX_FRAME, i => 0)), Str([])], []);
            WellFormed(LOGIN_REQUEST, m) && MAX_FRAME <= |Serialize(LOGIN_REQUEST, m)| <= MAX_FRAME + 40
  {
    var m := Message([Str(seq(MAX_FRAME, i => 0)), Str([])], []);
    assert |LOGIN_REQUEST| == 2 && WellFormed(LOGIN_REQUEST, m);
    hide Serialize;
    assert Text(m.fields, 2) == 0 && Text(m.fields, 1) == 0;
    FlatSerialized(LOGIN_REQUEST, m);
  }

  /** Headers with such payloads serialize and do not fit. */
  lemma LongHeader(h: Header)
    requires WellFormed(HEADER, h) && h.unknown == []
    requires |h.fields[2].s| < 1000 && |h.fields[3].s| < 1000 && MAX_FRAME <= |h.fields[4].s| <= MAX_FRAME + 40
    ensures HeaderOk(h) && !Fits(h)
  {
    hide Serialize;
    var f := h.fields;
    assert |HEADER| == 5;
    assert Text(f, 5) == 0 && Text(f, 4) == |f[4].s|;
    assert Text(f, 3) == |f[3].s| + |f[4].s| && Text(f, 2) == |f[2].s| + |f[3].s| + |f[4].s|;
    assert Text(f, 1) == Text(f, 2) && Text(f, 0) == Text(f, 1);
    FlatSerialized(HEADER, h);
  }

  lemma LongLoginOk(services: ServiceTable, desc: MethodDesc, id: int)
    requires desc.input == LOGIN_REQUEST && |desc.output| < 0x2000_0000 && SameProto(services, desc)
    requires |desc.service| < 1000 && |desc.name| < 1000 && 1 <= id < TWO63
    ensures CallOk(services, id, LongLogin(desc)) && !Fits(RequestHeader(id, LongLogin(desc)))
  {
    hide Serialize, SameProto, WellFormed, Fits;
    LongRequest();
    RequestWellFormed(id, LongLogin(desc));
    LongHeader(RequestHeader(id, LongLogin(desc)));
  }

  /** The first connection, and the first call about to be sent over it. */
  lemma FirstSend(services: ServiceTable, c: Call) returns (s: Sys)
    requires CallOk(services, 1, c)
    ensures Reachable(services, s) && Enabled(s, Send(1)) && s.conns == [NEW_CONN]
    ensures 1 in s.issued && s.issued[1] == c && 1 in s.table
  {
    hide CallOk, RequestHeader, TakeFrame, WellFormed, ServerHandles, Responded, Requested, TakeCall, Reachable;
    var s0 := Init(services);
    InitReachable(services);
    ReachableStep(services, s0, Open);
    var s1 := Next(s0, Open);
    assert s1.conns == [NEW_CONN];
    ReachableStep(services, s1, Alloc(c));
    var s2 := Next(s1, Alloc(c));
    ReachableStep(services, s2, Register(1));
    s := Next(s2, Register(1));
  }

  lemma InitReachable(services: ServiceTable)
    ensures Reachable(services, Init(services))
  {
    assert RunsTo(Init(services), [], Init(services));
  }

  /** It happens: whatever services there are, one call with a name of 64 MiB as the first call over the
      first connection blocks that connection, and never completes. */
  lemma LongLoginBlocks(services: ServiceTable, desc: MethodDesc) returns (s: Sys)
    requires desc.input == LOGIN_REQUEST && |desc.output| < 0x2000_0000 && SameProto(services, desc)
    requires |desc.service| < 1000 && |desc.name| < 1000
    ensures Reachable(services, s) && s.alive && s.conns != [] && s.conns[0].open && ServerBlocked(s, 0)
    ensures TooLongRequest(s, 0, 1) && 1 in s.table && 1 in s.conns[0].lost
  {
    hide CallOk, Fits, RequestHeader, Blocked, Next, Enabled, Requested, SameProto, Reachable;
    var c := LongLogin(desc);
    LongLoginOk(services, desc, 1);
    var s1 := FirstSend(services, c);
    SendIs(s1, 1, 0);
    OversizedBlocks(services, s1, 1);
    RequestedOpen(s1.conns[0], 1, RequestHeader(1, c));
    ReachableStep(services, s1, Send(1));
    s := Next(s1, Send(1));
  }

  /** Calls that went over connection k since s are lost. */
  ghost predicate LaterLost(s: Sys, t: Sys, k: nat) {
    && k < |s.conns| && k < |t.conns|
    && forall id :: id in t.via && t.via[id] == k && id !in s.via ==> id in t.conns[k].lost
  }

  /** What becomes of a blocked connection k, and of what went over it, in one step. */
  ghost predicate StaysBlocked(s: Sys, s': Sys, k: nat) {
    && k < |s.conns| && s.conns[k].open && ServerBlocked(s', k) && LaterLost(s, s', k)
    && s.conns[k].lost <= s'.conns[k].lost && forall id :: id in s.via ==> id in s'.via && s'.via[id] == s.via[id]
  }

  lemma SendStays(s: Sys, id: int, k: nat)
    requires Inv(s) && Enabled(s, Send(id)) && ServerBlocked(s, k) && Next(s, Send(id)).conns[k].open
    ensures StaysBlocked(s, Next(s, Send(id)), k)
  {
    hide Inv, Blocked, Frame, TakeFrame, Fits, RequestHeader, ResponseHeader, Serialize, CallOk, Answer, Dispatch,
         TakeCall, WellFormed, TypeOf, IdOf;
    var c, frame := s.conns[k], Frame(RequestHeader(id, s.issued[id]));
    SentBefore(s, id);
    BlockedForGood(c.serverBuf + c.toServer, frame);
    Assoc(c.serverBuf, c.toServer, frame);
  }

  lemma ToServerStays(s: Sys, j: nat, n: nat, k: nat)
    requires Enabled(s, ToServer(j, n)) && ServerBlocked(s, k) && Next(s, ToServer(j, n)).conns[k].open
    ensures StaysBlocked(s, Next(s, ToServer(j, n)), k)
  {
    hide Inv, Blocked, Frame, TakeFrame, Fits, RequestHeader, ResponseHeader, Serialize, CallOk, Answer, Dispatch,
         TakeCall, WellFormed, TypeOf, IdOf;
    if j == k { PipeMove(s.conns[k].serverBuf, s.conns[k].toServer, n); }
  }

  lemma ServerTakeStays(s: Sys, j: nat, k: nat, s': Sys)
    requires Inv(s) && StepsTo(s, ServerTake(j), s') && ServerBlocked(s, k)
    requires k < |s'.conns| && s'.conns[k].open
    ensures StaysBlocked(s, s', k)
  {
    hide Inv, Blocked, Frame, TakeFrame, Fits, RequestHeader, ResponseHeader, Serialize, CallOk, Answer, Dispatch,
         TakeCall, WellFormed, TypeOf, IdOf;
    if j == k { TakeStaysBlocked(s, k); }
  }

  lemma FinishStays(s: Sys, j: nat, id: int, rsp: Message, k: nat)
    requires Enabled(s, Finish(j, id, rsp)) && ServerBlocked(s, k) && Next(s, Finish(j, id, rsp)).conns[k].open
    ensures StaysBlocked(s, Next(s, Finish(j, id, rsp)), k)
  {
    hide Inv, Blocked, Frame, TakeFrame, Fits, RequestHeader, ResponseHeader, Serialize, CallOk, Answer, Dispatch,
         TakeCall, WellFormed, TypeOf, IdOf;
  }

  lemma ClientTakeStays(s: Sys, j: nat, k: nat, s': Sys)
    requires StepsTo(s, ClientTake(j), s') && ServerBlocked(s, k) && k < |s'.conns| && s'.conns[k].open
    ensures StaysBlocked(s, s', k)
  {
    hide Next, Enabled, Blocked;
    var c, run := ClientTakeEffect(s, j);
    assert s'.via == s'.(conns := s.conns).via == s.via;
  }

  lemma OtherStays(s: Sys, a: Action, k: nat)
    requires Enabled(s, a) && ServerBlocked(s, k) && k < |Next(s, a).conns| && Next(s, a).conns[k].open
    requires !a.Send? && !a.ToServer? && !a.ServerTake? && !a.Finish? && !a.ClientTake?
    ensures StaysBlocked(s, Next(s, a), k)
  {
    hide Inv, Blocked, Frame, TakeFrame, Fits, RequestHeader, ResponseHeader, Serialize, CallOk, Answer, Dispatch,
         TakeCall, WellFormed, TypeOf, IdOf;
  }

  lemma StillBlocked(s: Sys, a: Action, k: nat)
    requires Inv(s) && Enabled(s, a) && ServerBlocked(s, k) && k < |Next(s, a).conns| && Next(s, a).conns[k].open
    ensures StaysBlocked(s, Next(s, a), k)
  {
    hide Inv, Next, Enabled, StaysBlocked, ServerBlocked;
    match a
    case Send(id) => SendStays(s, id, k);
    case ToServer(j, n) => ToServerStays(s, j, n, k);
    case ServerTake(j) => ServerTakeStays(s, j, k, Next(s, a));
    case Finish(j, id, rsp) => FinishStays(s, j, id, rsp, k);
    case ClientTake(j) => ClientTakeStays(s, j, k, Next(s, a));
    case _ => OtherStays(s, a, k);
  }

  lemma TakeStaysBlocked(s: Sys, k: nat)
    requires Inv(s) && s.alive && k < |s.conns| && TakeFrame(s.conns[k].serverBuf).Got?
    ensures Blocked(TakeFrame(s.conns[k].serverBuf).rest + s.conns[k].toServer)
       <==> Blocked(s.conns[k].serverBuf + s.conns[k].toServer)
  {
    hide Inv, Blocked, TakeFrame, Dispatch, Pipe, RequestOk, TypeOf, IdOf, ConnOk, Requests, Responses;
    InvParts(s);
    ConnIs(s, k);
    var h, id, c' := ServerFrame(s, k, s.conns[k]);
  }

  lemma {:induction false} RunStaysBlocked(s: Sys, acts: seq<Action>, t: Sys, k: nat)
    requires Inv(s) && RunsTo(s, acts, t) && ServerBlocked(s, k) && k < |t.conns| && t.conns[k].open
    ensures Inv(t) && ServerBlocked(t, k) && LaterLost(s, t, k) && s.conns[k].lost <= t.conns[k].lost
    ensures forall id :: id in s.via ==> id in t.via && t.via[id] == s.via[id]
    decreases |acts|
  {
    hide Inv, Enabled, Next, Blocked;
    if acts != [] {
      var s' := Next(s, acts[0]);
      ConnsGrow(s, acts[0]);
      OpenBefore(s', acts[1..], t, k);
      StillBlocked(s, acts[0], k);
      StepInv(s, acts[0]);
      RunStaysBlocked(s', acts[1..], t, k);
    }
  }

  /** A blocked connection is blocked for good: as long as it stays open, no call made over it from then
      on is ever completed. */
  lemma BlockedForever(services: ServiceTable, s: Sys, acts: seq<Action>, t: Sys, k: nat)
    requires Reachable(services, s) && RunsTo(s, acts, t) && ServerBlocked(s, k) && k < |t.conns| && t.conns[k].open
    ensures ServerBlocked(t, k)
    ensures forall id :: id in t.via && t.via[id] == k && id !in s.via ==> id in t.conns[k].lost && id !in t.runs
  {
    hide Inv, Blocked, RunsTo, Reachable;
    ReachableInv(services, s);
    RunStaysBlocked(s, acts, t, k);
    forall id | id in t.conns[k].lost ensures id !in t.runs { LostNotRun(t, k, id); }
  }

  // ---------------------------------------------------------------- answers that are too long

  ghost predicate ClientBlocked(s: Sys, k: nat) {
    k < |s.conns| && Blocked(s.conns[k].clientBuf + s.conns[k].toClient)
  }

  lemma FinishFacts(s: Sys, k: nat, id: int, rsp: Message)
    requires Inv(s) && Enabled(s, Finish(k, id, rsp))
    ensures s.conns[k].open ==> StreamsOk(s, k, s.conns[k])
    ensures var answer := Answer(id, s.conns[k].running[id].desc.output, rsp); answer.Some? ==> HeaderOk(answer.value)
  {
    hide StreamsOk, OncePerCall, BlameOk, HeaderOk, TakeFrame, WellFormed, CallOk, Answer, StagesOk, HandledOk;
    ConnIs(s, k);
    Running(s, k, s.conns[k], id);
    var output := s.conns[k].running[id].desc.output;
    if Answer(id, output, rsp).Some? { AnswerOk(id, output, rsp); }
  }

  /** Answering with a frame that is too long over an open connection blocks the stream to the client. */
  lemma OversizedAnswerBlocks(services: ServiceTable, s: Sys, k: nat, id: int, rsp: Message)
    requires Reachable(services, s) && Enabled(s, Finish(k, id, rsp)) && s.conns[k].open && !s.conns[k].serverShut
    requires var answer := Answer(id, s.conns[k].running[id].desc.output, rsp); answer.Some? && !Fits(answer.value)
    ensures ClientBlocked(Next(s, Finish(k, id, rsp)), k) && id in Next(s, Finish(k, id, rsp)).conns[k].lost
  {
    hide Inv, StreamsOk, Fits, Frame, Blocked, Pipe, Requests, Responses, HeaderOk, Answer, WellFormed, CallOk,
         TakeFrame, ServerHandles, TakeCall, Requested, Reachable;
    ReachableInv(services, s);
    FinishFacts(s, k, id, rsp);
    var c := s.conns[k];
    StreamParts(s, k, c);
    PipeSend(c.clientBuf, c.toClient, Responses(c), Answer(id, c.running[id].desc.output, rsp).value);
  }

  /** Answers handed to connection k since s are lost. */
  ghost predicate LaterAnswersLost(s: Sys, t: Sys, k: nat) {
    && k < |t.conns|
    && forall id :: id in t.handled && id !in s.handled && id in t.via && t.via[id] == k ==> id in t.conns[k].lost
  }

  ghost predicate AnswersStayBlocked(s: Sys, s': Sys, k: nat) {
    && k < |s.conns| && ClientBlocked(s', k) && LaterAnswersLost(s, s', k) && s.conns[k].lost <= s'.conns[k].lost
    && (forall id :: id in s.via ==> id in s'.via && s'.via[id] == s.via[id])
    && (forall id :: id in s.handled ==> id in s'.handled)
  }

  /** A step that answers no call. */
  lemma AnswersAside(s: Sys, s': Sys, k: nat)
    requires ClientBlocked(s, k) && k < |s'.conns| && s'.handled == s.handled
    requires forall id :: id in s.via ==> id in s'.via && s'.via[id] == s.via[id]
    requires var c, c' := s.conns[k], s'.conns[k];
             c.lost <= c'.lost && (Blocked(c.clientBuf + c.toClient) ==> Blocked(c'.clientBuf + c'.toClient))
    ensures AnswersStayBlocked(s, s', k)
  {
    hide Blocked;
  }

  lemma FinishBlocked(s: Sys, j: nat, id: int, rsp: Message, k: nat)
    requires Inv(s) && Enabled(s, Finish(j, id, rsp)) && ClientBlocked(s, k) && s.conns[k].open
    ensures AnswersStayBlocked(s, Next(s, Finish(j, id, rsp)), k)
  {
    hide Inv, ConnOk, Awaits, Blocked, Frame, TakeFrame, Fits, CallOk, Answer, WellFormed, Responded, Requested,
         ServerHandles, TakeCall;
    ConnIs(s, j);
    Running(s, j, s.conns[j], id);
    AwaitsIs(s, j, id);
    if j == k {
      AnswerBlocked(s.conns[k].(running := s.conns[k].running - {id}), id,
                    Answer(id, s.conns[k].running[id].desc.output, rsp));
    }
  }

  /** Nothing handed to a blocked stream arrives. */
  lemma AnswerBlocked(c: Conn, id: int, h: Option<Header>)
    requires c.open && Blocked(c.clientBuf + c.toClient)
    ensures var c' := Responded(c, id, h); c'.lost == c.lost + {id} && Blocked(c'.clientBuf + c'.toClient)
  {
    hide Blocked, Frame, Fits;
    if h.Some? {
      BlockedForGood(c.clientBuf + c.toClient, Frame(h.value));
      Assoc(c.clientBuf, c.toClient, Frame(h.value));
    }
  }

  lemma ClientTakeBlocked(s: Sys, j: nat, k: nat)
    requires Inv(s) && Enabled(s, ClientTake(j)) && ClientBlocked(s, k)
    ensures AnswersStayBlocked(s, Next(s, ClientTake(j)), k)
  {
    hide Inv, TakeFrame, Blocked, Next, Enabled;
    var c, run := ClientTakeEffect(s, j);
    var s' := Next(s, ClientTake(j));
    assert s'.(conns := s.conns).via == s'.via == s.via && s'.(conns := s.conns).handled == s'.handled == s.handled;
    if j == k { TakeStaysClientBlocked(s, k); }
    AnswersAside(s, s', k);
  }

  lemma TakeStaysClientBlocked(s: Sys, k: nat)
    requires Inv(s) && s.alive && k < |s.conns| && TakeFrame(s.conns[k].clientBuf).Got?
    ensures Blocked(TakeFrame(s.conns[k].clientBuf).rest + s.conns[k].toClient)
       <==> Blocked(s.conns[k].clientBuf + s.conns[k].toClient)
  {
    hide Inv, ConnOk, TakeFrame, TypeOf, IdOf, Blocked, ResponseFor, Pipe, Requests, Responses, SentOver, TakeCall;
    ConnIs(s, k);
    InvParts(s);
    var h, id, c := ClientFrame(s, k, s.conns[k]);
  }

  lemma ToClientBlocked(s: Sys, j: nat, n: nat, k: nat)
    requires Enabled(s, ToClient(j, n)) && ClientBlocked(s, k)
    ensures AnswersStayBlocked(s, Next(s, ToClient(j, n)), k)
  {
    hide Blocked, TakeFrame, CallOk, WellFormed, Requested, Responded, ServerHandles, TakeCall;
    if j == k { PipeMove(s.conns[k].clientBuf, s.conns[k].toClient, n); }
    AnswersAside(s, Next(s, ToClient(j, n)), k);
  }

  lemma SendAside(s: Sys, id: int, k: nat)
    requires Inv(s) && Enabled(s, Send(id)) && ClientBlocked(s, k)
    ensures AnswersStayBlocked(s, Next(s, Send(id)), k)
  {
    hide Inv, Blocked, TakeFrame, CallOk, WellFormed, Requested, Responded, ServerHandles, TakeCall, RequestHeader;
    SentBefore(s, id);
    if s.conns != [] { RequestedAside(s.conns[|s.conns| - 1], id, RequestHeader(id, s.issued[id])); }
    AnswersAside(s, Next(s, Send(id)), k);
  }

  lemma RequestedAside(c: Conn, id: int, h: Header)
    ensures var c' := Requested(c, id, h);
            c'.clientBuf == c.clientBuf && c'.toClient == c.toClient && c.lost <= c'.lost
  {
    hide Blocked, Fits, Frame;
  }

  lemma ServerTakeAside(s: Sys, j: nat, k: nat)
    requires Enabled(s, ServerTake(j)) && ClientBlocked(s, k)
    ensures AnswersStayBlocked(s, Next(s, ServerTake(j)), k)
  {
    hide Blocked, TakeFrame, CallOk, WellFormed, Requested, Responded, ServerHandles, TakeCall;
    var c := s.conns[j];
    HandledAside(s.services, c, TakeFrame(c.serverBuf).rest, TakeFrame(c.serverBuf).header);
    AnswersAside(s, Next(s, ServerTake(j)), k);
  }

  lemma HandledAside(services: ServiceTable, c: Conn, rest: bytes, h: Header)
    ensures var c' := ServerHandles(services, c.(serverBuf := rest), h);
            c'.clientBuf == c.clientBuf && c'.toClient == c.toClient && c'.lost == c.lost
  {
    hide Dispatch;
  }

  lemma OtherAside(s: Sys, a: Action, k: nat)
    requires Enabled(s, a) && ClientBlocked(s, k) && k < |Next(s, a).conns| && Next(s, a).conns[k].open
    requires !a.Send? && !a.ToClient? && !a.ServerTake? && !a.Finish? && !a.ClientTake?
    ensures AnswersStayBlocked(s, Next(s, a), k)
  {
    hide Blocked, TakeFrame, CallOk, WellFormed, Requested, Responded, ServerHandles, TakeCall;
    AnswersAside(s, Next(s, a), k);
  }

  lemma AnswersStill(s: Sys, a: Action, k: nat)
    requires Inv(s) && Enabled(s, a) && ClientBlocked(s, k) && s.conns[k].open
    requires k < |Next(s, a).conns| && Next(s, a).conns[k].open
    ensures AnswersStayBlocked(s, Next(s, a), k)
  {
    hide Inv, Next, Enabled, AnswersStayBlocked;
    hide Blocked;
    match a
    case Send(id) => SendAside(s, id, k);
    case ToClient(j, n) => ToClientBlocked(s, j, n, k);
    case ServerTake(j) => ServerTakeAside(s, j, k);
    case Finish(j, id, rsp) => FinishBlocked(s, j, id, rsp, k);
    case ClientTake(j) => ClientTakeBlocked(s, j, k);
    case _ => OtherAside(s, a, k);
  }

  lemma {:induction false} RunAnswersBlocked(s: Sys, acts: seq<Action>, t: Sys, k: nat)
    requires Inv(s) && RunsTo(s, acts, t) && ClientBlocked(s, k) && k < |t.conns| && t.conns[k].open
    ensures Inv(t) && AnswersStayBlocked(s, t, k)
    decreases |acts|
  {
    hide Inv, Enabled, Next, Blocked;
    if acts != [] {
      var s' := Next(s, acts[0]);
      ConnsGrow(s, acts[0]);
      OpenBefore(s', acts[1..], t, k);
      AnswersStill(s, acts[0], k);
      StepInv(s, acts[0]);
      RunAnswersBlocked(s', acts[1..], t, k);
      AnsweredMeanwhile(s, s', t, k);
    }
  }

  lemma AnsweredMeanwhile(s: Sys, s': Sys, t: Sys, k: nat)
    requires Inv(s') && AnswersStayBlocked(s, s', k) && AnswersStayBlocked(s', t, k)
    ensures AnswersStayBlocked(s, t, k)
  {
    hide ConnOk, CallsOk, StagesOk, RoutesOk, LostOk, Blocked, WellFormed;
  }

  /** The other direction: once an answer that is too long has blocked the stream to the client, no call
      over this connection that was still unanswered is ever completed, and those that are answered later
      are lost. */
  lemma AnswersBlockedForever(services: ServiceTable, s: Sys, acts: seq<Action>, t: Sys, k: nat)
    requires Reachable(services, s) && RunsTo(s, acts, t) && ClientBlocked(s, k) && k < |t.conns| && t.conns[k].open
    ensures ClientBlocked(t, k)
    ensures forall id :: id in t.via && t.via[id] == k && id !in s.handled ==>
              id !in t.runs && (id in t.handled ==> id in t.conns[k].lost)
  {
    hide Inv, Blocked, RunsTo, Reachable;
    ReachableInv(services, s);
    RunAnswersBlocked(s, acts, t, k);
    forall id | id in t.via && t.via[id] == k && id !in s.handled ensures id !in t.runs {
      if id in t.handled { LostNotRun(t, k, id); } else { UnhandledNotRun(t, id); }
    }
  }

  lemma UnhandledNotRun(t: Sys, id: int)
    requires Inv(t) && id !in t.handled
    ensures id !in t.runs
  {
    hide ConnOk, CallsOk, StagesOk, RoutesOk, LostOk, WellFormed;
  }

  lemma LostNotRun(t: Sys, k: nat, id: int)
    requires Inv(t) && k < |t.conns| && id in t.conns[k].lost
    ensures id !in t.runs
  {
    hide ClientOk, ConnOk;
  }
}
