/** The generated message classes in their own shape: pointer-advancing parse loops, guarded writes,
    accumulated sizes, field-by-field merges. Each method is proved to do what module Messages says
    for the class's schema, so the theorems there hold of it.
    RpcHeader is src/rpc.pb.cc, ResultCode and LoginResponse are example/user.pb.cc. */
module Generated {
  import opened Wire
  import opened Messages

  // ---------------------------------------------------------------- the parse loop

  /** How far a parse loop has come: the records in front of `ptr` have been applied to the object. */
  ghost predicate Parsed(schema: Schema, start: Message, s: bytes, ptr: nat, rs: seq<Record>, now: Message) {
    && ptr <= |s| && |start.fields| == |schema|
    && ParseRecords(s) == Prepend(rs, ParseRecords(s[ptr..]))
    && Fold(schema, start, rs) == Some(now)
  }

  lemma ParseBegins(schema: Schema, start: Message, s: bytes)
    requires |start.fields| == |schema|
    ensures Parsed(schema, start, s, 0, [], start)
  {
    assert s[0..] == s;
    PrependTwice([], [], ParseRecords(s));
  }

  /** One record was read and applied. */
  lemma ParseTurn(schema: Schema, start: Message, s: bytes, ptr: nat, rs: seq<Record>, now: Message,
                  r: Record, n: nat, next: Message)
    requires Parsed(schema, start, s, ptr, rs, now) && ptr < |s|
    requires ReadRecord(s[ptr..]) == Some((r, n)) && Step(schema, now, r) == Some(next)
    ensures Parsed(schema, start, s, ptr + n, rs + [r], next)
  {
    hide Step, ReadRecord;
    assert s[ptr..][n..] == s[ptr + n..];
    PrependTwice(rs, [r], ParseRecords(s[ptr + n..]));
    SnocStep(schema, start, rs, r);
  }

  /** A record that cannot be read, or cannot be applied, spoils the whole message. */
  lemma ParseFails(schema: Schema, start: Message, s: bytes, ptr: nat, rs: seq<Record>, now: Message)
    requires Parsed(schema, start, s, ptr, rs, now) && ptr < |s|
    requires ReadRecord(s[ptr..]).None? || Step(schema, now, ReadRecord(s[ptr..]).value.0).None?
    ensures ParseInto(schema, start, s) == None
  {
    hide Step, ReadRecord;
    if ReadRecord(s[ptr..]).Some? && ParseRecords(s).Some? {
      var (r, n) := ReadRecord(s[ptr..]).value;
      var rest := ParseRecords(s[ptr..][n..]).value;
      assert ParseRecords(s).value == rs + ([r] + rest) == (rs + [r]) + rest;
      SnocStep(schema, start, rs, r);
      FoldConcat(schema, start, rs + [r], rest);
    }
  }

  lemma ParseEnds(schema: Schema, start: Message, s: bytes, rs: seq<Record>, now: Message)
    requires Parsed(schema, start, s, |s|, rs, now)
    ensures ParseInto(schema, start, s) == Some(now)
  {
    assert rs + [] == rs;
  }

  lemma TagAndBody(s: bytes, tag: nat, n: nat)
    requires ReadTag(s) == Some((tag, n))
    ensures ReadRecord(s) == match ReadBody(tag, s[n..]) case None => None case Some((r, m)) => Some((r, n + m))
  {}

  lemma NoTagNoRecord(s: bytes)
    requires ReadTag(s).None?
    ensures ReadRecord(s).None?
  {}

  /** A varint record of a known field replaces the field. */
  lemma VarintStep(schema: Schema, m: Message, i: nat, v: nat)
    requires |m.fields| == |schema| && i < |schema|
    requires schema[i] == Int32 || schema[i] == UInt32 || schema[i] == Bool
    ensures Step(schema, m, Varint(i + 1, v)) == Some(m.(fields := m.fields[i := Num(Narrow(schema[i], v))]))
  {}

  /** A record of a submessage field is parsed into the submessage. */
  lemma SubStep(schema: Schema, m: Message, i: nat, data: bytes)
    requires |m.fields| == |schema| && i < |schema| && schema[i].Sub?
    ensures Step(schema, m, Len(i + 1, data))
         == match ParseInto(schema[i].schema, SubMessage(schema[i].schema, m.fields[i]), data)
            case None => None
            case Some(x) => Some(m.(fields := m.fields[i := Nested(Some(x))]))
  {}

  // ---------------------------------------------------------------- serializing

  /** The bytes of the fields from i on are the bytes of field i and then those behind it. */
  lemma FieldBytes(schema: Schema, fields: seq<Value>, i: nat)
    requires i < |schema| == |fields|
    ensures RecordsBytes(RecordsFrom(schema, fields, i))
         == RecordsBytes(FieldRecords(schema, i, fields[i])) + RecordsBytes(RecordsFrom(schema, fields, i + 1))
  {
    RecordsBytesConcat(FieldRecords(schema, i, fields[i]), RecordsFrom(schema, fields, i + 1));
  }

  lemma OneRecord(r: Record)
    ensures RecordsBytes([r]) == RecordBytes(r)
  {
    assert [r][1..] == [] && RecordBytes(r) + [] == RecordBytes(r);
  }

  /** What the fields from i on and the unknown records write. */
  function Rest(schema: Schema, m: Message, i: nat): bytes
    requires i <= |schema|
  {
    RecordsBytes(RecordsFrom(schema, m.fields, i)) + RecordsBytes(m.unknown)
  }

  lemma RestStarts(schema: Schema, m: Message)
    ensures Serialize(schema, m) == Rest(schema, m, 0)
  {
    RecordsBytesConcat(RecordsFrom(schema, m.fields, 0), m.unknown);
  }

  lemma RestStep(schema: Schema, m: Message, i: nat)
    requires i < |schema| == |m.fields|
    ensures FieldRecords(schema, i, m.fields[i]) == [] ==> Rest(schema, m, i) == Rest(schema, m, i + 1)
    ensures |FieldRecords(schema, i, m.fields[i])| == 1 ==>
              Rest(schema, m, i) == RecordBytes(FieldRecords(schema, i, m.fields[i])[0]) + Rest(schema, m, i + 1)
  {
    hide RecordBytes, FieldRecords;
    FieldBytes(schema, m.fields, i);
    var rs := FieldRecords(schema, i, m.fields[i]);
    if |rs| == 1 {
      assert rs == [rs[0]];
      OneRecord(rs[0]);
    }
  }

  /** One field has been written behind `target`, or nothing when it is at its default. */
  lemma Written(schema: Schema, m: Message, i: nat, target: bytes, all: bytes)
    requires i < |schema| == |m.fields| && target + Rest(schema, m, i) == all
    ensures FieldRecords(schema, i, m.fields[i]) == [] ==> target + Rest(schema, m, i + 1) == all
    ensures |FieldRecords(schema, i, m.fields[i])| == 1 ==>
              target + RecordBytes(FieldRecords(schema, i, m.fields[i])[0]) + Rest(schema, m, i + 1) == all
  {
    hide RecordBytes, FieldRecords, Rest;
    RestStep(schema, m, i);
  }

  lemma RestEnds(schema: Schema, m: Message)
    ensures Rest(schema, m, |schema|) == RecordsBytes(m.unknown)
  {}

  /** `VarintSize32` and its kin: the number of groups of seven bits. */
  function VarintSize(v: nat): (n: nat)
    ensures n >= 1
  {
    if v < 128 then 1 else 1 + VarintSize(v / 128)
  }

  lemma {:induction false} VarintSizeIsLength(v: nat)
    ensures VarintSize(v) == |VarintBytes(v)|
  {
    if v >= 128 { VarintSizeIsLength(v / 128); }
  }

  /** `BytesSize`: a length prefix and the bytes. */
  function BytesSize(s: bytes): nat { VarintSize(|s|) + |s| }

  lemma LenRecordSize(num: nat, s: bytes)
    requires 1 <= num <= 15
    ensures |RecordBytes(Len(num, s))| == 1 + BytesSize(s)
  {
    VarintSizeIsLength(|s|);
  }

  lemma NumberInRange(schema: Schema, m: Message, i: nat)
    requires WellFormed(schema, m) && i < |schema| && m.fields[i].Num?
    ensures InRange(schema[i], m.fields[i].n) && Widen(m.fields[i].n) >= 0
  {
    assert WellFormedValue(schema, i, m.fields[i]);
  }

  lemma SubWellFormed(schema: Schema, m: Message, i: nat)
    requires WellFormed(schema, m) && i < |schema| && schema[i].Sub?
    ensures m.fields[i].Nested? && (m.fields[i].m.Some? ==> WellFormed(schema[i].schema, m.fields[i].m.value))
  {
    assert WellFormedValue(schema, i, m.fields[i]);
  }

  // ---------------------------------------------------------------- Krpc.RpcHeader

  class RpcHeader {
    var kind: int            // type
    var id: nat
    var serviceName: bytes
    var methodName: bytes
    var payload: bytes
    var unknown: seq<Record>
    var cachedSize: nat

    ghost function Value(): (m: Message)
      reads this
      ensures |m.fields| == |HEADER|
    {
      Message([Num(kind), Num(id), Str(serviceName), Str(methodName), Str(payload)], unknown)
    }

    constructor ()
      ensures Value() == Default(HEADER)
    {
      kind, id, serviceName, methodName, payload, unknown, cachedSize := 0, 0, [], [], [], [], 0;
    }

    method Clear()
      modifies this
      ensures Value() == Default(HEADER)
    {
      serviceName, methodName, payload := [], [], [];
      id, kind := 0, 0;
      unknown := [];
    }

    /** The field with the tag's number, when the tag is the one the generated switch expects. */
    method ParseField(tag: nat, s: bytes) returns (r: Option<nat>)
      modifies this
      ensures match ReadBody(tag, s)
              case None => r == None
              case Some((rec, n)) => r == Some(n) && Step(HEADER, old(Value()), rec) == Some(Value())
    {
      hide ReadVarint, FromLittleEndian, ReadGroup, Parse, ParseInto, Serialize;
      if tag / 8 == 1 && tag % 256 == 8 {
        var v := ReadVarint(s, 10);
        if v.None? { return None; }
        kind := Narrow(Int32, v.value.0 % TWO64);
        VarintStep(HEADER, old(Value()), 0, v.value.0 % TWO64);
        assert old(Value()).fields[0 := Num(kind)] == Value().fields;
        return Some(v.value.1);
      } else if tag / 8 == 2 && tag % 256 == 17 {
        if |s| < 8 { return None; }
        id := FromLittleEndian(s[..8]);
        assert old(Value()).fields[1 := Num(id)] == Value().fields;
        return Some(8);
      } else if tag / 8 == 3 && tag % 256 == 26 {
        var body := ReadBody(tag, s);
        if body.None? { return None; }
        serviceName := body.value.0.data;
        assert old(Value()).fields[2 := Str(serviceName)] == Value().fields;
        return Some(body.value.1);
      } else if tag / 8 == 4 && tag % 256 == 34 {
        var body := ReadBody(tag, s);
        if body.None? { return None; }
        methodName := body.value.0.data;
        assert old(Value()).fields[3 := Str(methodName)] == Value().fields;
        return Some(body.value.1);
      } else if tag / 8 == 5 && tag % 256 == 42 {
        var body := ReadBody(tag, s);
        if body.None? { return None; }
        payload := body.value.0.data;
        assert old(Value()).fields[4 := Str(payload)] == Value().fields;
        return Some(body.value.1);
      } else {
        if tag == 0 || tag % 8 == 4 { return None; }
        var body := ReadBody(tag, s);
        if body.None? { return None; }
        unknown := unknown + [body.value.0];
        return Some(body.value.1);
      }
    }

    method InternalParse(s: bytes) returns (ok: bool)
      modifies this
      ensures match ParseInto(HEADER, old(Value()), s)
              case None => !ok
              case Some(m) => ok && Value() == m
    {
      hide Step, Fold, ParseInto, ParseRecords, ReadRecord, ReadBody, Prepend, Parsed;
      ghost var start := Value();
      ghost var rs: seq<Record> := [];
      var ptr := 0;
      ParseBegins(HEADER, start, s);
      while ptr < |s|
        invariant ptr <= |s| && Parsed(HEADER, start, s, ptr, rs, Value())
      {
        ghost var now := Value();
        var t := ReadTag(s[ptr..]);
        if t.None? {
          NoTagNoRecord(s[ptr..]);
          ParseFails(HEADER, start, s, ptr, rs, now);
          return false;
        }
        var (tag, n) := t.value;
        TagAndBody(s[ptr..], tag, n);
        assert s[ptr..][n..] == s[ptr + n..];
        var m := ParseField(tag, s[ptr + n..]);
        if m.None? {
          ParseFails(HEADER, start, s, ptr, rs, now);
          return false;
        }
        ghost var rec := ReadBody(tag, s[ptr + n..]).value.0;
        ParseTurn(HEADER, start, s, ptr, rs, now, rec, n + m.value, Value());
        rs := rs + [rec];
        ptr := ptr + n + m.value;
      }
      ParseEnds(HEADER, start, s, rs, Value());
      return true;
    }

    method ParseFromString(s: bytes) returns (ok: bool)
      modifies this
      ensures match Parse(HEADER, s) case None => !ok case Some(m) => ok && Value() == m
    {
      Clear();
      ok := InternalParse(s);
    }

    /** Writes every field that is not at its default, in field order. */
    method InternalSerialize() returns (target: bytes)
      requires WellFormed(HEADER, Value())
      ensures target == Serialize(HEADER, Value())
    {
      hide RecordBytes, Rest, Serialize, RecordsFrom, WellFormed;
      NumberInRange(HEADER, Value(), 0);
      ghost var m, all := Value(), Serialize(HEADER, Value());
      RestStarts(HEADER, m);
      assert [] + all == all;
      target := [];
      Written(HEADER, m, 0, target, all);
      if kind != 0 { target := target + RecordBytes(Varint(1, Widen(kind))); }
      Written(HEADER, m, 1, target, all);
      if id != 0 { target := target + RecordBytes(Fixed64(2, id)); }
      Written(HEADER, m, 2, target, all);
      if serviceName != [] { target := target + RecordBytes(Len(3, serviceName)); }
      Written(HEADER, m, 3, target, all);
      if methodName != [] { target := target + RecordBytes(Len(4, methodName)); }
      Written(HEADER, m, 4, target, all);
      if payload != [] { target := target + RecordBytes(Len(5, payload)); }
      RestEnds(HEADER, m);
      target := target + RecordsBytes(unknown);
    }

    /** Adds up the sizes, in the order of the generated code, and caches the sum. */
    method ByteSizeLong() returns (total: nat)
      requires WellFormed(HEADER, Value())
      modifies `cachedSize
      ensures total == cachedSize == |Serialize(HEADER, Value())|
    {
      hide Serialize, WellFormed, RecordsBytes, VarintSize, BytesSize, VarintBytes;
      NumberInRange(HEADER, Value(), 0);
      total := 0;
      if serviceName != [] { total := total + 1 + BytesSize(serviceName); }
      if methodName != [] { total := total + 1 + BytesSize(methodName); }
      if payload != [] { total := total + 1 + BytesSize(payload); }
      if id != 0 { total := total + 1 + 8; }
      if kind != 0 { total := total + 1 + VarintSize(Widen(kind)); }
      total := total + |RecordsBytes(unknown)|;
      HeaderSize(Value());
      cachedSize := total;
    }

    method SerializeToString() returns (r: Option<bytes>)
      requires WellFormed(HEADER, Value())
      modifies `cachedSize
      ensures r == if Serializable(HEADER, Value()) then Some(Serialize(HEADER, Value())) else None
    {
      var size := ByteSizeLong();
      if size >= TWO31 { return None; }
      var out := InternalSerialize();
      return Some(out);
    }

    /** `MergeImpl`: set fields of `from` replace the receiver's. */
    method MergeFrom(from: RpcHeader)
      requires from != this
      modifies this
      ensures Value() == Merge(HEADER, old(Value()), from.Value())
    {
      hide MergeFields;
      ghost var a, b := Value().fields, from.Value().fields;
      if from.serviceName != [] { serviceName := from.serviceName; }
      if from.methodName != [] { methodName := from.methodName; }
      if from.payload != [] { payload := from.payload; }
      if from.id != 0 { id := from.id; }
      if from.kind != 0 { kind := from.kind; }
      unknown := unknown + from.unknown;
      MergeFieldsAt(HEADER, a, b, 0, 0);
      MergeFieldsAt(HEADER, a, b, 0, 1);
      MergeFieldsAt(HEADER, a, b, 0, 2);
      MergeFieldsAt(HEADER, a, b, 0, 3);
      MergeFieldsAt(HEADER, a, b, 0, 4);
      assert Value().fields == MergeFields(HEADER, a, b, 0);
    }

    method CopyFrom(from: RpcHeader)
      requires WellFormed(HEADER, from.Value())
      modifies this
      ensures Value() == old(from.Value())
    {
      if from == this { return; }
      Clear();
      MergeFrom(from);
      MergeIntoDefault(HEADER, from.Value());
    }
  }

  /** The size of a header, field by field. */
  lemma HeaderSize(m: Message)
    requires WellFormed(HEADER, m)
    ensures |Serialize(HEADER, m)| == FieldSize(HEADER, 0, m.fields[0]) + FieldSize(HEADER, 1, m.fields[1])
          + FieldSize(HEADER, 2, m.fields[2]) + FieldSize(HEADER, 3, m.fields[3]) + FieldSize(HEADER, 4, m.fields[4])
          + |RecordsBytes(m.unknown)|
  {
    hide FieldSize, Rest, Serialize, WellFormed, RecordsBytes;
    RestStarts(HEADER, m);
    RestSize(HEADER, m, 0);
    RestSize(HEADER, m, 1);
    RestSize(HEADER, m, 2);
    RestSize(HEADER, m, 3);
    RestSize(HEADER, m, 4);
    RestEnds(HEADER, m);
  }

  function FieldSize(schema: Schema, i: nat, v: Value): nat
    requires i < |schema|
  {
    match v
    case Num(n) =>
      if n == 0 then 0
      else if schema[i].Fixed64Bits? then 9
      else if Widen(n) < 0 then 0
      else 1 + VarintSize(Widen(n))
    case Str(s) => if s == [] then 0 else 1 + BytesSize(s)
    case Nested(None) => 0
    case Nested(Some(m)) => if schema[i].Sub? then 1 + BytesSize(Serialize(schema[i].schema, m)) else 0
  }

  lemma RestSize(schema: Schema, m: Message, i: nat)
    requires i < |schema| <= 15 && WellFormed(schema, m)
    ensures |Rest(schema, m, i)| == FieldSize(schema, i, m.fields[i]) + |Rest(schema, m, i + 1)|
  {
    hide Rest, Serialize;
    RestStep(schema, m, i);
    assert WellFormedValue(schema, i, m.fields[i]);
    match m.fields[i] {
      case Num(n) => if n > 0 || (n < 0 && !schema[i].Fixed64Bits?) { VarintSizeIsLength(Widen(n)); }
      case Str(s) => LenRecordSize(i + 1, s);
      case Nested(None) =>
      case Nested(Some(mm)) => if schema[i].Sub? { LenRecordSize(i + 1, Serialize(schema[i].schema, mm)); }
    }
  }

  // ---------------------------------------------------------------- Kuser.ResultCode

  class ResultCode {
    var errcode: int
    var errmsg: bytes
    var unknown: seq<Record>
    var cachedSize: nat

    ghost function Value(): (m: Message)
      reads this
      ensures |m.fields| == |RESULT_CODE|
    {
      Message([Num(errcode), Str(errmsg)], unknown)
    }

    constructor ()
      ensures Value() == Default(RESULT_CODE)
    {
      errcode, errmsg, unknown, cachedSize := 0, [], [], 0;
    }

    method ParseField(tag: nat, s: bytes) returns (r: Option<nat>)
      modifies this
      ensures match ReadBody(tag, s)
              case None => r == None
              case Some((rec, n)) => r == Some(n) && Step(RESULT_CODE, old(Value()), rec) == Some(Value())
    {
      if tag / 8 == 1 && tag % 256 == 8 {
        var v := ReadVarint(s, 10);
        if v.None? { return None; }
        errcode := Narrow(Int32, v.value.0 % TWO64);
        VarintStep(RESULT_CODE, old(Value()), 0, v.value.0 % TWO64);
        assert old(Value()).fields[0 := Num(errcode)] == Value().fields;
        return Some(v.value.1);
      } else if tag / 8 == 2 && tag % 256 == 18 {
        var body := ReadBody(tag, s);
        if body.None? { return None; }
        errmsg := body.value.0.data;
        assert old(Value()).fields[1 := Str(errmsg)] == Value().fields;
        return Some(body.value.1);
      } else {
        if tag == 0 || tag % 8 == 4 { return None; }
        var body := ReadBody(tag, s);
        if body.None? { return None; }
        unknown := unknown + [body.value.0];
        return Some(body.value.1);
      }
    }

    method InternalParse(s: bytes) returns (ok: bool)
      modifies this
      ensures match ParseInto(RESULT_CODE, old(Value()), s)
              case None => !ok
              case Some(m) => ok && Value() == m
    {
      hide Step, Fold, ParseInto, ParseRecords, ReadRecord, ReadBody, Prepend, Parsed;
      ghost var start := Value();
      ghost var rs: seq<Record> := [];
      var ptr := 0;
      ParseBegins(RESULT_CODE, start, s);
      while ptr < |s|
        invariant ptr <= |s| && Parsed(RESULT_CODE, start, s, ptr, rs, Value())
      {
        ghost var now := Value();
        var t := ReadTag(s[ptr..]);
        if t.None? {
          NoTagNoRecord(s[ptr..]);
          ParseFails(RESULT_CODE, start, s, ptr, rs, now);
          return false;
        }
        var (tag, n) := t.value;
        TagAndBody(s[ptr..], tag, n);
        assert s[ptr..][n..] == s[ptr + n..];
        var m := ParseField(tag, s[ptr + n..]);
        if m.None? {
          ParseFails(RESULT_CODE, start, s, ptr, rs, now);
          return false;
        }
        ghost var rec := ReadBody(tag, s[ptr + n..]).value.0;
        ParseTurn(RESULT_CODE, start, s, ptr, rs, now, rec, n + m.value, Value());
        rs := rs + [rec];
        ptr := ptr + n + m.value;
      }
      ParseEnds(RESULT_CODE, start, s, rs, Value());
      return true;
    }

    method InternalSerialize() returns (target: bytes)
      requires WellFormed(RESULT_CODE, Value())
      ensures target == Serialize(RESULT_CODE, Value())
    {
      hide RecordBytes, Rest, Serialize, RecordsFrom, WellFormed;
      NumberInRange(RESULT_CODE, Value(), 0);
      ghost var m, all := Value(), Serialize(RESULT_CODE, Value());
      RestStarts(RESULT_CODE, m);
      assert [] + all == all;
      target := [];
      Written(RESULT_CODE, m, 0, target, all);
      if errcode != 0 { target := target + RecordBytes(Varint(1, Widen(errcode))); }
      Written(RESULT_CODE, m, 1, target, all);
      if errmsg != [] { target := target + RecordBytes(Len(2, errmsg)); }
      RestEnds(RESULT_CODE, m);
      target := target + RecordsBytes(unknown);
    }

    method ByteSizeLong() returns (total: nat)
      requires WellFormed(RESULT_CODE, Value())
      modifies `cachedSize
      ensures total == cachedSize == |Serialize(RESULT_CODE, Value())|
    {
      NumberInRange(RESULT_CODE, Value(), 0);
      total := 0;
      if errmsg != [] { total := total + 1 + BytesSize(errmsg); }
      if errcode != 0 { total := total + 1 + VarintSize(Widen(errcode)); }
      total := total + |RecordsBytes(unknown)|;
      TwoFieldSize(RESULT_CODE, Value());
      cachedSize := total;
    }

    method MergeFrom(from: ResultCode)
      requires from != this
      modifies this
      ensures Value() == Merge(RESULT_CODE, old(Value()), from.Value())
    {
      ghost var a, b := Value().fields, from.Value().fields;
      if from.errmsg != [] { errmsg := from.errmsg; }
      if from.errcode != 0 { errcode := from.errcode; }
      unknown := unknown + from.unknown;
      MergeTwo(RESULT_CODE, a, b);
    }
  }

  lemma TwoFieldSize(schema: Schema, m: Message)
    requires WellFormed(schema, m) && |schema| == 2
    ensures |Serialize(schema, m)|
         == FieldSize(schema, 0, m.fields[0]) + FieldSize(schema, 1, m.fields[1]) + |RecordsBytes(m.unknown)|
  {
    hide FieldSize, Rest, Serialize, WellFormed, RecordsBytes;
    RestStarts(schema, m);
    RestSize(schema, m, 0);
    RestSize(schema, m, 1);
    RestEnds(schema, m);
  }

  lemma MergeTwo(schema: Schema, a: seq<Value>, b: seq<Value>)
    requires |schema| == |a| == |b| == 2
    ensures MergeFields(schema, a, b, 0) == [MergeValue(schema, 0, a[0], b[0]), MergeValue(schema, 1, a[1], b[1])]
  {
    MergeFieldsAt(schema, a, b, 0, 0);
    MergeFieldsAt(schema, a, b, 0, 1);
  }

  // ---------------------------------------------------------------- Kuser.LoginResponse

  class LoginResponse {
    var result: ResultCode?
    var success: bool
    var unknown: seq<Record>
    var cachedSize: nat

    ghost function Value(): (m: Message)
      reads this, result
      ensures |m.fields| == |LOGIN_RESPONSE|
    {
      Message([Nested(if result == null then None else Some(result.Value())), Num(if success then 1 else 0)], unknown)
    }

    constructor ()
      ensures Value() == Default(LOGIN_RESPONSE) && result == null
    {
      result, success, unknown, cachedSize := null, false, [], 0;
    }

    /** `_internal_mutable_result`: the submessage, allocated when absent. */
    method InternalMutableResult() returns (r: ResultCode)
      modifies `result
      ensures result == r && (if old(result) == null then fresh(r) else r == old(result))
      ensures r.Value() == SubMessage(RESULT_CODE, old(Value()).fields[0])
    {
      if result == null { result := new ResultCode(); }
      r := result;
    }

    method ParseField(tag: nat, s: bytes) returns (r: Option<nat>)
      modifies this, result
      ensures result == old(result) || fresh(result)
      ensures match ReadBody(tag, s)
              case None => r == None
              case Some((rec, n)) =>
                match Step(LOGIN_RESPONSE, old(Value()), rec)
                case None => r == None
                case Some(m) => r == Some(n) && Value() == m
    {
      hide Fold, ParseRecords, ParseInto, SubMessage;
      if tag / 8 == 1 && tag % 256 == 10 {
        var body := ReadBody(tag, s);
        if body.None? { return None; }
        var sub := InternalMutableResult();
        var ok := sub.InternalParse(body.value.0.data);
        SubStep(LOGIN_RESPONSE, old(Value()), 0, body.value.0.data);
        if !ok { return None; }
        assert old(Value()).fields[0 := Nested(Some(sub.Value()))] == Value().fields;
        return Some(body.value.1);
      } else if tag / 8 == 2 && tag % 256 == 16 {
        var v := ReadVarint(s, 10);
        if v.None? { return None; }
        success := v.value.0 % TWO64 != 0;
        VarintStep(LOGIN_RESPONSE, old(Value()), 1, v.value.0 % TWO64);
        assert old(Value()).fields[1 := Num(if success then 1 else 0)] == Value().fields;
        return Some(v.value.1);
      } else {
        if tag == 0 || tag % 8 == 4 { return None; }
        var body := ReadBody(tag, s);
        if body.None? { return None; }
        unknown := unknown + [body.value.0];
        return Some(body.value.1);
      }
    }

    method InternalParse(s: bytes) returns (ok: bool)
      modifies this, result
      ensures result == old(result) || fresh(result)
      ensures match ParseInto(LOGIN_RESPONSE, old(Value()), s)
              case None => !ok
              case Some(m) => ok && Value() == m
    {
      hide Step, Fold, ParseInto, ParseRecords, ReadRecord, ReadBody, Prepend, Parsed;
      ghost var start := Value();
      ghost var rs: seq<Record> := [];
      var ptr := 0;
      ParseBegins(LOGIN_RESPONSE, start, s);
      while ptr < |s|
        invariant result == old(result) || fresh(result)
        invariant ptr <= |s| && Parsed(LOGIN_RESPONSE, start, s, ptr, rs, Value())
      {
        ghost var now := Value();
        var t := ReadTag(s[ptr..]);
        if t.None? {
          NoTagNoRecord(s[ptr..]);
          ParseFails(LOGIN_RESPONSE, start, s, ptr, rs, now);
          return false;
        }
        var (tag, n) := t.value;
        TagAndBody(s[ptr..], tag, n);
        assert s[ptr..][n..] == s[ptr + n..];
        var m := ParseField(tag, s[ptr + n..]);
        if m.None? {
          ParseFails(LOGIN_RESPONSE, start, s, ptr, rs, now);
          return false;
        }
        ghost var rec := ReadBody(tag, s[ptr + n..]).value.0;
        ParseTurn(LOGIN_RESPONSE, start, s, ptr, rs, now, rec, n + m.value, Value());
        rs := rs + [rec];
        ptr := ptr + n + m.value;
      }
      ParseEnds(LOGIN_RESPONSE, start, s, rs, Value());
      return true;
    }

    /** The size pass; it also refreshes the submessage's cached size. */
    method ByteSizeLong() returns (total: nat)
      requires WellFormed(LOGIN_RESPONSE, Value())
      modifies `cachedSize, result
      ensures result == old(result) && Value() == old(Value())
      ensures total == cachedSize == |Serialize(LOGIN_RESPONSE, Value())|
      ensures result != null ==> result.cachedSize == |Serialize(RESULT_CODE, result.Value())|
    {
      total := 0;
      SubWellFormed(LOGIN_RESPONSE, Value(), 0);
      if result != null {
        var sub := result.ByteSizeLong();
        total := total + 1 + (VarintSize(sub) + sub);
      }
      if success { total := total + 1 + 1; }
      total := total + |RecordsBytes(unknown)|;
      TwoFieldSize(LOGIN_RESPONSE, Value());
      cachedSize := total;
    }

    /** The write pass takes the submessage's length from its cache. Its output is the message's
        encoding exactly when that cache is right. */
    method InternalSerialize() returns (target: bytes)
      requires WellFormed(LOGIN_RESPONSE, Value())
      ensures target == Serialize(LOGIN_RESPONSE, Value())
         <==> (result == null || result.cachedSize == |Serialize(RESULT_CODE, result.Value())|)
    {
      hide RecordBytes, Rest, Serialize, RecordsFrom, VarintBytes, WellFormed;
      ghost var m := Value();
      SubWellFormed(LOGIN_RESPONSE, m, 0);
      ghost var tail := Rest(LOGIN_RESPONSE, m, 1);
      target := [];
      if result != null {
        var sub := result.InternalSerialize();
        target := VarintBytes(10) + VarintBytes(result.cachedSize) + sub;
      }
      ghost var head := target;
      Written(LOGIN_RESPONSE, m, 1, head, head + tail);
      if success { target := target + RecordBytes(Varint(2, 1)); }
      RestEnds(LOGIN_RESPONSE, m);
      target := target + RecordsBytes(unknown);
      RestStarts(LOGIN_RESPONSE, m);
      RestStep(LOGIN_RESPONSE, m, 0);
      if result != null {
        CachedPrefix(result.cachedSize, Serialize(RESULT_CODE, result.Value()), tail);
      } else {
        assert [] + tail == tail;
      }
    }

    method SerializeToString() returns (r: Option<bytes>)
      requires WellFormed(LOGIN_RESPONSE, Value())
      modifies `cachedSize, result
      ensures Value() == old(Value())
      ensures r == if Serializable(LOGIN_RESPONSE, Value()) then Some(Serialize(LOGIN_RESPONSE, Value())) else None
    {
      var size := ByteSizeLong();
      if size >= TWO31 { return None; }
      var out := InternalSerialize();
      return Some(out);
    }

    /** `MergeImpl`: the submessage is merged, not replaced. */
    method MergeFrom(from: LoginResponse)
      requires from != this && (from.result != null ==> from.result != result)
      modifies this, result
      ensures from.Value() == old(from.Value())
      ensures Value() == Merge(LOGIN_RESPONSE, old(Value()), old(from.Value()))
    {
      ghost var a, b := Value().fields, from.Value().fields;
      if from.result != null {
        var r := InternalMutableResult();
        r.MergeFrom(from.result);
      }
      if from.success { success := from.success; }
      unknown := unknown + from.unknown;
      MergeTwo(LOGIN_RESPONSE, a, b);
    }
  }

  /** A length-delimited record written with a length taken from elsewhere is the record exactly when
      the length is that of the bytes. */
  lemma CachedPrefix(cached: nat, body: bytes, tail: bytes)
    ensures VarintBytes(10) + VarintBytes(cached) + body + tail == RecordBytes(Len(1, body)) + tail
       <==> cached == |body|
  {
    hide VarintBytes;
    var t, c, n := VarintBytes(10), VarintBytes(cached), VarintBytes(|body|);
    assert RecordBytes(Len(1, body)) == t + (n + body);
    SameBehind(t, c, n, body, tail);
    if c + (body + tail) == n + (body + tail) {
      VarintPrefixFree(cached, |body|, body + tail, body + tail);
    }
  }

  lemma SameBehind(t: bytes, c: bytes, n: bytes, body: bytes, tail: bytes)
    ensures t + c + body + tail == t + (n + body) + tail <==> c + (body + tail) == n + (body + tail)
  {
    var x, y := c + (body + tail), n + (body + tail);
    assert t + c + body + tail == t + x && t + (n + body) + tail == t + y;
    assert (t + x)[|t|..] == x && (t + y)[|t|..] == y;
  }
}
