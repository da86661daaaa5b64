/** What the generated message classes mean. A message type is a schema (the kinds of its fields,
    numbered from 1, as every message of src/rpc.proto and example/user.proto numbers them); a
    message holds one value per field and the unknown records it was parsed with. The theorems hold
    of every schema, nested ones included; module Generated ties the C++ classes to them. */
module Messages {
  import opened Wire

  datatype Kind = Int32 | UInt32 | Bool | Fixed64Bits | Bytes | Sub(schema: seq<Kind>)
  type Schema = seq<Kind>

  datatype Value = Num(n: int) | Str(s: bytes) | Nested(m: Option<Message>)
  datatype Message = Message(fields: seq<Value>, unknown: seq<Record>)

  const HEADER: Schema := [Int32, Fixed64Bits, Bytes, Bytes, Bytes]
  const RESULT_CODE: Schema := [Int32, Bytes]
  const LOGIN_REQUEST: Schema := [Bytes, Bytes]
  const LOGIN_RESPONSE: Schema := [Sub(RESULT_CODE), Bool]
  const REGISTER_REQUEST: Schema := [UInt32, Bytes, Bytes]

  function DefaultValue(k: Kind): Value {
    match k
    case Bytes => Str([])
    case Sub(_) => Nested(None)
    case _ => Num(0)
  }

  function Default(schema: Schema): (m: Message)
    ensures |m.fields| == |schema|
  {
    Message(seq(|schema|, i requires 0 <= i < |schema| => DefaultValue(schema[i])), [])
  }

  /** Does the record carry the wire type that the generated switch expects for this kind? */
  predicate Matches(k: Kind, r: Record) {
    match k
    case Fixed64Bits => r.Fixed64?
    case Bytes => r.Len?
    case Sub(_) => r.Len?
    case _ => r.Varint?
  }

  predicate Known(schema: Schema, r: Record) {
    1 <= r.num <= |schema| && Matches(schema[r.num - 1], r)
  }

  /** Casts of the 64 bits read from the wire to the field's C++ type. */
  function Narrow(k: Kind, v: nat): int {
    match k
    case Int32 => if v % TWO32 < TWO31 then v % TWO32 else v % TWO32 - TWO32
    case UInt32 => v % TWO32
    case Bool => if v != 0 then 1 else 0
    case _ => v
  }

  /** Negative int32 and enum values travel sign-extended to 64 bits. */
  function Widen(n: int): int {
    if n < 0 then n + TWO64 else n
  }

  predicate InRange(k: Kind, n: int) {
    match k
    case Int32 => -TWO31 <= n < TWO31
    case UInt32 => 0 <= n < TWO32
    case Bool => n == 0 || n == 1
    case Fixed64Bits => 0 <= n < TWO64
    case _ => false
  }

  ghost predicate WellFormed(schema: Schema, m: Message)
    decreases schema, 1
  {
    && |schema| < 0x2000_0000
    && |m.fields| == |schema|
    && (forall i :: 0 <= i < |schema| ==> WellFormedValue(schema, i, m.fields[i]))
    && (forall r :: r in m.unknown ==> ValidRecord(r) && !Known(schema, r))
  }

  ghost predicate WellFormedValue(schema: Schema, i: nat, v: Value)
    requires i < |schema|
    decreases schema, 0
  {
    match schema[i]
    case Bytes => v.Str?
    case Sub(sub) => v.Nested? && (v.m.Some? ==> WellFormed(sub, v.m.value))
    case k => v.Num? && InRange(k, v.n)
  }

  // ---------------------------------------------------------------- parsing

  /** The submessage a length-delimited record is merged into: the present one or a new one. */
  function SubMessage(sub: Schema, v: Value): (m: Message)
    ensures |m.fields| == |sub|
  {
    if v.Nested? && v.m.Some? && |v.m.value.fields| == |sub| then v.m.value else Default(sub)
  }

  /** The field's value after a record of it: numbers and strings are replaced, submessages merged. */
  function Absorb(schema: Schema, i: nat, v: Value, r: Record): Option<Value>
    requires i < |schema| && Matches(schema[i], r)
    decreases schema, 0
  {
    match schema[i]
    case Bytes => Some(Str(r.data))
    case Sub(sub) =>
      (match ParseInto(sub, SubMessage(sub, v), r.data)
       case None => None
       case Some(m) => Some(Nested(Some(m))))
    case k => Some(Num(Narrow(k, r.v)))
  }

  function Step(schema: Schema, m: Message, r: Record): (res: Option<Message>)
    requires |m.fields| == |schema|
    ensures res.Some? ==> |res.value.fields| == |schema|
    decreases schema, 1
  {
    if Known(schema, r) then
      match Absorb(schema, r.num - 1, m.fields[r.num - 1], r)
      case None => None
      case Some(v) => Some(m.(fields := m.fields[r.num - 1 := v]))
    else
      Some(m.(unknown := m.unknown + [r]))
  }

  /** Applies the records one after the other, first record first. */
  function Fold(schema: Schema, m: Message, rs: seq<Record>): (res: Option<Message>)
    requires |m.fields| == |schema|
    ensures res.Some? ==> |res.value.fields| == |schema|
    decreases schema, 2, |rs|
  {
    if rs == [] then Some(m)
    else
      match Fold(schema, m, rs[..|rs| - 1])
      case None => None
      case Some(m') => Step(schema, m', rs[|rs| - 1])
  }

  /** `_InternalParse` on an object that holds m: merges the bytes into it. */
  function ParseInto(schema: Schema, m: Message, s: bytes): (res: Option<Message>)
    requires |m.fields| == |schema|
    ensures res.Some? ==> |res.value.fields| == |schema|
    decreases schema, 3
  {
    match ParseRecords(s)
    case None => None
    case Some(rs) => Fold(schema, m, rs)
  }

  /** `ParseFromString`: clear, then parse. */
  function Parse(schema: Schema, s: bytes): Option<Message> {
    ParseInto(schema, Default(schema), s)
  }

  // ---------------------------------------------------------------- serializing

  function FieldRecords(schema: Schema, i: nat, v: Value): seq<Record>
    requires i < |schema|
    decreases schema, 0
  {
    match v
    case Num(n) =>
      if n == 0 then []
      else if schema[i].Fixed64Bits? then (if n < 0 then [] else [Fixed64(i + 1, n)])
      else if Widen(n) < 0 then []
      else [Varint(i + 1, Widen(n))]
    case Str(s) => if s == [] then [] else [Len(i + 1, s)]
    case Nested(None) => []
    case Nested(Some(m)) => if schema[i].Sub? then [Len(i + 1, Serialize(schema[i].schema, m))] else []
  }

  /** The records of the fields from position i on, in field order. */
  function RecordsFrom(schema: Schema, fields: seq<Value>, i: nat): seq<Record>
    requires i <= |schema|
    decreases schema, 1, |schema| - i
  {
    if i == |schema| || i >= |fields| then []
    else FieldRecords(schema, i, fields[i]) + RecordsFrom(schema, fields, i + 1)
  }

  function Serialize(schema: Schema, m: Message): bytes
    decreases schema, 2
  {
    RecordsBytes(RecordsFrom(schema, m.fields, 0) + m.unknown)
  }

  /** The runtime refuses to serialize 2 GiB or more. */
  predicate Serializable(schema: Schema, m: Message) {
    |Serialize(schema, m)| < TWO31
  }

  // ---------------------------------------------------------------- merging

  function MergeValue(schema: Schema, i: nat, to: Value, from: Value): Value
    requires i < |schema|
    decreases schema, 0
  {
    match from
    case Num(n) => if n != 0 then from else to
    case Str(s) => if s != [] then from else to
    case Nested(None) => to
    case Nested(Some(m)) =>
      if schema[i].Sub? && |m.fields| == |schema[i].schema| then
        Nested(Some(Merge(schema[i].schema, SubMessage(schema[i].schema, to), m)))
      else to
  }

  /** The loop-free sequence of guarded assignments of `MergeImpl`, from field position i on. */
  function MergeFields(schema: Schema, to: seq<Value>, from: seq<Value>, i: nat): (r: seq<Value>)
    requires i <= |schema| == |to| == |from|
    ensures |r| == |schema|
    decreases schema, 1, |schema| - i
  {
    if i == |schema| then to
    else MergeFields(schema, to[i := MergeValue(schema, i, to[i], from[i])], from, i + 1)
  }

  function Merge(schema: Schema, to: Message, from: Message): (m: Message)
    requires |to.fields| == |from.fields| == |schema|
    ensures |m.fields| == |schema|
    decreases schema, 2
  {
    Message(MergeFields(schema, to.fields, from.fields, 0), to.unknown + from.unknown)
  }

  /** "Last One Wins", field by field: the merge result takes a set field from `from` and every
      other field from `to`. */
  lemma {:induction false} MergeFieldsAt(schema: Schema, to: seq<Value>, from: seq<Value>, i: nat, j: nat)
    requires i <= |schema| == |to| == |from| && j < |schema|
    ensures MergeFields(schema, to, from, i)[j] == if j < i then to[j] else MergeValue(schema, j, to[j], from[j])
    decreases |schema| - i
  {
    if i < |schema| {
      MergeFieldsAt(schema, to[i := MergeValue(schema, i, to[i], from[i])], from, i + 1, j);
    }
  }

  // ---------------------------------------------------------------- folding

  lemma {:induction false} FoldConcat(schema: Schema, m: Message, a: seq<Record>, b: seq<Record>)
    requires |m.fields| == |schema|
    ensures Fold(schema, m, a + b)
         == match Fold(schema, m, a) case None => None case Some(m') => Fold(schema, m', b)
    decreases |b|
  {
    if b == [] {
      assert a + b == a;
    } else {
      var b' := b[..|b| - 1];
      FoldConcat(schema, m, a, b');
      assert (a + b)[..|a + b| - 1] == a + b';
    }
  }

  lemma FoldOne(schema: Schema, m: Message, r: Record)
    requires |m.fields| == |schema|
    ensures Fold(schema, m, [r]) == Step(schema, m, r)
  {
    assert [r][..0] == [];
  }

  lemma {:induction false} FoldUnknown(schema: Schema, m: Message, us: seq<Record>)
    requires |m.fields| == |schema|
    requires forall r :: r in us ==> !Known(schema, r)
    ensures Fold(schema, m, us) == Some(m.(unknown := m.unknown + us))
  {
    if us == [] {
      assert m.unknown + us == m.unknown;
    } else {
      var init := us[..|us| - 1];
      FoldUnknown(schema, m, init);
      assert m.unknown + us == m.unknown + init + [us[|us| - 1]];
    }
  }

  /** Parsing a concatenation is parsing the second part into the result of the first. */
  lemma ParseConcat(schema: Schema, m: Message, a: bytes, b: bytes)
    requires |m.fields| == |schema|
    requires ParseInto(schema, m, a).Some?
    ensures ParseInto(schema, m, a + b) == ParseInto(schema, ParseInto(schema, m, a).value, b)
  {
    ParseRecordsConcat(a, b);
    if ParseRecords(b).Some? {
      FoldConcat(schema, m, ParseRecords(a).value, ParseRecords(b).value);
    }
  }

  // ---------------------------------------------------------------- parsing what was serialized

  lemma NarrowWiden(k: Kind, n: int)
    requires InRange(k, n)
    ensures 0 <= Widen(n) < TWO64 && Narrow(k, Widen(n)) == n
  {
    match k
    case Int32 =>
      if n < 0 {
        assert n + TWO64 == (n + TWO32) + (TWO32 - 1) * TWO32;
        assert (n + TWO64) % TWO32 == n + TWO32;
      }
    case _ =>
  }

  lemma {:induction false} RecordSizes(rs: seq<Record>, r: Record)
    requires r in rs
    ensures |BodyBytes(r)| <= |RecordsBytes(rs)|
  {
    if rs[0] != r { RecordSizes(rs[1..], r); }
  }

  lemma RecordsPart(a: seq<Record>, b: seq<Record>)
    ensures |RecordsBytes(a)| + |RecordsBytes(b)| == |RecordsBytes(a + b)|
  {
    RecordsBytesConcat(a, b);
  }

  lemma FieldRecordsValid(schema: Schema, i: nat, v: Value)
    requires i < |schema| < 0x2000_0000 && WellFormedValue(schema, i, v)
    requires |RecordsBytes(FieldRecords(schema, i, v))| < TWO31
    ensures forall r :: r in FieldRecords(schema, i, v) ==> ValidRecord(r)
  {
    if v.Num? { NarrowWiden(schema[i], v.n); }
    forall r | r in FieldRecords(schema, i, v) ensures ValidRecord(r) {
      RecordSizes(FieldRecords(schema, i, v), r);
    }
  }

  lemma {:induction false} RecordsFromValid(schema: Schema, m: Message, i: nat)
    requires WellFormed(schema, m) && i <= |schema|
    requires |RecordsBytes(RecordsFrom(schema, m.fields, i))| < TWO31
    ensures forall r :: r in RecordsFrom(schema, m.fields, i) ==> ValidRecord(r)
    decreases |schema| - i
  {
    hide FieldRecords, RecordsBytes, WellFormedValue, ValidRecord;
    if i < |schema| {
      RecordsPart(FieldRecords(schema, i, m.fields[i]), RecordsFrom(schema, m.fields, i + 1));
      FieldRecordsValid(schema, i, m.fields[i]);
      RecordsFromValid(schema, m, i + 1);
    }
  }

  /** A serialized message is read back record by record. */
  lemma SerializeRecords(schema: Schema, m: Message)
    requires WellFormed(schema, m) && Serializable(schema, m)
    ensures ParseRecords(Serialize(schema, m)) == Some(RecordsFrom(schema, m.fields, 0) + m.unknown)
  {
    var rs := RecordsFrom(schema, m.fields, 0);
    RecordsPart(rs, m.unknown);
    RecordsFromValid(schema, m, 0);
    ParseRecordsInverse(rs + m.unknown, []);
    assert Serialize(schema, m) + [] == Serialize(schema, m);
    assert rs + m.unknown + [] == rs + m.unknown;
  }

  /** Folding one field's record into x is merging that field. */
  lemma {:induction false} FoldField(schema: Schema, x: Message, i: nat, v: Value)
    requires |x.fields| == |schema| < 0x2000_0000 && i < |schema| && WellFormedValue(schema, i, v)
    requires |RecordsBytes(FieldRecords(schema, i, v))| < TWO31
    ensures Fold(schema, x, FieldRecords(schema, i, v))
         == Some(x.(fields := x.fields[i := MergeValue(schema, i, x.fields[i], v)]))
    decreases schema, 0
  {
    assert x.fields[i := x.fields[i]] == x.fields;
    if FieldRecords(schema, i, v) != [] {
      var r := FieldRecords(schema, i, v)[0];
      assert FieldRecords(schema, i, v) == [r];
      FoldOne(schema, x, r);
      match schema[i] {
        case Sub(sub) =>
          RecordSizes([r], r);
          ParseSerialized(sub, SubMessage(sub, x.fields[i]), v.m.value);
        case Bytes =>
        case k => NarrowWiden(k, v.n);
      }
    }
  }

  lemma {:induction false} FoldFields(schema: Schema, x: Message, b: Message, i: nat)
    requires WellFormed(schema, b) && |x.fields| == |schema| && i <= |schema|
    requires |RecordsBytes(RecordsFrom(schema, b.fields, i))| < TWO31
    ensures Fold(schema, x, RecordsFrom(schema, b.fields, i))
         == Some(x.(fields := MergeFields(schema, x.fields, b.fields, i)))
    decreases schema, 1, |schema| - i
  {
    hide FieldRecords, MergeValue, RecordsBytes, WellFormedValue;
    if i < |schema| {
      var first := FieldRecords(schema, i, b.fields[i]);
      var rest := RecordsFrom(schema, b.fields, i + 1);
      var x' := x.(fields := x.fields[i := MergeValue(schema, i, x.fields[i], b.fields[i])]);
      assert RecordsFrom(schema, b.fields, i) == first + rest;
      RecordsPart(first, rest);
      assert Fold(schema, x, first) == Some(x') by { FoldField(schema, x, i, b.fields[i]); }
      assert Fold(schema, x, first + rest) == Fold(schema, x', rest) by { FoldConcat(schema, x, first, rest); }
      FoldFields(schema, x', b, i + 1);
    } else {
      assert RecordsFrom(schema, b.fields, i) == [];
    }
  }

  /** Merge law: parsing serialized b into any message a is merging b into a, submessages
      included. */
  lemma {:induction false} ParseSerialized(schema: Schema, a: Message, b: Message)
    requires |a.fields| == |schema| && WellFormed(schema, b) && Serializable(schema, b)
    ensures ParseInto(schema, a, Serialize(schema, b)) == Some(Merge(schema, a, b))
    decreases schema, 2
  {
    var rs := RecordsFrom(schema, b.fields, 0);
    SerializeRecords(schema, b);
    RecordsPart(rs, b.unknown);
    FoldFields(schema, a, b, 0);
    FoldConcat(schema, a, rs, b.unknown);
    FoldUnknown(schema, a.(fields := MergeFields(schema, a.fields, b.fields, 0)), b.unknown);
  }

  lemma {:induction false} MergeIntoDefault(schema: Schema, b: Message)
    requires WellFormed(schema, b)
    ensures Merge(schema, Default(schema), b) == b
    decreases schema
  {
    var d := Default(schema);
    forall j | 0 <= j < |schema| ensures Merge(schema, d, b).fields[j] == b.fields[j] {
      MergeFieldsAt(schema, d.fields, b.fields, 0, j);
      if schema[j].Sub? && b.fields[j].m.Some? {
        MergeIntoDefault(schema[j].schema, b.fields[j].m.value);
      }
    }
    assert Merge(schema, d, b).fields == b.fields;
    assert d.unknown + b.unknown == b.unknown;
  }

  /** Field by field, a merge takes what is set in b and else what a has; submessages that both have are
      merged in the same way. Unknown records of b come behind those of a. */
  lemma MergedField(schema: Schema, a: Message, b: Message, j: nat)
    requires WellFormed(schema, a) && WellFormed(schema, b) && j < |schema|
    ensures Merge(schema, a, b).unknown == a.unknown + b.unknown
    ensures !schema[j].Sub? ==>
              var x, y := a.fields[j], b.fields[j];
              Merge(schema, a, b).fields[j] == if y != Num(0) && y != Str([]) then y else x
    ensures schema[j].Sub? ==>
              var x, y, r := a.fields[j], b.fields[j], Merge(schema, a, b).fields[j];
              && x.Nested? && y.Nested?
              && (y.m.None? ==> r == x) && (x.m.None? ==> r == y)
              && (x.m.Some? && y.m.Some? ==>
                    && |x.m.value.fields| == |y.m.value.fields| == |schema[j].schema|
                    && r == Nested(Some(Merge(schema[j].schema, x.m.value, y.m.value))))
  {
    var k, x, y := schema[j], a.fields[j], b.fields[j];
    assert WellFormedValue(schema, j, x) && WellFormedValue(schema, j, y);
    MergeFieldsAt(schema, a.fields, b.fields, 0, j);
    hide MergeFields;
    if k.Sub? && y.m.Some? { MergeIntoDefault(k.schema, y.m.value); }
  }

  /** Codec round trip, for every message type. */
  lemma RoundTrip(schema: Schema, m: Message)
    requires WellFormed(schema, m) && Serializable(schema, m)
    ensures Parse(schema, Serialize(schema, m)) == Some(m)
  {
    ParseSerialized(schema, Default(schema), m);
    MergeIntoDefault(schema, m);
  }

  /** The bytes of two messages one after the other are the bytes of their merge: Encoding guide,
      "Last One Wins". */
  lemma ConcatIsMerge(schema: Schema, a: Message, b: Message)
    requires WellFormed(schema, a) && Serializable(schema, a)
    requires WellFormed(schema, b) && Serializable(schema, b)
    ensures Parse(schema, Serialize(schema, a) + Serialize(schema, b)) == Some(Merge(schema, a, b))
  {
    RoundTrip(schema, a);
    ParseConcat(schema, Default(schema), Serialize(schema, a), Serialize(schema, b));
    ParseSerialized(schema, a, b);
  }

  // ---------------------------------------------------------------- what any parse produces

  lemma DefaultWellFormed(schema: Schema)
    requires |schema| < 0x2000_0000
    ensures WellFormed(schema, Default(schema))
  {}

  /** Every submessage type, at any depth, has fewer than 2^29 fields. */
  ghost predicate ProperSchema(schema: Schema)
    decreases schema
  {
    && |schema| < 0x2000_0000
    && forall i :: 0 <= i < |schema| && schema[i].Sub? ==> ProperSchema(schema[i].schema)
  }

  lemma FlatSchema(schema: Schema)
    requires |schema| < 0x2000_0000 && forall i :: 0 <= i < |schema| ==> !schema[i].Sub?
    ensures ProperSchema(schema)
  {}

  /** The laws about proper schemas apply to every message type of the framework. */
  lemma FrameworkSchemas()
    ensures ProperSchema(HEADER) && ProperSchema(RESULT_CODE) && ProperSchema(LOGIN_REQUEST)
    ensures ProperSchema(LOGIN_RESPONSE) && ProperSchema(REGISTER_REQUEST)
  {
    hide ProperSchema;
    FlatSchema(HEADER);
    FlatSchema(RESULT_CODE);
    FlatSchema(LOGIN_REQUEST);
    FlatSchema(REGISTER_REQUEST);
    LoginResponseProper();
  }

  lemma LoginResponseProper()
    ensures ProperSchema(LOGIN_RESPONSE)
  {
    FlatSchema(RESULT_CODE);
    assert LOGIN_RESPONSE[0].schema == RESULT_CODE;
  }

  lemma {:induction false} StepWellFormed(schema: Schema, m: Message, r: Record)
    requires ProperSchema(schema) && WellFormed(schema, m) && ValidRecord(r) && Step(schema, m, r).Some?
    ensures WellFormed(schema, Step(schema, m, r).value)
    decreases schema, 0
  {
    if Known(schema, r) && schema[r.num - 1].Sub? {
      var i := r.num - 1;
      var sub := schema[i].schema;
      assert WellFormedValue(schema, i, m.fields[i]);
      DefaultWellFormed(sub);
      ParseWellFormed(sub, SubMessage(sub, m.fields[i]), r.data);
    }
  }

  lemma {:induction false} FoldWellFormed(schema: Schema, m: Message, rs: seq<Record>)
    requires ProperSchema(schema) && WellFormed(schema, m) && Fold(schema, m, rs).Some?
    requires forall r :: r in rs ==> ValidRecord(r)
    ensures WellFormed(schema, Fold(schema, m, rs).value)
    decreases schema, 1, |rs|
  {
    if rs != [] {
      FoldWellFormed(schema, m, rs[..|rs| - 1]);
      StepWellFormed(schema, Fold(schema, m, rs[..|rs| - 1]).value, rs[|rs| - 1]);
    }
  }

  lemma {:induction false} ParseWellFormed(schema: Schema, m: Message, s: bytes)
    requires ProperSchema(schema) && WellFormed(schema, m) && ParseInto(schema, m, s).Some?
    ensures WellFormed(schema, ParseInto(schema, m, s).value)
    decreases schema, 2
  {
    ParseRecordsValid(s);
    FoldWellFormed(schema, m, ParseRecords(s).value);
  }

  /** Normalisation: whatever bytes were accepted, serializing the message and parsing again gives
      the same message, unknown records included, unless the runtime refuses to serialize it. */
  lemma Normalise(schema: Schema, s: bytes)
    requires ProperSchema(schema) && Parse(schema, s).Some?
    requires Serializable(schema, Parse(schema, s).value)
    ensures Parse(schema, Serialize(schema, Parse(schema, s).value)) == Parse(schema, s)
  {
    DefaultWellFormed(schema);
    ParseWellFormed(schema, Default(schema), s);
    RoundTrip(schema, Parse(schema, s).value);
  }

  // ---------------------------------------------------------------- field order

  /** Records of different fields, at least one of them known. */
  predicate Independent(schema: Schema, r: Record, q: Record) {
    r.num != q.num && (Known(schema, r) || Known(schema, q))
  }

  lemma StepsCommute(schema: Schema, m: Message, r: Record, q: Record)
    requires |m.fields| == |schema| && Independent(schema, r, q)
    ensures Fold(schema, m, [r, q]) == Fold(schema, m, [q, r])
  {
    TwoSteps(schema, m, r, q);
    TwoSteps(schema, m, q, r);
    if Fold(schema, m, [r, q]).Some? || Fold(schema, m, [q, r]).Some? {
      var i, j := r.num - 1, q.num - 1;
      if Known(schema, r) && Known(schema, q) {
        var v, w := Absorb(schema, i, m.fields[i], r), Absorb(schema, j, m.fields[j], q);
        assert v.Some? && w.Some?;
        assert m.fields[i := v.value][j := w.value] == m.fields[j := w.value][i := v.value];
      }
    }
  }

  lemma TwoSteps(schema: Schema, m: Message, r: Record, q: Record)
    requires |m.fields| == |schema|
    ensures Fold(schema, m, [r, q])
         == match Step(schema, m, r) case None => None case Some(x) => Step(schema, x, q)
  {
    assert [r, q] == [r] + [q];
    FoldConcat(schema, m, [r], [q]);
    FoldOne(schema, m, r);
    if Step(schema, m, r).Some? { FoldOne(schema, Step(schema, m, r).value, q); }
  }

  /** A record moves past a run of records independent of it. */
  lemma {:induction false} MoveToEnd(schema: Schema, m: Message, r: Record, run: seq<Record>)
    requires |m.fields| == |schema|
    requires forall q :: q in run ==> Independent(schema, r, q)
    ensures Fold(schema, m, [r] + run) == Fold(schema, m, run + [r])
    decreases |run|
  {
    if run == [] {
      assert [r] + run == run + [r];
    } else {
      var init, q := run[..|run| - 1], run[|run| - 1];
      MoveToEnd(schema, m, r, init);
      assert [r] + run == ([r] + init) + [q];
      assert run + [r] == init + [q, r];
      assert init + [r] + [q] == init + [r, q];
      FoldConcat(schema, m, [r] + init, [q]);
      FoldConcat(schema, m, init + [r], [q]);
      FoldConcat(schema, m, init, [r, q]);
      FoldConcat(schema, m, init, [q, r]);
      if Fold(schema, m, init).Some? { StepsCommute(schema, Fold(schema, m, init).value, r, q); }
    }
  }

  ghost predicate AllIndependent(schema: Schema, rs: seq<Record>) {
    forall i, j :: 0 <= i < j < |rs| ==> Independent(schema, rs[i], rs[j])
  }

  lemma PullToEnd(schema: Schema, m: Message, a: seq<Record>, r: Record, b: seq<Record>)
    requires |m.fields| == |schema|
    requires forall q :: q in b ==> Independent(schema, r, q)
    ensures Fold(schema, m, a + [r] + b) == Fold(schema, m, a + b + [r])
  {
    assert a + [r] + b == a + ([r] + b) && a + b + [r] == a + (b + [r]);
    FoldConcat(schema, m, a, [r] + b);
    FoldConcat(schema, m, a, b + [r]);
    if Fold(schema, m, a).Some? { MoveToEnd(schema, Fold(schema, m, a).value, r, b); }
  }

  /** The place in rs of a permutation's last record. */
  lemma SplitAtLast(rs: seq<Record>, qs: seq<Record>) returns (p: nat)
    requires qs != [] && multiset(rs) == multiset(qs)
    ensures p < |rs| && rs[p] == qs[|qs| - 1]
    ensures multiset(rs[..p] + rs[p + 1..]) == multiset(qs[..|qs| - 1])
  {
    var r := qs[|qs| - 1];
    assert qs == qs[..|qs| - 1] + [r];
    assert r in multiset(rs);
    p :| 0 <= p < |rs| && rs[p] == r;
    assert rs == rs[..p] + [r] + rs[p + 1..];
    assert multiset(rs[..p] + rs[p + 1..]) == multiset(rs) - multiset{r};
    assert multiset(qs[..|qs| - 1]) == multiset(qs) - multiset{r};
  }

  /** Field order does not matter: every permutation of records of distinct fields folds alike. */
  lemma {:induction false} FoldPermuted(schema: Schema, m: Message, rs: seq<Record>, qs: seq<Record>)
    requires |m.fields| == |schema| && AllIndependent(schema, rs)
    requires multiset(rs) == multiset(qs)
    ensures Fold(schema, m, rs) == Fold(schema, m, qs)
    decreases |qs|
  {
    if qs == [] {
      assert |multiset(rs)| == 0;
    } else {
      var p := SplitAtLast(rs, qs);
      var a, r, b := rs[..p], rs[p], rs[p + 1..];
      assert rs == a + [r] + b;
      PullToEnd(schema, m, a, r, b);
      assert AllIndependent(schema, a + b);
      FoldPermuted(schema, m, a + b, qs[..|qs| - 1]);
      SnocStep(schema, m, a + b, r);
    }
  }

  lemma SnocStep(schema: Schema, m: Message, rs: seq<Record>, r: Record)
    requires |m.fields| == |schema|
    ensures Fold(schema, m, rs + [r])
         == match Fold(schema, m, rs) case None => None case Some(x) => Step(schema, x, r)
  {
    assert (rs + [r])[..|rs|] == rs;
  }

  /** The same over bytes. */
  lemma ParsePermuted(schema: Schema, m: Message, rs: seq<Record>, qs: seq<Record>)
    requires |m.fields| == |schema| && AllIndependent(schema, rs)
    requires multiset(rs) == multiset(qs) && forall r :: r in rs ==> ValidRecord(r)
    ensures ParseInto(schema, m, RecordsBytes(rs)) == ParseInto(schema, m, RecordsBytes(qs))
  {
    forall r | r in qs ensures ValidRecord(r) {
      assert r in multiset(qs);
    }
    ParseRecordsInverse(rs, []);
    ParseRecordsInverse(qs, []);
    assert RecordsBytes(rs) + [] == RecordsBytes(rs) && RecordsBytes(qs) + [] == RecordsBytes(qs);
    assert rs + [] == rs && qs + [] == qs;
    FoldPermuted(schema, m, rs, qs);
  }
}
