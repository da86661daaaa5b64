/** The encodings in bytes, as the wire sees them: every tag, every length and every limit in numbers. The
    other modules prove that what one side writes the other side reads; here it is stated what is written
    (src/rpc.proto, example/user.proto, src/RPCChannel.cc), after the Protocol Buffers Encoding guide. */
module Encodings {
  import opened Wire
  import opened Messages
  import opened Framing
  import opened Channel

  // ---------------------------------------------------------------- numbers

  /** "Base 128 Varints": seven bits a byte, least significant group first, the high bit set on all bytes
      but the last, and no more bytes than needed. */
  lemma {:induction false} VarintAt(v: nat, i: nat)
    requires i < |VarintBytes(v)|
    ensures VarintBytes(v)[i] == v / Pow128(i) % 128 + if i + 1 < |VarintBytes(v)| then 128 else 0
    decreases i
  {
    if i > 0 {
      var w := v / 128;
      VarintAt(w, i - 1);
      assert VarintBytes(v)[i] == VarintBytes(w)[i - 1];
      DivDiv(v, 128, Pow128(i - 1));
    }
  }

  lemma {:induction false} VarintLength(v: nat)
    ensures v < Pow128(|VarintBytes(v)|)
    ensures v >= 128 ==> Pow128(|VarintBytes(v)| - 1) <= v
    decreases v
  {
    if v >= 128 {
      VarintLength(v / 128);
      assert v == v / 128 * 128 + v % 128;
      if v / 128 < 128 { OnePower(); }
    } else {
      OnePower();
    }
  }

  lemma OnePower()
    ensures Pow128(0) == 1 && Pow128(1) == 128
  {}

  lemma DivDiv(v: nat, a: nat, b: nat)
    requires a > 0 && b > 0
    ensures a * b > 0 && v / a / b == v / (a * b)
  {
    var q, r := v / a, v % a;
    var p, t := q / b, q % b;
    Positive(a, b);
    Divided(v, a);
    Divided(q, b);
    Distribute(p * b, t, a);
    Reorder(p, b, a);
    assert v == p * (a * b) + (t * a + r);
    Distribute(b - t - 1, t + 1, a);
    Distribute(t, 1, a);
    NotNegative(b - t - 1, a);
    NotNegative(t, a);
    Divided(v, a * b);
    OneQuotient(v / (a * b), v % (a * b), p, t * a + r, a * b);
  }

  lemma Divided(v: nat, d: nat)
    requires d > 0
    ensures v == v / d * d + v % d && 0 <= v % d < d
  {}

  lemma Distribute(p: int, q: int, a: int)
    ensures (p + q) * a == p * a + q * a
  {}

  lemma Reorder(p: int, b: int, a: int)
    ensures p * b * a == p * (a * b)
  {}

  lemma Positive(a: nat, b: nat)
    requires a > 0 && b > 0
    ensures a * b > 0
  {}

  lemma NotNegative(a: nat, b: nat)
    ensures a * b >= 0
  {}

  lemma OneQuotient(q: int, r: int, p: int, t: int, d: nat)
    requires q * d + r == p * d + t && 0 <= r < d && 0 <= t < d
    ensures q == p
  {
    Distribute(q - p, p, d);
    if q > p {
      Distribute(q - p - 1, 1, d);
      NotNegative(q - p - 1, d);
    } else if q < p {
      Distribute(p - q, q, d);
      Distribute(p - q - 1, 1, d);
      NotNegative(p - q - 1, d);
    }
  }

  /** Exactly the bytes up to the first one without the high bit. */
  ghost predicate Ends(s: bytes, n: nat) {
    1 <= n <= |s| && s[n - 1] < 128 && forall i :: 0 <= i < n - 1 ==> s[i] >= 128
  }

  /** Each of the first n bytes gives its seven bits. */
  ghost predicate Bits(s: bytes, n: nat, v: nat) {
    n <= |s| && v < Pow128(n) && forall i :: 0 <= i < n ==> v / Pow128(i) % 128 == s[i] % 128
  }

  lemma EndsLater(first: byte, t: bytes, n: nat)
    requires Ends(t, n) && first >= 128
    ensures Ends([first] + t, n + 1)
  {}

  lemma EndsSooner(first: byte, t: bytes, n: nat)
    requires Ends([first] + t, n) && first >= 128
    ensures n >= 2 && Ends(t, n - 1)
  {
    forall i | 0 <= i < n - 2 ensures t[i] >= 128 { assert ([first] + t)[i + 1] == t[i]; }
  }

  lemma BitsLater(first: byte, t: bytes, n: nat, w: nat)
    requires Bits(t, n, w) && first >= 128
    ensures Bits([first] + t, n + 1, first - 128 + 128 * w)
  {
    forall i | 0 <= i < n + 1
      ensures (first - 128 + 128 * w) / Pow128(i) % 128 == ([first] + t)[i] % 128
    {
      BitsAt(first, w, i, t, n);
    }
    assert Pow128(n + 1) == 128 * Pow128(n);
  }

  lemma OneByteRead(s: bytes)
    requires s != [] && s[0] < 128
    ensures Ends(s, 1) && Bits(s, 1, s[0])
  {
    OnePower();
  }

  /** What is read as a varint: exactly the bytes up to the first one without the high bit, if that comes
      within the limit, each giving its seven bits; also when the last ones are all zero. */
  lemma {:induction false} VarintRead(s: bytes, limit: nat)
    ensures forall n: nat :: n <= limit && Ends(s, n) ==> ReadVarint(s, limit).Some?
    ensures ReadVarint(s, limit).Some? ==>
              var (v, n) := ReadVarint(s, limit).value; n <= limit && Ends(s, n) && Bits(s, n, v)
    decreases limit
  {
    hide Ends, Bits;
    if limit > 0 && s != [] && s[0] >= 128 {
      var t := s[1..];
      assert s == [s[0]] + t;
      VarintRead(t, limit - 1);
      if ReadVarint(t, limit - 1).Some? {
        var (w, k) := ReadVarint(t, limit - 1).value;
        EndsLater(s[0], t, k);
        BitsLater(s[0], t, k, w);
      }
      forall n: nat | n <= limit && Ends(s, n) ensures ReadVarint(s, limit).Some? { EndsSooner(s[0], t, n); }
    } else if limit > 0 && s != [] {
      OneByteRead(s);
    } else {
      forall n: nat | Ends(s, n) ensures s != [] && n >= 1 { NeverEnds(s, n); }
    }
  }

  lemma NeverEnds(s: bytes, n: nat)
    requires Ends(s, n)
    ensures s != [] && n >= 1
  {}

  lemma BitsAt(first: byte, w: nat, i: nat, t: bytes, k: nat)
    requires first >= 128 && k <= |t| && i <= k
    requires forall j :: 0 <= j < k ==> w / Pow128(j) % 128 == t[j] % 128
    ensures (first - 128 + 128 * w) / Pow128(i) % 128 == ([first] + t)[i] % 128
  {
    var v := first - 128 + 128 * w;
    assert v / 128 == w && v % 128 == first - 128;
    if i == 0 { OnePower(); } else { DivDiv(v, 128, Pow128(i - 1)); }
  }

  /** Tags that no field has: field number 0, an end of no group, and wire types 6 and 7. */
  lemma TagsRefused(tag: nat, s: bytes)
    ensures tag < 8 || tag % 8 == 4 || tag % 8 > 5 ==> ReadBody(tag, s) == None
  {
    hide ReadVarint;
  }

  /** "Non-varint Numbers": byte i of a fixed-width number has the weight 256 to the power i. */
  lemma {:induction false} LittleEndianAt(v: nat, n: nat, i: nat)
    requires i < n
    ensures LittleEndian(v, n)[i] == v / Pow256(i) % 256
    decreases i
  {
    if i > 0 {
      LittleEndianAt(v / 256, n - 1, i - 1);
      DivDiv(v, 256, Pow256(i - 1));
    }
  }

  /** A negative int32 takes ten bytes, as every 64-bit number from 2 to the 63 on. */
  lemma NegativeTakesTen(n: int)
    requires -2147483648 <= n < 0
    ensures |VarintBytes(Widen(n))| == 10
  {
    var v := n + 18446744073709551616;
    assert Widen(n) == v;
    VarintLength(v);
    NinePower();
    if |VarintBytes(v)| <= 9 { PowerGrows(|VarintBytes(v)|, 9); }
    if |VarintBytes(v)| >= 11 { PowerGrows(10, |VarintBytes(v)| - 1); }
  }

  lemma NinePower()
    ensures Pow128(9) == 9223372036854775808 && Pow128(10) == 1180591620717411303424
  {
    assert Pow128(1) == 128;
    assert Pow128(2) == 16384;
    assert Pow128(3) == 2097152;
    assert Pow128(4) == 268435456;
    assert Pow128(5) == 34359738368;
    assert Pow128(6) == 4398046511104;
    assert Pow128(7) == 562949953421312;
    assert Pow128(8) == 72057594037927936;
  }

  lemma {:induction false} PowerGrows(a: nat, b: nat)
    requires a <= b
    ensures Pow128(a) <= Pow128(b)
    decreases b - a
  {
    if a < b { PowerGrows(a, b - 1); }
  }

  /** The casts after reading: to the low 32 bits, signed or not; any non-zero number is true. */
  lemma NarrowMeans(v: nat)
    ensures var n := Narrow(Int32, v);
            -2147483648 <= n <= 2147483647 && exists q: int :: v == n + q * 4294967296
    ensures Narrow(UInt32, v) == v % 4294967296
    ensures Narrow(Bool, v) == if v == 0 then 0 else 1
  {
    var q := v / 4294967296;
    assert v == q * 4294967296 + v % 4294967296;
    if v % 4294967296 < 2147483648 {
      assert v == Narrow(Int32, v) + q * 4294967296;
    } else {
      assert v == Narrow(Int32, v) + (q + 1) * 4294967296;
    }
  }

  /** The table is keyed by a signed 64-bit number, the header carries an unsigned one. */
  lemma KeyIsSigned(h: Header)
    requires 0 <= IdOf(h) <= 18446744073709551615
    ensures KeyOf(h) == if IdOf(h) <= 9223372036854775807 then IdOf(h) else IdOf(h) - 18446744073709551616
  {}

  // ---------------------------------------------------------------- fields

  /** A field that is omitted when empty: its tag, its length, its bytes. */
  function StringField(tag: byte, s: bytes): bytes { if s == [] then [tag][..0] else [tag] + VarintBytes(|s|) + s }

  /** A number that is omitted when zero: its tag and its varint. */
  function NumberField(tag: byte, v: nat): bytes { if v == 0 then [tag][..0] else [tag] + VarintBytes(v) }

  lemma SmallVarint(v: byte)
    ensures v < 128 ==> VarintBytes(v) == [v]
  {}

  lemma OneRecordBytes(r: Record)
    ensures RecordsBytes([r]) == VarintBytes(TagOf(r)) + BodyBytes(r)
  {
    hide BodyBytes;
    assert [r][1..] == [];
    assert RecordsBytes([r]) == RecordBytes(r) + [];
  }

  lemma LenParts(num: nat, s: bytes)
    ensures TagOf(Len(num, s)) == 8 * num + 2 && BodyBytes(Len(num, s)) == VarintBytes(|s|) + s
  {
    hide VarintBytes;
  }

  lemma LenBytes(num: nat, s: bytes)
    requires num < 16
    ensures RecordsBytes([Len(num, s)]) == [8 * num + 2] + VarintBytes(|s|) + s
  {
    hide RecordsBytes, VarintBytes, TagOf, BodyBytes;
    SmallVarint(8 * num + 2);
    LenParts(num, s);
    OneRecordBytes(Len(num, s));
    Assoc([8 * num + 2], VarintBytes(|s|), s);
  }

  lemma StringBytes(schema: Schema, i: nat, s: bytes)
    requires i < |schema| && i < 15
    ensures RecordsBytes(FieldRecords(schema, i, Str(s))) == StringField(8 * i + 10, s)
  {
    hide RecordsBytes, VarintBytes;
    if s == [] { NoRecordBytes(); } else { LenBytes(i + 1, s); }
  }

  lemma NoRecordBytes()
    ensures RecordsBytes([]) == []
  {}

  lemma NumberBytes(schema: Schema, i: nat, n: int)
    requires i < |schema| && i < 15 && !schema[i].Fixed64Bits? && n >= -2147483648
    ensures RecordsBytes(FieldRecords(schema, i, Num(n))) == NumberField(8 * i + 8, Widen(n))
  {
    SmallVarint(8 * i + 8);
    if n != 0 {
      OneRecordBytes(Varint(i + 1, Widen(n)));
      assert TagOf(Varint(i + 1, Widen(n))) == 8 * i + 8;
    }
  }

  lemma FixedBytes(schema: Schema, i: nat, n: nat)
    requires i < |schema| && i < 15 && schema[i].Fixed64Bits? && n > 0
    ensures RecordsBytes(FieldRecords(schema, i, Num(n))) == [8 * i + 9] + LittleEndian(n, 8)
  {
    SmallVarint(8 * i + 9);
    OneRecordBytes(Fixed64(i + 1, n));
    assert TagOf(Fixed64(i + 1, n)) == 8 * i + 9;
  }

  lemma SubBytes(schema: Schema, i: nat, m: Message)
    requires i < |schema| && i < 15 && schema[i].Sub?
    ensures var body := Serialize(schema[i].schema, m);
            RecordsBytes(FieldRecords(schema, i, Nested(Some(m)))) == [8 * i + 10] + VarintBytes(|body|) + body
  {
    hide Serialize;
    var body := Serialize(schema[i].schema, m);
    SmallVarint(8 * i + 10);
    OneRecordBytes(Len(i + 1, body));
    assert TagOf(Len(i + 1, body)) == 8 * i + 10;
    Assoc([8 * i + 10], VarintBytes(|body|), body);
  }

  /** Fields are written in the order of their numbers. */
  lemma FieldThenRest(schema: Schema, f: seq<Value>, i: nat)
    requires i < |schema| == |f|
    ensures RecordsBytes(RecordsFrom(schema, f, i))
         == RecordsBytes(FieldRecords(schema, i, f[i])) + RecordsBytes(RecordsFrom(schema, f, i + 1))
  {
    hide FieldRecords, RecordsBytes;
    RecordsBytesConcat(FieldRecords(schema, i, f[i]), RecordsFrom(schema, f, i + 1));
  }

  lemma NoFields(schema: Schema, f: seq<Value>)
    ensures RecordsBytes(RecordsFrom(schema, f, |schema|)) == []
  {}

  lemma SerializedFields(schema: Schema, f: seq<Value>)
    ensures Serialize(schema, Message(f, [])) == RecordsBytes(RecordsFrom(schema, f, 0))
  {
    hide RecordsBytes;
    assert RecordsFrom(schema, f, 0) + [] == RecordsFrom(schema, f, 0);
  }

  // ---------------------------------------------------------------- the messages

  lemma HeaderBytes(type_: nat, id: int, service: bytes, name: bytes, payload: bytes)
    requires 1 <= id < TWO64
    ensures Serialize(HEADER, Message([Num(type_), Num(id), Str(service), Str(name), Str(payload)], []))
         == NumberField(8, type_) + ([17] + LittleEndian(id, 8)
            + (StringField(26, service) + (StringField(34, name) + StringField(42, payload))))
  {
    hide FieldRecords, RecordsBytes, RecordsFrom, Serialize, StringField, NumberField, Widen, VarintBytes, LittleEndian;
    var f := [Num(type_), Num(id), Str(service), Str(name), Str(payload)];
    assert |HEADER| == 5 && HEADER[0] == Int32 && HEADER[1] == Fixed64Bits;
    NumberBytes(HEADER, 0, type_);
    FixedBytes(HEADER, 1, id);
    StringBytes(HEADER, 2, service);
    StringBytes(HEADER, 3, name);
    StringBytes(HEADER, 4, payload);
    SerializedFields(HEADER, f);
    FieldThenRest(HEADER, f, 0);
    FieldThenRest(HEADER, f, 1);
    FieldThenRest(HEADER, f, 2);
    FieldThenRest(HEADER, f, 3);
    FieldThenRest(HEADER, f, 4);
    NoFields(HEADER, f);
    WidenSame(type_);
    assert StringField(42, payload) + [] == StringField(42, payload);
  }

  lemma WidenSame(n: nat)
    ensures Widen(n) == n
  {}

  lemma WidenIs(n: int)
    ensures Widen(n) == if n < 0 then n + 18446744073709551616 else n
  {}

  /** A request's header: no type, since REQUEST is 0; the id, little endian; service, method and payload. */
  lemma RequestBytes(id: int, c: Call)
    requires 1 <= id < 18446744073709551616
    ensures Serialize(HEADER, RequestHeader(id, c))
         == [17] + LittleEndian(id, 8)
            + (StringField(26, c.desc.service) + (StringField(34, c.desc.name)
               + StringField(42, Serialize(c.desc.input, c.request))))
  {
    hide Serialize, StringField, LittleEndian;
    HeaderBytes(0, id, c.desc.service, c.desc.name, Serialize(c.desc.input, c.request));
    assert NumberField(8, 0) == [];
  }

  /** A response's header: the type 1, the id and the payload, and no other field. */
  lemma ResponseBytes(id: int, payload: bytes)
    requires 1 <= id < 18446744073709551616
    ensures Serialize(HEADER, ResponseHeader(id, payload))
         == [8, 1] + ([17] + LittleEndian(id, 8)
           + (if payload == [] then [] else [42] + VarintBytes(|payload|) + payload))
  {
    hide Serialize, LittleEndian;
    HeaderBytes(1, id, [], [], payload);
    SmallVarint(1);
    assert NumberField(8, 1) == [8] + [1] == [8, 1];
    assert StringField(26, []) == [] && StringField(34, []) == [];
    assert [] + StringField(42, payload) == StringField(42, payload);
    assert [] + ([] + StringField(42, payload)) == StringField(42, payload);
  }

  /** How long a request's header is does not depend on its id. */
  lemma SameLength(id: int, id': int, c: Call)
    requires 1 <= id < TWO64 && 1 <= id' < TWO64
    ensures |Serialize(HEADER, RequestHeader(id, c))| == |Serialize(HEADER, RequestHeader(id', c))|
  {
    hide Serialize, StringField;
    RequestBytes(id, c);
    RequestBytes(id', c);
  }

  lemma ResultCodeBytes(code: int, msg: bytes)
    requires -2147483648 <= code <= 2147483647
    ensures Serialize(RESULT_CODE, Message([Num(code), Str(msg)], []))
         == NumberField(8, if code < 0 then code + 18446744073709551616 else code) + StringField(18, msg)
  {
    hide FieldRecords, RecordsBytes, RecordsFrom, Serialize, StringField, NumberField, Widen, VarintBytes, LittleEndian;
    var f := [Num(code), Str(msg)];
    assert |RESULT_CODE| == 2 && RESULT_CODE[0] == Int32;
    WidenIs(code);
    NumberBytes(RESULT_CODE, 0, code);
    StringBytes(RESULT_CODE, 1, msg);
    SerializedFields(RESULT_CODE, f);
    FieldThenRest(RESULT_CODE, f, 0);
    FieldThenRest(RESULT_CODE, f, 1);
    NoFields(RESULT_CODE, f);
    assert StringField(18, msg) + [] == StringField(18, msg);
  }

  lemma LoginRequestBytes(name: bytes, pwd: bytes)
    ensures Serialize(LOGIN_REQUEST, Message([Str(name), Str(pwd)], [])) == StringField(10, name) + StringField(18, pwd)
  {
    hide FieldRecords, RecordsBytes, RecordsFrom, Serialize, StringField, NumberField, Widen, VarintBytes, LittleEndian;
    var f := [Str(name), Str(pwd)];
    assert |LOGIN_REQUEST| == 2;
    StringBytes(LOGIN_REQUEST, 0, name);
    StringBytes(LOGIN_REQUEST, 1, pwd);
    SerializedFields(LOGIN_REQUEST, f);
    FieldThenRest(LOGIN_REQUEST, f, 0);
    FieldThenRest(LOGIN_REQUEST, f, 1);
    NoFields(LOGIN_REQUEST, f);
    assert StringField(18, pwd) + [] == StringField(18, pwd);
  }

  lemma AbsentBytes(schema: Schema, i: nat)
    requires i < |schema|
    ensures RecordsBytes(FieldRecords(schema, i, Nested(None))) == []
  {}

  lemma TrueBytes(success: bool)
    ensures NumberField(16, if success then 1 else 0) == if success then [16, 1] else []
  {
    SmallVarint(1);
    assert NumberField(16, 1) == [16] + [1] == [16, 1];
  }

  /** An absent result is not written; a present one is, even when it is empty. */
  lemma LoginResponseBytes(result: Option<Message>, success: bool)
    ensures Serialize(LOGIN_RESPONSE, Message([Nested(result), Num(if success then 1 else 0)], []))
         == (if result.None? then []
             else var body := Serialize(RESULT_CODE, result.value); [10] + VarintBytes(|body|) + body)
            + (if success then [16, 1] else [])
  {
    hide FieldRecords, RecordsBytes, RecordsFrom, Serialize, StringField, NumberField, Widen, VarintBytes, LittleEndian;
    var n := if success then 1 else 0;
    var f := [Nested(result), Num(n)];
    assert |LOGIN_RESPONSE| == 2 && LOGIN_RESPONSE[0] == Sub(RESULT_CODE) && LOGIN_RESPONSE[1] == Bool;
    AbsentBytes(LOGIN_RESPONSE, 0);
    if result.Some? { SubBytes(LOGIN_RESPONSE, 0, result.value); }
    WidenSame(n);
    NumberBytes(LOGIN_RESPONSE, 1, n);
    TrueBytes(success);
    SerializedFields(LOGIN_RESPONSE, f);
    FieldThenRest(LOGIN_RESPONSE, f, 0);
    FieldThenRest(LOGIN_RESPONSE, f, 1);
    NoFields(LOGIN_RESPONSE, f);
    assert NumberField(16, n) + [] == NumberField(16, n);
  }

  lemma RegisterRequestBytes(id: nat, name: bytes, pwd: bytes)
    ensures Serialize(REGISTER_REQUEST, Message([Num(id), Str(name), Str(pwd)], []))
         == NumberField(8, id) + (StringField(18, name) + StringField(26, pwd))
  {
    hide FieldRecords, RecordsBytes, RecordsFrom, Serialize, StringField, NumberField, Widen, VarintBytes, LittleEndian;
    var f := [Num(id), Str(name), Str(pwd)];
    assert |REGISTER_REQUEST| == 3 && REGISTER_REQUEST[0] == UInt32;
    NumberBytes(REGISTER_REQUEST, 0, id);
    StringBytes(REGISTER_REQUEST, 1, name);
    StringBytes(REGISTER_REQUEST, 2, pwd);
    WidenSame(id);
    SerializedFields(REGISTER_REQUEST, f);
    FieldThenRest(REGISTER_REQUEST, f, 0);
    FieldThenRest(REGISTER_REQUEST, f, 1);
    FieldThenRest(REGISTER_REQUEST, f, 2);
    NoFields(REGISTER_REQUEST, f);
    assert StringField(26, pwd) + [] == StringField(26, pwd);
  }

  // ---------------------------------------------------------------- frames

  lemma PrefixBytes(n: nat)
    requires n < TWO32
    ensures BigEndian(n) == [n / 16777216, n / 65536 % 256, n / 256 % 256, n % 256]
  {}

  /** The prefix counts itself and comes most significant byte first. */
  lemma FrameBytes(h: Header)
    requires HeaderOk(h)
    ensures var raw := Serialize(HEADER, h); var n := |raw| + 4;
            && n < 4294967296
            && Frame(h) == [n / 16777216, n / 65536 % 256, n / 256 % 256, n % 256] + raw
            && |Frame(h)| == n
  {
    hide Serialize, BigEndian, WellFormed;
    PrefixBytes(|Serialize(HEADER, h)| + 4);
  }

  /** The answer "success" to call 7, byte by byte. */
  lemma SuccessFrame()
    ensures Frame(ResponseHeader(7, Serialize(LOGIN_RESPONSE, Message([Nested(None), Num(1)], []))))
         == [0, 0, 0, 19, 8, 1, 17, 7, 0, 0, 0, 0, 0, 0, 0, 42, 2, 16, 1]
  {
    hide Serialize, ResponseHeader;
    LoginResponseBytes(None, true);
    assert Serialize(LOGIN_RESPONSE, Message([Nested(None), Num(1)], [])) == [] + [16, 1] == [16, 1];
    SevenBytes();
    assert BigEndian(19) == [0, 0, 0, 19];
  }

  lemma SevenBytes()
    ensures Serialize(HEADER, ResponseHeader(7, [16, 1])) == [8, 1, 17, 7, 0, 0, 0, 0, 0, 0, 0, 42, 2, 16, 1]
  {
    hide Serialize, LittleEndian;
    ResponseBytes(7, [16, 1]);
    SmallVarint(2);
    Seven();
    assert [42] + [2] + [16, 1] == [42, 2, 16, 1];
    assert [17] + [7, 0, 0, 0, 0, 0, 0, 0] == [17, 7, 0, 0, 0, 0, 0, 0, 0];
  }

  lemma Seven()
    ensures LittleEndian(7, 8) == [7, 0, 0, 0, 0, 0, 0, 0]
  {
    assert LittleEndian(0, 0) == [];
    assert LittleEndian(0, 1) == [0] + LittleEndian(0, 0) == [0];
    assert LittleEndian(0, 2) == [0] + LittleEndian(0, 1) == [0, 0];
    assert LittleEndian(0, 3) == [0] + LittleEndian(0, 2) == [0, 0, 0];
    assert LittleEndian(0, 4) == [0] + LittleEndian(0, 3) == [0, 0, 0, 0];
    assert LittleEndian(0, 5) == [0] + LittleEndian(0, 4) == [0, 0, 0, 0, 0];
    assert LittleEndian(0, 6) == [0] + LittleEndian(0, 5) == [0, 0, 0, 0, 0, 0];
    assert LittleEndian(0, 7) == [0] + LittleEndian(0, 6) == [0, 0, 0, 0, 0, 0, 0];
    assert LittleEndian(7, 8) == [7] + LittleEndian(0, 7);
  }

  // ---------------------------------------------------------------- limits

  /** A frame of at most 67108864 bytes is taken, and one of 67108865 bytes or more is refused. */
  lemma FrameLimit(h: Header, rest: bytes)
    requires HeaderOk(h)
    ensures TakeFrame(Frame(h) + rest) == if |Frame(h)| <= 67108864 then Got(h, rest) else BadLength
  {
    hide Serialize, TakeFrame;
    FrameBytes(h);
    FrameTakenOnlyIfFits(h, rest);
    OnlyLength(h);
  }

  lemma OnlyLength(h: Header)
    requires HeaderOk(h)
    ensures Fits(h) <==> |Serialize(HEADER, h)| + 4 <= 67108864
  {
    hide Serialize, WellFormed;
  }

  /** The receiver's decision on the four bytes of a length: it goes on exactly from 4 to 67108864. */
  lemma LengthLimits(a: byte, b: byte, c: byte, d: byte)
    ensures var n := a * 16777216 + b * 65536 + c * 256 + d;
            TakeFrame([a, b, c, d]) == BadLength <==> n < 4 || n > 67108864
  {
    var s := [a, b, c, d];
    assert s[..4] == s;
  }

  /** A message is serialized exactly below 2 GiB. */
  lemma SerializableLimit(schema: Schema, m: Message)
    ensures Serializable(schema, m) <==> |Serialize(schema, m)| <= 2147483647
  {
    hide Serialize;
  }
}
