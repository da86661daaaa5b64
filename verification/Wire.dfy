/** The primitives of the Protocol Buffers wire format: base-128 varints, little-endian fixed
    numbers, tags and length-delimited records. Everything the generated parsers and serializers
    of src/rpc.pb.cc and example/user.pb.cc call in the protobuf runtime is defined here. */
module Wire {
  datatype Option<+T> = None | Some(value: T)

  type byte = b: int | 0 <= b < 256
  type bytes = seq<byte>

  const TWO31: int := 0x8000_0000
  const TWO32: int := 0x1_0000_0000
  const TWO64: int := 0x1_0000_0000_0000_0000

  // ---------------------------------------------------------------- varints

  /** 128 to the power n: the number of values n varint bytes can carry. */
  function Pow128(n: nat): (p: nat)
    ensures p >= 1
  {
    if n == 0 then 1 else 128 * Pow128(n - 1)
  }

  /** "Base 128 Varints": least significant group first, high bit set on all but the last byte. */
  function VarintBytes(v: nat): (s: bytes)
    ensures |s| >= 1
  {
    if v < 128 then [v] else [v % 128 + 128] + VarintBytes(v / 128)
  }

  /** Reads a varint of at most `limit` bytes; the answer is its value and its length.
      The value is not yet cut to a machine width. */
  function ReadVarint(s: bytes, limit: nat): (r: Option<(nat, nat)>)
    ensures r.Some? ==> 1 <= r.value.1 <= |s| && r.value.1 <= limit
  {
    if limit == 0 || s == [] then None
    else if s[0] < 128 then Some((s[0], 1))
    else
      match ReadVarint(s[1..], limit - 1)
      case None => None
      case Some((v, n)) => Some((s[0] - 128 + 128 * v, n + 1))
  }

  lemma {:induction false} ReadVarintInverse(v: nat, limit: nat, rest: bytes)
    requires 0 < limit && v < Pow128(limit)
    ensures ReadVarint(VarintBytes(v) + rest, limit) == Some((v, |VarintBytes(v)|))
  {
    if v >= 128 {
      assert limit > 1;
      ReadVarintInverse(v / 128, limit - 1, rest);
      assert (VarintBytes(v) + rest)[1..] == VarintBytes(v / 128) + rest;
    }
  }

  /** A varint that was read stays what it was when more bytes follow. */
  lemma {:induction false} ReadVarintExtend(s: bytes, limit: nat, more: bytes)
    requires ReadVarint(s, limit).Some?
    ensures ReadVarint(s + more, limit) == ReadVarint(s, limit)
  {
    if s[0] >= 128 {
      assert (s + more)[1..] == s[1..] + more;
      ReadVarintExtend(s[1..], limit - 1, more);
    }
  }

  /** Varints form a prefix code, so distinct numbers never share a first varint. */
  lemma VarintPrefixFree(v: nat, w: nat, a: bytes, b: bytes)
    requires VarintBytes(v) + a == VarintBytes(w) + b
    ensures v == w && a == b
  {
    var limit := v + w;
    PowBound(limit);
    ReadVarintInverse(v, limit + 1, a);
    ReadVarintInverse(w, limit + 1, b);
    assert a == (VarintBytes(v) + a)[|VarintBytes(v)|..];
    assert b == (VarintBytes(w) + b)[|VarintBytes(w)|..];
  }

  lemma {:induction false} PowBound(n: nat)
    ensures n < Pow128(n + 1)
  {
    if n > 0 { PowBound(n - 1); }
  }

  /** Ten bytes carry every 64-bit number and five every 32-bit number. */
  lemma PowWidths()
    ensures TWO64 <= Pow128(10) && TWO32 <= Pow128(5)
  {
    assert Pow128(1) == 128;
    assert Pow128(2) == 128 * 128;
    assert Pow128(3) == 128 * 128 * 128;
    assert Pow128(4) == 0x1000_0000;
    assert Pow128(5) == 0x8_0000_0000;
    assert Pow128(6) == 128 * 0x8_0000_0000;
    assert Pow128(7) == 128 * 128 * 0x8_0000_0000;
    assert Pow128(8) == 128 * 128 * 128 * 0x8_0000_0000;
    assert Pow128(9) == 0x1000_0000 * 0x8_0000_0000;
    assert Pow128(10) == 0x8_0000_0000 * 0x8_0000_0000;
  }

  // ---------------------------------------------------------------- fixed-width numbers

  /** "Non-varint Numbers": n bytes, least significant first. */
  function LittleEndian(v: nat, n: nat): (s: bytes)
    ensures |s| == n
  {
    if n == 0 then [] else [v % 256] + LittleEndian(v / 256, n - 1)
  }

  function FromLittleEndian(s: bytes): nat {
    if s == [] then 0 else s[0] + 256 * FromLittleEndian(s[1..])
  }

  function Pow256(n: nat): (p: nat)
    ensures p >= 1
  {
    if n == 0 then 1 else 256 * Pow256(n - 1)
  }

  lemma {:induction false} LittleEndianInverse(v: nat, n: nat)
    requires v < Pow256(n)
    ensures FromLittleEndian(LittleEndian(v, n)) == v
  {
    if n > 0 { LittleEndianInverse(v / 256, n - 1); }
  }

  lemma {:induction false} FromLittleEndianBound(s: bytes)
    ensures FromLittleEndian(s) < Pow256(|s|)
  {
    if s != [] { FromLittleEndianBound(s[1..]); }
  }

  lemma FixedWidths()
    ensures Pow256(8) == TWO64 && Pow256(4) == TWO32
  {
    assert Pow256(1) == 0x100;
    assert Pow256(2) == 0x1_0000;
    assert Pow256(3) == 0x100_0000;
    assert Pow256(4) == 0x1_0000_0000;
    assert Pow256(5) == 0x100_0000_0000;
    assert Pow256(6) == 0x1_0000_0000_0000;
    assert Pow256(7) == 0x100_0000_0000_0000;
  }

  // ---------------------------------------------------------------- records

  /** One field occurrence on the wire: "Message Structure". A group holds records between its start
      and its end tag. */
  datatype Record =
    | Varint(num: nat, v: nat)
    | Fixed64(num: nat, v: nat)
    | Len(num: nat, data: bytes)
    | Fixed32(num: nat, v: nat)
    | Group(num: nat, fields: seq<Record>)

  predicate ValidRecord(r: Record) {
    && 1 <= r.num < 0x2000_0000
    && match r
       case Varint(_, v) => v < TWO64
       case Fixed64(_, v) => v < TWO64
       case Len(_, d) => |d| < TWO31
       case Fixed32(_, v) => v < TWO32
       case Group(_, fields) => forall f :: f in fields ==> ValidRecord(f)
  }

  function WireType(r: Record): nat {
    match r
    case Varint(_, _) => 0
    case Fixed64(_, _) => 1
    case Len(_, _) => 2
    case Group(_, _) => 3
    case Fixed32(_, _) => 5
  }

  function TagOf(r: Record): nat { r.num * 8 + WireType(r) }

  function EndTag(num: nat): nat { num * 8 + 4 }

  function BodyBytes(r: Record): bytes
    decreases r, 0
  {
    match r
    case Varint(_, v) => VarintBytes(v)
    case Fixed64(_, v) => LittleEndian(v, 8)
    case Len(_, d) => VarintBytes(|d|) + d
    case Fixed32(_, v) => LittleEndian(v, 4)
    case Group(num, fields) => RecordsBytes(fields) + VarintBytes(EndTag(num))
  }

  function RecordBytes(r: Record): (s: bytes)
    ensures |s| >= 1
    decreases r, 1
  {
    VarintBytes(TagOf(r)) + BodyBytes(r)
  }

  function RecordsBytes(rs: seq<Record>): bytes
    decreases rs
  {
    if rs == [] then [] else RecordBytes(rs[0]) + RecordsBytes(rs[1..])
  }

  /** A tag is a 32-bit number of at most five bytes. The answer is the tag and its length. */
  function ReadTag(s: bytes): (r: Option<(nat, nat)>)
    ensures r.Some? ==> 1 <= r.value.1 <= |s| && r.value.0 < TWO32
  {
    match ReadVarint(s, 5)
    case None => None
    case Some((v, n)) => Some((v % TWO32, n))
  }

  /** Reads the part of a record behind its tag; the answer is the record and its length. An end tag
      that no group waits for is refused, and so are wire types 6 and 7. */
  function ReadBody(tag: nat, s: bytes): (r: Option<(Record, nat)>)
    ensures r.Some? ==> r.value.1 <= |s|
    decreases |s|, 2
  {
    var num := tag / 8;
    if num == 0 then None
    else if tag % 8 == 0 then
      match ReadVarint(s, 10)
      case None => None
      case Some((v, n)) => Some((Varint(num, v % TWO64), n))
    else if tag % 8 == 1 then
      if |s| < 8 then None else Some((Fixed64(num, FromLittleEndian(s[..8])), 8))
    else if tag % 8 == 2 then
      match ReadVarint(s, 5)
      case None => None
      case Some((len, n)) =>
        if len >= TWO31 || n + len > |s| then None else Some((Len(num, s[n..n + len]), n + len))
    else if tag % 8 == 3 then
      match ReadGroup(num, s)
      case None => None
      case Some((fields, n)) => Some((Group(num, fields), n))
    else if tag % 8 == 5 then
      if |s| < 4 then None else Some((Fixed32(num, FromLittleEndian(s[..4])), 4))
    else None
  }

  /** The records up to the end tag of group num, and their length with that tag. */
  function ReadGroup(num: nat, s: bytes): (r: Option<(seq<Record>, nat)>)
    ensures r.Some? ==> 1 <= r.value.1 <= |s|
    decreases |s|, 1
  {
    match ReadTag(s)
    case None => None
    case Some((tag, n)) =>
      if tag == EndTag(num) then Some(([], n))
      else
        match ReadRecord(s)
        case None => None
        case Some((rec, m)) =>
          match ReadGroup(num, s[m..])
          case None => None
          case Some((fields, k)) => Some(([rec] + fields, m + k))
  }

  function ReadRecord(s: bytes): (r: Option<(Record, nat)>)
    ensures r.Some? ==> 1 <= r.value.1 <= |s|
    decreases |s|, 0
  {
    match ReadTag(s)
    case None => None
    case Some((tag, n)) =>
      match ReadBody(tag, s[n..])
      case None => None
      case Some((rec, m)) => Some((rec, n + m))
  }

  /** The whole byte string as records, or None when some record is malformed. */
  function ParseRecords(s: bytes): Option<seq<Record>>
    decreases |s|
  {
    if s == [] then Some([])
    else
      match ReadRecord(s)
      case None => None
      case Some((rec, n)) => Prepend([rec], ParseRecords(s[n..]))
  }

  function Prepend<T>(xs: seq<T>, ys: Option<seq<T>>): Option<seq<T>> {
    if ys.Some? then Some(xs + ys.value) else None
  }

  lemma ReadTagInverse(tag: nat, rest: bytes)
    requires tag < TWO32
    ensures ReadTag(VarintBytes(tag) + rest) == Some((tag, |VarintBytes(tag)|))
  {
    PowWidths();
    ReadVarintInverse(tag, 5, rest);
  }

  lemma ReadNumberInverse(r: Record, rest: bytes)
    requires ValidRecord(r) && !r.Len? && !r.Group?
    ensures ReadBody(TagOf(r), BodyBytes(r) + rest) == Some((r, |BodyBytes(r)|))
  {
    hide ReadVarint, VarintBytes, LittleEndian, FromLittleEndian, Pow128, Pow256;
    var s := BodyBytes(r) + rest;
    match r
    case Varint(_, v) =>
      PowWidths();
      ReadVarintInverse(v, 10, rest);
    case Fixed64(_, v) =>
      FixedWidths();
      LittleEndianInverse(v, 8);
      assert s[..8] == LittleEndian(v, 8);
    case Fixed32(_, v) =>
      FixedWidths();
      LittleEndianInverse(v, 4);
      assert s[..4] == LittleEndian(v, 4);
  }

  lemma ReadLenInverse(num: nat, d: bytes, rest: bytes)
    requires ValidRecord(Len(num, d))
    ensures ReadBody(num * 8 + 2, VarintBytes(|d|) + d + rest) == Some((Len(num, d), |VarintBytes(|d|)| + |d|))
  {
    hide ReadVarint, VarintBytes, LittleEndian, FromLittleEndian, Pow128;
    var s := VarintBytes(|d|) + d + rest;
    var n := |VarintBytes(|d|)|;
    assert s == VarintBytes(|d|) + (d + rest);
    assert ReadVarint(s, 5) == Some((|d|, n)) by {
      PowWidths();
      ReadVarintInverse(|d|, 5, d + rest);
    }
    assert s[n..n + |d|] == d;
  }

  lemma {:induction false} ReadBodyInverse(r: Record, rest: bytes)
    requires ValidRecord(r)
    ensures ReadBody(TagOf(r), BodyBytes(r) + rest) == Some((r, |BodyBytes(r)|))
    decreases r, 0
  {
    hide ReadVarint, VarintBytes, LittleEndian, FromLittleEndian, ReadGroup, RecordsBytes, ReadBody;
    match r
    case Len(num, d) => ReadLenInverse(num, d, rest);
    case Group(num, fields) =>
      GroupInverse(num, fields, rest);
      GroupBody(num, fields, rest);
    case _ => ReadNumberInverse(r, rest);
  }

  lemma GroupBody(num: nat, fields: seq<Record>, rest: bytes)
    requires 1 <= num
    requires var end := VarintBytes(EndTag(num));
             ReadGroup(num, RecordsBytes(fields) + (end + rest)) == Some((fields, |RecordsBytes(fields)| + |end|))
    ensures var r := Group(num, fields); ReadBody(TagOf(r), BodyBytes(r) + rest) == Some((r, |BodyBytes(r)|))
  {
    hide ReadVarint, VarintBytes, LittleEndian, FromLittleEndian, ReadGroup, RecordsBytes;
    var r := Group(num, fields);
    assert BodyBytes(r) + rest == RecordsBytes(fields) + (VarintBytes(EndTag(num)) + rest);
  }

  /** A group ends at its own end tag. */
  lemma {:induction false} GroupInverse(num: nat, fields: seq<Record>, rest: bytes)
    requires 1 <= num < 0x2000_0000 && forall f :: f in fields ==> ValidRecord(f)
    ensures var end := VarintBytes(EndTag(num));
            ReadGroup(num, RecordsBytes(fields) + (end + rest)) == Some((fields, |RecordsBytes(fields)| + |end|))
    decreases fields
  {
    hide ReadVarint, VarintBytes, BodyBytes, ReadBody, ReadRecord, ReadTag;
    var end := VarintBytes(EndTag(num));
    var s := RecordsBytes(fields) + (end + rest);
    if fields == [] {
      assert s == end + rest;
      ReadTagInverse(EndTag(num), rest);
    } else {
      var f := fields[0];
      var tail := RecordsBytes(fields[1..]) + (end + rest);
      assert f in fields;
      assert s == RecordBytes(f) + tail;
      RecordTag(f, tail);
      ReadRecordInverse(f, tail);
      assert s[|RecordBytes(f)|..] == tail;
      GroupInverse(num, fields[1..], rest);
      assert [f] + fields[1..] == fields;
    }
  }

  /** The tag that a written record starts with, which is no end tag. */
  lemma RecordTag(r: Record, rest: bytes)
    requires ValidRecord(r)
    ensures ReadTag(RecordBytes(r) + rest) == Some((TagOf(r), |VarintBytes(TagOf(r))|))
    ensures TagOf(r) % 8 != 4
  {
    hide VarintBytes, BodyBytes, ReadTag;
    assert RecordBytes(r) + rest == VarintBytes(TagOf(r)) + (BodyBytes(r) + rest);
    ReadTagInverse(TagOf(r), BodyBytes(r) + rest);
  }

  /** What was written as one record is read back as that record, whatever follows it. */
  lemma {:induction false} ReadRecordInverse(r: Record, rest: bytes)
    requires ValidRecord(r)
    ensures ReadRecord(RecordBytes(r) + rest) == Some((r, |RecordBytes(r)|))
    decreases r, 1
  {
    hide VarintBytes, BodyBytes, ReadTag, ReadBody;
    var t := VarintBytes(TagOf(r));
    RecordTag(r, rest);
    assert (RecordBytes(r) + rest)[|t|..] == BodyBytes(r) + rest;
    ReadBodyInverse(r, rest);
  }

  lemma ParseRecordsStep(r: Record, rest: bytes)
    requires ValidRecord(r)
    ensures ParseRecords(RecordBytes(r) + rest) == Prepend([r], ParseRecords(rest))
  {
    ReadRecordInverse(r, rest);
    assert (RecordBytes(r) + rest)[|RecordBytes(r)|..] == rest;
  }

  lemma PrependTwice<T>(a: seq<T>, b: seq<T>, c: Option<seq<T>>)
    ensures Prepend(a, Prepend(b, c)) == Prepend(a + b, c)
    ensures Prepend([], c) == c
  {
    if c.Some? {
      assert a + (b + c.value) == (a + b) + c.value;
      assert [] + c.value == c.value;
    }
  }

  /** Parsing undoes writing: the record sequence survives, and what follows is parsed on its own. */
  lemma {:induction false} ParseRecordsInverse(rs: seq<Record>, rest: bytes)
    requires forall r :: r in rs ==> ValidRecord(r)
    ensures ParseRecords(RecordsBytes(rs) + rest) == Prepend(rs, ParseRecords(rest))
  {
    PrependTwice([], [], ParseRecords(rest));
    if rs == [] {
      assert RecordsBytes(rs) + rest == rest;
    } else {
      var tail := RecordsBytes(rs[1..]) + rest;
      assert RecordsBytes(rs) + rest == RecordBytes(rs[0]) + tail;
      ParseRecordsStep(rs[0], tail);
      ParseRecordsInverse(rs[1..], rest);
      PrependTwice([rs[0]], rs[1..], ParseRecords(rest));
      assert [rs[0]] + rs[1..] == rs;
    }
  }

  lemma {:induction false} ReadBodyExtend(tag: nat, s: bytes, more: bytes)
    requires ReadBody(tag, s).Some?
    ensures ReadBody(tag, s + more) == ReadBody(tag, s)
    decreases |s|, 2
  {
    hide ReadVarint, FromLittleEndian, ReadGroup;
    if tag % 8 == 0 {
      ReadVarintExtend(s, 10, more);
    } else if tag % 8 == 2 {
      ReadVarintExtend(s, 5, more);
      var (len, n) := ReadVarint(s, 5).value;
      assert (s + more)[n..n + len] == s[n..n + len];
    } else if tag % 8 == 1 {
      assert (s + more)[..8] == s[..8];
    } else if tag % 8 == 3 {
      ReadGroupExtend(tag / 8, s, more);
    } else {
      assert (s + more)[..4] == s[..4];
    }
  }

  lemma {:induction false} ReadGroupExtend(num: nat, s: bytes, more: bytes)
    requires ReadGroup(num, s).Some?
    ensures ReadGroup(num, s + more) == ReadGroup(num, s)
    decreases |s|, 1
  {
    hide ReadVarint, ReadRecord;
    ReadVarintExtend(s, 5, more);
    var (tag, n) := ReadTag(s).value;
    if tag != EndTag(num) {
      ReadRecordExtend(s, more);
      var (rec, m) := ReadRecord(s).value;
      assert (s + more)[m..] == s[m..] + more;
      ReadGroupExtend(num, s[m..], more);
    }
  }

  lemma {:induction false} ReadRecordExtend(s: bytes, more: bytes)
    requires ReadRecord(s).Some?
    ensures ReadRecord(s + more) == ReadRecord(s)
    decreases |s|, 0
  {
    hide ReadVarint, ReadBody;
    ReadVarintExtend(s, 5, more);
    var (tag, n) := ReadTag(s).value;
    assert (s + more)[n..] == s[n..] + more;
    ReadBodyExtend(tag, s[n..], more);
  }

  /** Accepted byte strings parse independently of what is appended to them. */
  lemma {:induction false} ParseRecordsConcat(a: bytes, b: bytes)
    requires ParseRecords(a).Some?
    ensures ParseRecords(a + b) == Prepend(ParseRecords(a).value, ParseRecords(b))
    decreases |a|
  {
    PrependTwice([], [], ParseRecords(b));
    if a == [] {
      assert a + b == b;
    } else {
      var (rec, n) := ReadRecord(a).value;
      ReadRecordExtend(a, b);
      assert (a + b)[n..] == a[n..] + b;
      ParseRecordsConcat(a[n..], b);
      PrependTwice([rec], ParseRecords(a[n..]).value, ParseRecords(b));
    }
  }

  /** Only records with field numbers and values of the format's widths are ever produced. */
  lemma {:induction false} ReadRecordValid(s: bytes)
    requires ReadRecord(s).Some?
    ensures ValidRecord(ReadRecord(s).value.0)
    decreases |s|, 0
  {
    hide ReadVarint, ReadBody, ValidRecord;
    var (tag, n) := ReadTag(s).value;
    ReadBodyValid(tag, s[n..]);
  }

  lemma {:induction false} ReadBodyValid(tag: nat, s: bytes)
    requires ReadBody(tag, s).Some? && tag < TWO32
    ensures ValidRecord(ReadBody(tag, s).value.0)
    decreases |s|, 2
  {
    hide ReadVarint, FromLittleEndian, ReadGroup, Pow256;
    FixedWidths();
    if tag % 8 == 1 { FromLittleEndianBound(s[..8]); }
    if tag % 8 == 5 { FromLittleEndianBound(s[..4]); }
    if tag % 8 == 3 { ReadGroupValid(tag / 8, s); }
  }

  lemma {:induction false} ReadGroupValid(num: nat, s: bytes)
    requires ReadGroup(num, s).Some?
    ensures forall f :: f in ReadGroup(num, s).value.0 ==> ValidRecord(f)
    decreases |s|, 1
  {
    hide ReadVarint, ReadRecord, ValidRecord;
    if ReadTag(s).value.0 != EndTag(num) {
      ReadRecordValid(s);
      ReadGroupValid(num, s[ReadRecord(s).value.1..]);
    }
  }

  lemma {:induction false} ParseRecordsValid(s: bytes)
    requires ParseRecords(s).Some?
    ensures forall r :: r in ParseRecords(s).value ==> ValidRecord(r)
    decreases |s|
  {
    if s != [] {
      ReadRecordValid(s);
      ParseRecordsValid(s[ReadRecord(s).value.1..]);
    }
  }

  lemma {:induction false} RecordsBytesConcat(a: seq<Record>, b: seq<Record>)
    ensures RecordsBytes(a + b) == RecordsBytes(a) + RecordsBytes(b)
  {
    if a == [] {
      assert a + b == b;
    } else {
      assert (a + b)[1..] == a[1..] + b;
      RecordsBytesConcat(a[1..], b);
    }
  }
}
