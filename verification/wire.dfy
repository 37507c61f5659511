/** The protocol buffer wire format as the generated code reads and writes it
    (Protocol Buffers Encoding guide, "Base 128 Varints" and "Message Structure"). */
module Wire {
  import opened Basics
  import opened Colfer

  datatype Trouble = UnexpectedEof | IntOverflow | InvalidLength | IllegalWireType | IllegalTag | EndGroup | WrongWireType | BadEntry

  datatype Read<T> = Done(value: T, next: nat) | Bad(fault: Trouble)

  // ---------------------------------------------------------------- varints

  /** The size of a varint, counted by shifting until nothing is left. */
  function Sov(x: nat): nat {
    if x / 128 == 0 then 1 else 1 + Sov(x / 128)
  }

  lemma {:induction false} SovIsLength(x: nat)
    ensures Sov(x) == |Varint(x)|
  {
    if x / 128 != 0 { SovIsLength(x / 128); }
  }

  /** Read a varint of at most ten bytes; what does not fit 64 bits is lost. */
  function GetVarint(data: seq<Byte>, i: nat, k: nat, x: nat): Read<nat>
    decreases |data| - i
  {
    if k >= 10 then Bad(IntOverflow)
    else if i >= |data| then Bad(UnexpectedEof)
    else
      var y := x + Placed(data[i] % 128, k, TWO64);
      if data[i] < 128 then Done(y, i + 1) else GetVarint(data, i + 1, k + 1, y)
  }

  lemma {:induction false} GetVarintMoves(data: seq<Byte>, i: nat, k: nat, x: nat)
    ensures var r := GetVarint(data, i, k, x); r.Done? ==> i < r.next <= |data|
    decreases |data| - i
  {
    if k < 10 && i < |data| && data[i] >= 128 { GetVarintMoves(data, i + 1, k + 1, x + Placed(data[i] % 128, k, TWO64)); }
  }

  lemma {:induction false} ShiftedIsProduct(d: nat, k: nat)
    ensures Shifted(d, k) == d * Limit(k)
  {
    if k > 0 {
      ShiftedIsProduct(d, k - 1);
      assert d * (128 * Limit(k - 1)) == 128 * (d * Limit(k - 1));
    }
  }

  lemma LimitNine()
    ensures Limit(9) == TWO63
  {
    assert Limit(7) == TWO49;
    assert Limit(9) == 128 * 128 * Limit(7);
  }

  lemma TopDigit(d: nat)
    requires d < 128
    ensures Placed(d, 9, TWO64) <= TWO63
  {
    ShiftedIsProduct(d, 9);
    LimitNine();
    assert d * TWO63 == d / 2 * TWO64 + d % 2 * TWO63;
  }

  /** What a varint of up to ten bytes says fits 64 bits. */
  lemma {:induction false} GetVarintFits(data: seq<Byte>, i: nat, k: nat, x: nat)
    requires if k <= 9 then x < Limit(k) else x < TWO64
    ensures var r := GetVarint(data, i, k, x); r.Done? ==> r.value < TWO64
    decreases |data| - i
  {
    if k < 10 && i < |data| {
      var y := x + Placed(data[i] % 128, k, TWO64);
      assert (if k < 9 then y < Limit(k + 1) && 2 * Limit(k + 1) <= TWO64 else y < TWO64) by {
        LimitBound(if k < 9 then k + 1 else 9);
        if k == 9 { TopDigit(data[i] % 128); } else if k > 0 { DigitFits(data[i], k, x); }
      }
      if data[i] >= 128 { GetVarintFits(data, i + 1, k + 1, y); }
    }
  }

  lemma {:induction false} VarintReads(data: seq<Byte>, i: nat, k: nat, x: nat, y: nat)
    requires At(data, i, Varint(y)) && k + |Varint(y)| <= 10 && x + Shifted(y, k) < TWO64
    ensures GetVarint(data, i, k, x) == Done(x + Shifted(y, k), i + |Varint(y)|)
    decreases y
  {
    VarintHead(data, i, y);
    if y >= 128 {
      SplitDigit(y, k);
      VarintReads(data, i + 1, k + 1, x + Shifted(y % 128, k), y / 128);
    }
  }

  /** Every 64-bit number is read back. */
  lemma VarintRoundTrip(data: seq<Byte>, i: nat, y: U64)
    requires At(data, i, Varint(y))
    ensures GetVarint(data, i, 0, 0) == Done(y, i + |Varint(y)|)
  {
    LimitTen();
    VarintLength(y, 10);
    VarintReads(data, i, 0, 0, y);
  }

  lemma LimitTen()
    ensures Limit(10) > TWO64
  {
    assert Limit(7) == TWO49;
    assert Limit(10) == 128 * 128 * 128 * Limit(7);
  }

  lemma Digit(x: nat, tail: seq<Byte>)
    requires x >= 128 && Varint(x / 128) == tail
    ensures Varint(x) == [128 + x % 128] + tail
  {}

  lemma Regroup(a: seq<Byte>, b: seq<Byte>, c: seq<Byte>)
    ensures (a + b) + c == a + (b + c)
  {}

  // ---------------------------------------------------------------- messages

  datatype Value =
    | Number(x: U64)
    | Fixed64(bytes: seq<Byte>)
    | Bytes(bytes: seq<Byte>)
    | Group(fields: Fields)
    | Fixed32(bytes: seq<Byte>)

  datatype Field = Field(number: nat, value: Value)

  datatype Fields = Nil | Cons(head: Field, tail: Fields)

  function TypeOf(v: Value): nat {
    match v
    case Number(_) => 0
    case Fixed64(_) => 1
    case Bytes(_) => 2
    case Group(_) => 3
    case Fixed32(_) => 5
  }

  /** A field is well formed if its number is a legal one and its parts fit. */
  predicate WellFormed(f: Field)
    decreases f, 1
  {
    0 < f.number < TWO31 && ValueOk(f.value)
  }

  predicate ValueOk(v: Value)
    decreases v, 0
  {
    match v
    case Number(_) => true
    case Fixed64(s) => |s| == 8
    case Bytes(s) => |s| < TWO63
    case Group(fs) => AllOk(fs)
    case Fixed32(s) => |s| == 4
  }

  predicate AllOk(fs: Fields)
    decreases fs, 0
  {
    match fs case Nil => true case Cons(f, rest) => WellFormed(f) && AllOk(rest)
  }

  function Tag(number: nat, kind: nat): nat {
    8 * number + kind
  }

  function Encode(f: Field): seq<Byte>
    decreases f, 1
  {
    Varint(Tag(f.number, TypeOf(f.value))) + Payload(f.number, f.value)
  }

  function Payload(number: nat, v: Value): seq<Byte>
    decreases v, 0
  {
    match v
    case Number(x) => Varint(x)
    case Fixed64(s) => s
    case Bytes(s) => Varint(|s|) + s
    case Group(fs) => EncodeAll(fs) + Varint(Tag(number, 4))
    case Fixed32(s) => s
  }

  function EncodeAll(fs: Fields): seq<Byte>
    decreases fs, 0
  {
    match fs case Nil => [] case Cons(f, rest) => Encode(f) + EncodeAll(rest)
  }

  // ---------------------------------------------------------------- skipping

  datatype Skipped = To(next: nat) | Stop(fault: Trouble)

  function SkipVarint(data: seq<Byte>, i: nat, k: nat): Skipped
    decreases |data| - i
  {
    if k >= 10 then Stop(IntOverflow)
    else if i >= |data| then Stop(UnexpectedEof)
    else if data[i] < 128 then To(i + 1)
    else SkipVarint(data, i + 1, k + 1)
  }

  /** Past a number of bytes given by a varint; a length is a signed 64-bit number,
      counted from where this skip started. */
  function SkipBytes(data: seq<Byte>, start: nat, i: nat): Skipped {
    match GetVarint(data, i, 0, 0)
    case Bad(f) => Stop(f)
    case Done(n, j) => if n >= TWO63 || j - start + n >= TWO63 then Stop(InvalidLength) else To(j + n)
  }

  /** Past one field, whose tag stands at `i`. The end may lie beyond the data: the
      caller checks. */
  function Skip(data: seq<Byte>, i: nat): (r: Skipped)
    ensures r.To? ==> r.next > i
    decreases |data| - i, 2
  {
    GetVarintMoves(data, i, 0, 0);
    match GetVarint(data, i, 0, 0)
    case Bad(f) => Stop(f)
    case Done(wire, j) => SkipPayload(data, i, j, wire % 8)
  }

  /** Past the payload at `j` of the field at `i`. */
  function SkipPayload(data: seq<Byte>, i: nat, j: nat, kind: nat): (r: Skipped)
    requires i < j <= |data|
    ensures r.To? ==> r.next >= j
    decreases |data| - i, 1
  {
    SkipVarintMoves(data, j, 0);
    GetVarintMoves(data, j, 0, 0);
    match kind
    case 0 => SkipVarint(data, j, 0)
    case 1 => To(j + 8)
    case 2 => SkipBytes(data, i, j)
    case 3 => SkipGroup(data, i, j)
    case 4 => To(j)
    case 5 => To(j + 4)
    case _ => Stop(IllegalWireType)
  }

  /** Past the fields of a group up to and including its end tag. */
  function SkipGroup(data: seq<Byte>, start: nat, i: nat): (r: Skipped)
    requires start < i
    ensures r.To? ==> r.next > i
    decreases |data| - i, 3
  {
    GetVarintMoves(data, i, 0, 0);
    match GetVarint(data, i, 0, 0)
    case Bad(f) => Stop(f)
    case Done(wire, j) =>
      if wire % 8 == 4 then To(j)
      else
        match Skip(data, i)
        case Stop(f) => Stop(f)
        case To(next) => if next - start >= TWO63 then Stop(InvalidLength) else SkipGroup(data, start, next)
  }

  lemma {:induction false} SkipVarintMoves(data: seq<Byte>, i: nat, k: nat)
    ensures SkipVarint(data, i, k).To? ==> SkipVarint(data, i, k).next > i
    decreases |data| - i
  {
    if k < 10 && i < |data| && data[i] >= 128 { SkipVarintMoves(data, i + 1, k + 1); }
  }

  lemma {:induction false} SkipVarintReads(data: seq<Byte>, i: nat, k: nat, y: nat)
    requires At(data, i, Varint(y)) && k + |Varint(y)| <= 10
    ensures SkipVarint(data, i, k) == To(i + |Varint(y)|)
    decreases y
  {
    VarintHead(data, i, y);
    if y >= 128 { SkipVarintReads(data, i + 1, k + 1, y / 128); }
  }

  lemma TagFits(number: nat, kind: nat)
    requires number < TWO31 && kind < 8
    ensures Tag(number, kind) < TWO64 && Tag(number, kind) % 8 == kind && Tag(number, kind) / 8 == number
  {}

  lemma TagThen(data: seq<Byte>, i: nat, tag: U64, payload: seq<Byte>)
    requires At(data, i, Varint(tag) + payload)
    ensures var j := i + |Varint(tag)|;
            i < j <= |data| && GetVarint(data, i, 0, 0) == Done(tag, j) && At(data, j, payload)
  {
    AtTail(data, i, Varint(tag), payload);
    VarintRoundTrip(data, i, tag);
  }

  lemma SkipGoesOn(data: seq<Byte>, i: nat, wire: nat, j: nat)
    requires i < j <= |data| && GetVarint(data, i, 0, 0) == Done(wire, j)
    ensures Skip(data, i) == SkipPayload(data, i, j, wire % 8)
  {}

  /** Skipping a well-formed field ends exactly behind it, whatever it contains. */
  lemma {:induction false} SkipIsExact(data: seq<Byte>, i: nat, f: Field)
    requires |data| < TWO63 && WellFormed(f) && At(data, i, Encode(f))
    ensures Skip(data, i) == To(i + |Encode(f)|)
    decreases f, 2
  {
    var tag := Tag(f.number, TypeOf(f.value));
    var j := i + |Varint(tag)|;
    TagReads(data, i, f);
    PayloadIsExact(data, i, j, f.number, f.value);
    SkipGoesOn(data, i, tag, j);
    EncodedLength(f);
  }

  lemma EncodedLength(f: Field)
    ensures |Encode(f)| == |Varint(Tag(f.number, TypeOf(f.value)))| + |Payload(f.number, f.value)|
  {}

  lemma {:induction false} PayloadIsExact(data: seq<Byte>, i: nat, j: nat, number: nat, v: Value)
    requires |data| < TWO63 && i < j <= |data| && 0 < number < TWO31 && ValueOk(v) && At(data, j, Payload(number, v))
    ensures SkipPayload(data, i, j, TypeOf(v)) == To(j + |Payload(number, v)|)
    decreases v, 1
  {
    match v
    case Number(x) =>
      LimitTen();
      VarintLength(x, 10);
      SkipVarintReads(data, j, 0, x);
    case Fixed64(s) =>
    case Bytes(s) =>
      AtTail(data, j, Varint(|s|), s);
      VarintRoundTrip(data, j, |s|);
    case Group(fs) => GroupIsExact(data, i, j, number, fs);
    case Fixed32(s) =>
  }

  lemma {:induction false} GroupIsExact(data: seq<Byte>, start: nat, i: nat, number: nat, fs: Fields)
    requires |data| < TWO63 && start < i && 0 < number < TWO31 && AllOk(fs)
    requires At(data, i, EncodeAll(fs) + Varint(Tag(number, 4)))
    ensures SkipGroup(data, start, i) == To(i + |EncodeAll(fs) + Varint(Tag(number, 4))|)
    decreases fs, 0
  {
    var end := Varint(Tag(number, 4));
    match fs
    case Nil =>
      assert EncodeAll(fs) + end == end;
      GroupEnds(data, start, i, number);
    case Cons(f, rest) =>
      GroupHead(data, i, f, rest, end);
      TagReads(data, i, f);
      SkipIsExact(data, i, f);
      GroupGoesOn(data, start, i, Tag(f.number, TypeOf(f.value)), i + |Encode(f)|);
      GroupIsExact(data, start, i + |Encode(f)|, number, rest);
  }

  lemma GroupHead(data: seq<Byte>, i: nat, f: Field, rest: Fields, end: seq<Byte>)
    requires At(data, i, EncodeAll(Cons(f, rest)) + end) && end != []
    ensures At(data, i, Encode(f)) && At(data, i + |Encode(f)|, EncodeAll(rest) + end)
    ensures |EncodeAll(Cons(f, rest)) + end| == |Encode(f)| + |EncodeAll(rest) + end|
    ensures i < i + |Encode(f)| < |data|
  {
    Regroup(Encode(f), EncodeAll(rest), end);
    AtTail(data, i, Encode(f), EncodeAll(rest) + end);
    EncodedLength(f);
  }

  lemma GroupEnds(data: seq<Byte>, start: nat, i: nat, number: nat)
    requires start < i && 0 < number < TWO31 && At(data, i, Varint(Tag(number, 4)))
    ensures SkipGroup(data, start, i) == To(i + |Varint(Tag(number, 4))|)
  {
    TagFits(number, 4);
    VarintRoundTrip(data, i, Tag(number, 4));
  }

  lemma GroupGoesOn(data: seq<Byte>, start: nat, i: nat, tag: nat, next: nat)
    requires start < i < next <= |data| < TWO63 && tag % 8 != 4
    requires GetVarint(data, i, 0, 0) == Done(tag, i + |Varint(tag)|) && Skip(data, i) == To(next)
    ensures SkipGroup(data, start, i) == SkipGroup(data, start, next)
  {}

  /** The tag of a field is read back. */
  lemma TagReads(data: seq<Byte>, i: nat, f: Field)
    requires WellFormed(f) && At(data, i, Encode(f))
    ensures var tag := Tag(f.number, TypeOf(f.value));
            && GetVarint(data, i, 0, 0) == Done(tag, i + |Varint(tag)|) && tag % 8 == TypeOf(f.value) && tag / 8 == f.number
            && i < i + |Varint(tag)| <= |data| && At(data, i + |Varint(tag)|, Payload(f.number, f.value))
  {
    TagFits(f.number, TypeOf(f.value));
    TagThen(data, i, Tag(f.number, TypeOf(f.value)), Payload(f.number, f.value));
  }
}
