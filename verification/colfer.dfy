/** The Colfer encoding of a raft log entry: fields in ascending order, each behind a
    one-byte header, zero fields left out, and a closing byte. */
module Colfer {

  import opened Basics

  type Byte = x: nat | x < 256

  const SIZE_MAX: nat := 8 * 1024 * 1024 * 1024 * 1024
  const END: Byte := 0x7f

  type I32 = x: int | 0 <= x + TWO31 < TWO32

  datatype Entry = Entry(
    term: U64, index: U64, kind: I32, key: U64, client: U64, series: U64, responded: U64, cmd: seq<Byte>)

  const ZERO := Entry(0, 0, 0, 0, 0, 0, 0, [])

  datatype Error = Eof | StructTooBig | CmdTooBig | UnknownHeader(at: nat)

  datatype Parsed<T> = Ok(value: T, next: nat) | Err(error: Error)

  // ---------------------------------------------------------------- varints

  /** Seven bits to a byte, lowest first, the top bit set on all but the last. */
  function Varint(x: nat): (bytes: seq<Byte>)
    ensures |bytes| > 0
  {
    if x < 128 then [x] else [128 + x % 128] + Varint(x / 128)
  }

  /** Digit `b` moved to place `k`. */
  function Shifted(b: nat, k: nat): nat
    decreases k
  {
    if k == 0 then b else 128 * Shifted(b, k - 1)
  }

  /** The same in a machine word. */
  function Placed(b: nat, k: nat, word: nat): nat
    requires word > 0
  {
    if Shifted(b, k) < word then Shifted(b, k) else Shifted(b, k) % word
  }

  /** Running out of input at position `i`. */
  function OutAt(i: nat): Error {
    if i >= SIZE_MAX then StructTooBig else Eof
  }

  /** The bytes of a varint after the first, from byte number `k`; something must
      follow the varint. A byte's bits land above those read so far, so adding them
      is joining them; what does not fit the word is lost. Byte number `last` is
      taken whole. */
  function More(data: seq<Byte>, i: nat, k: nat, x: nat, word: nat, last: nat): Parsed<nat>
    requires 0 < i < |data| && word > 0
    decreases |data| - i
  {
    var b := data[i];
    if i + 1 >= |data| then Err(OutAt(i + 1))
    else if b < 128 || k == last then Ok(x + Placed(b, k, word), i + 1)
    else More(data, i + 1, k + 1, x + Placed(b % 128, k, word), word, last)
  }

  lemma MoreInBounds(data: seq<Byte>, i: nat, k: nat, x: nat, word: nat, last: nat)
    requires 0 < i < |data| && word > 0
    ensures var r := More(data, i, k, x, word, last); r.Ok? ==> i < r.next < |data|
    decreases |data| - i
  {
    if i + 1 < |data| && data[i] >= 128 && k != last { MoreInBounds(data, i + 1, k + 1, x + Placed(data[i] % 128, k, word), word, last); }
  }

  /** The length of the command may end the input. */
  function LengthMore(data: seq<Byte>, i: nat, k: nat, x: nat): Parsed<nat>
    requires i <= |data|
    decreases |data| - i
  {
    if i >= |data| then Err(OutAt(i))
    else if data[i] < 128 then Ok(x + Placed(data[i], k, TWO64), i + 1)
    else LengthMore(data, i + 1, k + 1, x + Placed(data[i] % 128, k, TWO64))
  }

  lemma {:induction false} SplitDigit(y: nat, k: nat)
    ensures Shifted(y, k) == Shifted(y % 128, k) + Shifted(y / 128, k + 1)
  {
    if k > 0 { SplitDigit(y, k - 1); }
  }

  /** `part` stands at position `i` and does not end the data. */
  ghost predicate At(data: seq<Byte>, i: nat, part: seq<Byte>) {
    i + |part| <= |data| && data[i..i + |part|] == part
  }

  lemma AtTail(data: seq<Byte>, i: nat, a: seq<Byte>, b: seq<Byte>)
    requires At(data, i, a + b)
    ensures At(data, i, a) && At(data, i + |a|, b)
  {
    assert data[i..i + |a|] == (a + b)[..|a|];
    assert data[i + |a|..i + |a| + |b|] == (a + b)[|a|..];
  }

  lemma VarintHead(data: seq<Byte>, i: nat, y: nat)
    requires At(data, i, Varint(y))
    ensures i < |data| && data[i] == if y < 128 then y else 128 + y % 128
    ensures y >= 128 ==> data[i] % 128 == y % 128 && |Varint(y)| == 1 + |Varint(y / 128)| && At(data, i + 1, Varint(y / 128))
  {
    assert data[i] == data[i..i + |Varint(y)|][0];
    if y >= 128 { AtTail(data, i, [128 + y % 128], Varint(y / 128)); }
  }

  lemma {:induction false} MoreReads(data: seq<Byte>, i: nat, k: nat, x: nat, word: nat, last: nat, y: nat)
    requires i > 0 && At(data, i, Varint(y)) && i + |Varint(y)| < |data|
    requires x + Shifted(y, k) < word
    requires last == 0 < k || k + |Varint(y)| <= last
    ensures More(data, i, k, x, word, last) == Ok(x + Shifted(y, k), i + |Varint(y)|)
    decreases y
  {
    VarintHead(data, i, y);
    if y >= 128 {
      SplitDigit(y, k);
      MoreReads(data, i + 1, k + 1, x + Shifted(y % 128, k), word, last, y / 128);
    }
  }

  lemma {:induction false} LengthReads(data: seq<Byte>, i: nat, k: nat, x: nat, y: nat)
    requires At(data, i, Varint(y)) && x + Shifted(y, k) < TWO64
    ensures LengthMore(data, i, k, x) == Ok(x + Shifted(y, k), i + |Varint(y)|)
    decreases y
  {
    VarintHead(data, i, y);
    if y >= 128 {
      SplitDigit(y, k);
      LengthReads(data, i + 1, k + 1, x + Shifted(y % 128, k), y / 128);
    }
  }

  function Limit(n: nat): nat {
    if n == 0 then 1 else 128 * Limit(n - 1)
  }

  /** `n` bytes hold what is below `128` to the `n`. */
  lemma {:induction false} VarintLength(x: nat, n: nat)
    requires n > 0 && x < Limit(n)
    ensures |Varint(x)| <= n
  {
    if x >= 128 {
      assert n > 1;
      VarintLength(x / 128, n - 1);
    }
  }

  // ------------------------------------------------------------- fixed words

  function BigEndian(x: nat, n: nat): (bytes: seq<Byte>)
    ensures |bytes| == n
  {
    if n == 0 then [] else BigEndian(x / 256, n - 1) + [x % 256]
  }

  function FromBigEndian(s: seq<Byte>): nat {
    if s == [] then 0 else 256 * FromBigEndian(s[..|s| - 1]) + s[|s| - 1]
  }

  function Limit256(n: nat): nat {
    if n == 0 then 1 else 256 * Limit256(n - 1)
  }

  lemma {:induction false} BigEndianRoundTrip(x: nat, n: nat)
    requires x < Limit256(n)
    ensures FromBigEndian(BigEndian(x, n)) == x
  {
    if n > 0 {
      BigEndianRoundTrip(x / 256, n - 1);
      assert BigEndian(x, n)[..n - 1] == BigEndian(x / 256, n - 1);
    }
  }

  lemma {:induction false} FromBigEndianFits(s: seq<Byte>)
    ensures FromBigEndian(s) < Limit256(|s|)
  {
    if s != [] { FromBigEndianFits(s[..|s| - 1]); }
  }

  // ----------------------------------------------------------------- writing

  /** Large words are written whole, others as a varint, zero not at all. */
  function U64Bytes(n: Byte, x: U64): seq<Byte>
    requires n < 8
  {
    if x >= TWO49 then [n + 128] + BigEndian(x, 8) else if x != 0 then [n] + Varint(x) else []
  }

  function Magnitude(v: I32): nat {
    var x: int := v;
    if x < 0 then -x else x
  }

  function KindBytes(v: I32): seq<Byte> {
    if v == 0 then [] else [if v > 0 then 2 else 2 + 128] + Varint(Magnitude(v))
  }

  function CmdBytes(cmd: seq<Byte>): seq<Byte> {
    if |cmd| == 0 then [] else [7] + Varint(|cmd|) + cmd
  }

  function FieldBytes(e: Entry, n: nat): seq<Byte>
    requires n < 8
  {
    if n == 2 then KindBytes(e.kind) else if n == 7 then CmdBytes(e.cmd) else U64Bytes(n, U64Field(e, n))
  }

  /** The fields from `n` on, and the closing byte. */
  function From(e: Entry, n: nat): (s: seq<Byte>)
    requires n <= 8
    ensures |s| > 0
    decreases 8 - n
  {
    if n == 8 then [END] else FieldBytes(e, n) + From(e, n + 1)
  }

  function Marshal(e: Entry): seq<Byte> {
    From(e, 0)
  }

  // ------------------------------------------------------------------- sizes

  /** The number of bytes of a varint, counted by shifting. */
  function Shifts(x: nat): nat {
    if x < 128 then 0 else 1 + Shifts(x / 128)
  }

  function U64Size(x: U64): nat {
    if x >= TWO49 then 9 else if x != 0 then 2 + Shifts(x) else 0
  }

  function KindSize(v: I32): nat {
    if v == 0 then 0 else 2 + Shifts(Magnitude(v))
  }

  function CmdSize(n: nat): nat {
    if n == 0 then 0 else n + 2 + Shifts(n)
  }

  function Size(e: Entry): nat {
    1 + U64Size(e.term) + U64Size(e.index) + KindSize(e.kind) + U64Size(e.key) + U64Size(e.client) + U64Size(e.series) +
    U64Size(e.responded) + CmdSize(|e.cmd|)
  }

  lemma {:induction false} ShiftsCount(x: nat)
    ensures |Varint(x)| == 1 + Shifts(x)
  {
    if x >= 128 { ShiftsCount(x / 128); }
  }

  lemma U64SizeIs(n: Byte, x: U64)
    requires n < 8
    ensures |U64Bytes(n, x)| == U64Size(x) <= 9
  {
    ShiftsCount(x);
    if 0 < x < TWO49 {
      assert Limit(7) == TWO49;
      VarintLength(x, 7);
    }
  }

  lemma KindSizeIs(v: I32)
    ensures |KindBytes(v)| == KindSize(v) <= 6
  {
    var x := Magnitude(v);
    ShiftsCount(x);
    assert Limit(5) > TWO31;
    VarintLength(x, 5);
  }

  lemma CmdSizeIs(cmd: seq<Byte>)
    ensures |CmdBytes(cmd)| == CmdSize(|cmd|)
    ensures |cmd| <= SIZE_MAX ==> CmdSize(|cmd|) <= |cmd| + 8
  {
    ShiftsCount(|cmd|);
    if 0 < |cmd| <= SIZE_MAX {
      assert Limit(7) > SIZE_MAX;
      VarintLength(|cmd|, 7);
    }
  }

  function FieldSize(e: Entry, n: nat): nat
    requires n < 8
  {
    if n == 2 then KindSize(e.kind) else if n == 7 then CmdSize(|e.cmd|) else U64Size(U64Field(e, n))
  }

  lemma FieldSizeIs(e: Entry, n: nat)
    requires n < 8
    ensures |FieldBytes(e, n)| == FieldSize(e, n)
  {
    if n == 2 {
      KindSizeIs(e.kind);
    } else if n == 7 {
      CmdSizeIs(e.cmd);
    } else {
      U64SizeIs(n, U64Field(e, n));
    }
  }

  function SizeFrom(e: Entry, n: nat): nat
    requires n <= 8
    decreases 8 - n
  {
    if n == 8 then 1 else FieldSize(e, n) + SizeFrom(e, n + 1)
  }

  lemma {:induction false} SizeFromIs(e: Entry, n: nat)
    requires n <= 8
    ensures |From(e, n)| == SizeFrom(e, n)
    decreases 8 - n
  {
    if n < 8 {
      FieldSizeIs(e, n);
      SizeFromIs(e, n + 1);
    }
  }

  lemma SizeUnfolds(e: Entry)
    ensures SizeFrom(e, 0) == Size(e)
  {
    assert SizeFrom(e, 6) == U64Size(e.responded) + (CmdSize(|e.cmd|) + 1);
    assert SizeFrom(e, 4) == U64Size(e.client) + (U64Size(e.series) + SizeFrom(e, 6));
    assert SizeFrom(e, 2) == KindSize(e.kind) + (U64Size(e.key) + SizeFrom(e, 4));
  }

  /** `Size` is what is written, and at most 69 bytes more than the command. */
  lemma SizeIsExact(e: Entry)
    ensures |Marshal(e)| == Size(e)
    ensures |e.cmd| <= SIZE_MAX ==> Size(e) <= |e.cmd| + 69
  {
    SizeFromIs(e, 0);
    SizeUnfolds(e);
    U64SizeIs(0, e.term);
    U64SizeIs(1, e.index);
    KindSizeIs(e.kind);
    U64SizeIs(3, e.key);
    U64SizeIs(4, e.client);
    U64SizeIs(5, e.series);
    U64SizeIs(6, e.responded);
    CmdSizeIs(e.cmd);
  }

  // ----------------------------------------------------------------- reading

  /** A header stands at `p`; read field `n` if it is the header's, and move to the
      next header. */
  function U64At(data: seq<Byte>, p: nat, n: Byte, otherwise: U64): Parsed<nat>
    requires p < |data| && n < 8
  {
    if data[p] == n then
      if p + 2 >= |data| then Err(OutAt(p + 2))
      else if data[p + 1] < 128 then Ok(data[p + 1], p + 2)
      else More(data, p + 2, 1, data[p + 1] % 128, TWO64, 8)
    else if data[p] == n + 128 then
      if p + 9 >= |data| then Err(OutAt(p + 9)) else Ok(FromBigEndian(data[p + 1..p + 9]), p + 9)
    else Ok(otherwise, p)
  }

  /** A 32-bit word read as a signed number. */
  function Signed(x: nat): I32 {
    var y := x % TWO32;
    if y < TWO31 then y else y - TWO32
  }

  function KindAt(data: seq<Byte>, p: nat, otherwise: I32): Parsed<I32>
    requires p < |data|
  {
    if data[p] == 2 || data[p] == 2 + 128 then
      if p + 2 >= |data| then Err(OutAt(p + 2))
      else
        var word: Parsed<nat> := if data[p + 1] < 128 then Ok(data[p + 1], p + 2) else More(data, p + 2, 1, data[p + 1] % 128, TWO32, 0);
        match word
        case Err(e) => Err(e)
        case Ok(x, next) => Ok(if data[p] == 2 then Signed(x) else Signed(TWO32 - x % TWO32), next)
    else Ok(otherwise, p)
  }

  function CmdAt(data: seq<Byte>, p: nat, otherwise: seq<Byte>): Parsed<seq<Byte>>
    requires p < |data|
  {
    if data[p] != 7 then Ok(otherwise, p)
    else
      match LengthMore(data, p + 1, 0, 0)
      case Err(e) => Err(e)
      case Ok(x, start) =>
        if x > SIZE_MAX then Err(CmdTooBig)
        else if start + x >= |data| then Err(OutAt(start + x))
        else Ok(data[start..start + x], start + x)
  }

  lemma U64Stays(data: seq<Byte>, p: nat, n: Byte, otherwise: U64)
    requires p < |data| && n < 8
    ensures var r := U64At(data, p, n, otherwise); r.Ok? ==> p <= r.next < |data| && r.value < TWO64
  {
    if data[p] == n && p + 2 < |data| && data[p + 1] >= 128 {
      MoreInBounds(data, p + 2, 1, data[p + 1] % 128, TWO64, 8);
      MoreFits(data, p + 2, 1, data[p + 1] % 128);
    } else if data[p] == n + 128 && p + 9 < |data| {
      FromBigEndianFits(data[p + 1..p + 9]);
      assert Limit256(8) == TWO64;
    }
  }

  lemma {:induction false} ShiftedBound(b: nat, c: nat, k: nat)
    requires b <= c
    ensures Shifted(b, k) <= Shifted(c, k)
  {
    if k > 0 { ShiftedBound(b, c, k - 1); }
  }

  lemma {:induction false} ShiftedOne(k: nat)
    ensures Shifted(1, k) == Limit(k) && Shifted(127, k) + Limit(k) == Limit(k + 1) && Shifted(255, k) + Limit(k) == 2 * Limit(k + 1)
  {
    if k > 0 { ShiftedOne(k - 1); }
  }

  lemma {:induction false} LimitBound(k: nat)
    requires k <= 9
    ensures 2 * Limit(k) <= TWO64
    decreases 9 - k
  {
    if k < 9 {
      LimitBound(k + 1);
    } else {
      assert Limit(9) == 128 * 128 * Limit(7);
      assert Limit(7) == TWO49;
    }
  }

  lemma DigitFits(b: Byte, k: nat, x: nat)
    requires 0 < k <= 8 && x < Limit(k)
    ensures x + Placed(b % 128, k, TWO64) < Limit(k + 1)
    ensures b < 128 || k == 8 ==> x + Placed(b, k, TWO64) < TWO64
  {
    ShiftedOne(k);
    ShiftedBound(b % 128, 127, k);
    ShiftedBound(b, if b < 128 then 127 else 255, k);
    LimitBound(k + 1);
  }

  /** A 64-bit varint never overflows its word: its ninth byte fills the last bits. */
  lemma {:induction false} MoreFits(data: seq<Byte>, i: nat, k: nat, x: nat)
    requires 0 < i < |data| && 0 < k <= 8 && x < Limit(k)
    ensures var r := More(data, i, k, x, TWO64, 8); r.Ok? ==> r.value < TWO64
    decreases |data| - i
  {
    var b := data[i];
    DigitFits(b, k, x);
    if i + 1 < |data| && b >= 128 && k != 8 { MoreFits(data, i + 1, k + 1, x + Placed(b % 128, k, TWO64)); }
  }

  /** Read field `n` into the entry if its header stands at `p`. */
  function ReadField(o: Entry, data: seq<Byte>, p: nat, n: nat): Parsed<Entry>
    requires p < |data| && n < 8
  {
    if n == 2 then
      match KindAt(data, p, o.kind)
      case Err(e) => Err(e)
      case Ok(x, q) => Ok(o.(kind := x), q)
    else if n == 7 then
      match CmdAt(data, p, o.cmd)
      case Err(e) => Err(e)
      case Ok(x, q) => Ok(o.(cmd := x), q)
    else
      U64Stays(data, p, n, U64Field(o, n));
      match U64At(data, p, n, U64Field(o, n))
      case Err(e) => Err(e)
      case Ok(x, q) => Ok(SetU64(o, n, x), q)
  }

  function U64Field(o: Entry, n: nat): U64 {
    match n
    case 0 => o.term
    case 1 => o.index
    case 3 => o.key
    case 4 => o.client
    case 5 => o.series
    case _ => o.responded
  }

  function SetU64(o: Entry, n: nat, x: U64): Entry {
    match n
    case 0 => o.(term := x)
    case 1 => o.(index := x)
    case 3 => o.(key := x)
    case 4 => o.(client := x)
    case 5 => o.(series := x)
    case _ => o.(responded := x)
  }

  lemma ReadStays(o: Entry, data: seq<Byte>, p: nat, n: nat)
    requires p < |data| && n < 8
    ensures var r := ReadField(o, data, p, n); r.Ok? ==> p <= r.next < |data|
  {
    if n == 2 {
      KindStays(data, p, o.kind);
    } else if n == 7 {
      CmdStays(data, p, o.cmd);
    } else {
      U64Stays(data, p, n, U64Field(o, n));
    }
  }

  /** The fields from `n` on, then the closing byte; a field that is missing keeps
      its value. Every position read lies within the data. */
  function Fields(o: Entry, data: seq<Byte>, p: nat, n: nat): Parsed<Entry>
    requires p < |data| && n <= 8
    decreases 8 - n
  {
    if n == 8 then Close(o, data, p)
    else
      ReadStays(o, data, p, n);
      match ReadField(o, data, p, n)
      case Err(e) => Err(e)
      case Ok(x, q) => Fields(x, data, q, n + 1)
  }

  function Close(o: Entry, data: seq<Byte>, p: nat): Parsed<Entry>
    requires p < |data|
  {
    if data[p] != END then Err(UnknownHeader(p))
    else if p + 1 < SIZE_MAX then Ok(o, p + 1)
    else Err(StructTooBig)
  }

  function Unmarshal(o: Entry, data: seq<Byte>): Parsed<Entry> {
    if |data| == 0 then Err(Eof) else Fields(o, data, 0, 0)
  }

  lemma KindStays(data: seq<Byte>, p: nat, otherwise: I32)
    requires p < |data|
    ensures var r := KindAt(data, p, otherwise); r.Ok? ==> p <= r.next < |data|
  {
    if p + 2 < |data| && data[p + 1] >= 128 { MoreInBounds(data, p + 2, 1, data[p + 1] % 128, TWO32, 0); }
  }

  lemma {:induction false} LengthInBounds(data: seq<Byte>, i: nat, k: nat, x: nat)
    requires i <= |data|
    ensures var r := LengthMore(data, i, k, x); r.Ok? ==> i < r.next <= |data|
    decreases |data| - i
  {
    if i < |data| && data[i] >= 128 { LengthInBounds(data, i + 1, k + 1, x + Placed(data[i] % 128, k, TWO64)); }
  }

  lemma CmdStays(data: seq<Byte>, p: nat, otherwise: seq<Byte>)
    requires p < |data|
    ensures var r := CmdAt(data, p, otherwise); r.Ok? ==> p <= r.next < |data|
  {
    LengthInBounds(data, p + 1, 0, 0);
  }

  // -------------------------------------------------------------- round trip

  /** A field that was written is read back, and the next header comes after it. */
  lemma U64ReadsBack(data: seq<Byte>, p: nat, n: Byte, x: U64)
    requires n < 8 && At(data, p, U64Bytes(n, x)) && p + |U64Bytes(n, x)| < |data|
    requires x == 0 ==> data[p] != n && data[p] != n + 128
    ensures U64At(data, p, n, 0) == Ok(x, p + |U64Bytes(n, x)|)
  {
    if x >= TWO49 {
      AtTail(data, p, [n + 128], BigEndian(x, 8));
      assert data[p] == data[p..p + 1][0];
      assert Limit256(8) == TWO64;
      BigEndianRoundTrip(x, 8);
    } else if x != 0 {
      AtTail(data, p, [n], Varint(x));
      assert data[p] == data[p..p + 1][0];
      VarintHead(data, p + 1, x);
      if x >= 128 {
        assert Limit(7) == TWO49;
        VarintLength(x, 7);
        Reassemble(x);
        MoreReads(data, p + 2, 1, x % 128, TWO64, 8, x / 128);
      }
    }
  }

  lemma Reassemble(x: nat)
    ensures x % 128 + Shifted(x / 128, 1) == x
  {}

  lemma KindReadsBack(data: seq<Byte>, p: nat, v: I32)
    requires At(data, p, KindBytes(v)) && p + |KindBytes(v)| < |data|
    requires v == 0 ==> data[p] != 2 && data[p] != 2 + 128
    ensures KindAt(data, p, 0) == Ok(v, p + |KindBytes(v)|)
  {
    if v != 0 {
      var x := Magnitude(v);
      AtTail(data, p, [if v > 0 then 2 else 2 + 128], Varint(x));
      assert data[p] == data[p..p + 1][0];
      VarintHead(data, p + 1, x);
      if x >= 128 {
        Reassemble(x);
        MoreReads(data, p + 2, 1, x % 128, TWO32, 0, x / 128);
      }
      SignedBack(v);
    }
  }

  lemma SignedBack(v: I32)
    ensures v > 0 ==> Signed(Magnitude(v)) == v
    ensures v < 0 ==> Signed(TWO32 - Magnitude(v) % TWO32) == v
  {}

  lemma CmdReadsBack(data: seq<Byte>, p: nat, cmd: seq<Byte>)
    requires |cmd| <= SIZE_MAX && At(data, p, CmdBytes(cmd)) && p + |CmdBytes(cmd)| < |data|
    requires cmd == [] ==> data[p] != 7
    ensures CmdAt(data, p, []) == Ok(cmd, p + |CmdBytes(cmd)|)
  {
    if cmd != [] {
      assert CmdBytes(cmd) == [7] + (Varint(|cmd|) + cmd);
      AtTail(data, p, [7], Varint(|cmd|) + cmd);
      assert data[p] == data[p..p + 1][0];
      AtTail(data, p + 1, Varint(|cmd|), cmd);
      LengthReads(data, p + 1, 0, 0, |cmd|);
    }
  }

  /** A header that belongs to a field after `n`, or closes the entry. */
  predicate After(b: Byte, n: nat) {
    n < b < 128 || n + 128 < b
  }

  lemma {:induction false} StartsAfter(e: Entry, n: nat)
    requires 0 < n <= 8
    ensures After(From(e, n)[0], n - 1)
    decreases 8 - n
  {
    if n < 8 {
      StartsAfter(e, n + 1);
      assert FieldBytes(e, n) != [] ==> FieldBytes(e, n)[0] == n || FieldBytes(e, n)[0] == n + 128;
    }
  }

  /** One field, and the rest after it. */
  lemma U64Step(data: seq<Byte>, p: nat, n: Byte, x: U64, rest: seq<Byte>)
    requires n < 8 && At(data, p, U64Bytes(n, x) + rest) && |rest| > 0 && After(rest[0], n)
    ensures p < |data| && U64At(data, p, n, 0) == Ok(x, p + |U64Bytes(n, x)|) && At(data, p + |U64Bytes(n, x)|, rest)
  {
    AtTail(data, p, U64Bytes(n, x), rest);
    assert data[p + |U64Bytes(n, x)|] == data[p + |U64Bytes(n, x)|..p + |U64Bytes(n, x)| + |rest|][0];
    U64ReadsBack(data, p, n, x);
  }

  /** The entry with the fields from `n` on still zero. */
  function Keep(e: Entry, n: nat): Entry {
    Entry(if n > 0 then e.term else 0, if n > 1 then e.index else 0, if n > 2 then e.kind else 0,
          if n > 3 then e.key else 0, if n > 4 then e.client else 0, if n > 5 then e.series else 0,
          if n > 6 then e.responded else 0, if n > 7 then e.cmd else [])
  }

  lemma FieldStep(e: Entry, data: seq<Byte>, p: nat, n: nat, rest: seq<Byte>)
    requires n < 8 && |e.cmd| <= SIZE_MAX
    requires At(data, p, FieldBytes(e, n) + rest) && |rest| > 0 && After(rest[0], n)
    ensures p < |data| && At(data, p + |FieldBytes(e, n)|, rest)
    ensures ReadField(Keep(e, n), data, p, n) == Ok(Keep(e, n + 1), p + |FieldBytes(e, n)|)
  {
    var q := p + |FieldBytes(e, n)|;
    if n == 2 || n == 7 {
      AtTail(data, p, FieldBytes(e, n), rest);
      assert data[q] == data[q..q + |rest|][0];
      if n == 2 { KindReadsBack(data, p, e.kind); } else { CmdReadsBack(data, p, e.cmd); }
    } else {
      U64Step(data, p, n, U64Field(e, n), rest);
    }
  }

  lemma FieldsGoOn(o: Entry, data: seq<Byte>, p: nat, n: nat, x: Entry, q: nat)
    requires n < 8 && p < |data| && q < |data| && ReadField(o, data, p, n) == Ok(x, q)
    ensures Fields(o, data, p, n) == Fields(x, data, q, n + 1)
  {}

  /** The next field is read back, and the next header stands at `q`. */
  lemma {:induction false} FieldsStep(e: Entry, data: seq<Byte>, p: nat, n: nat) returns (q: nat)
    requires n < 8 && |e.cmd| <= SIZE_MAX && At(data, p, From(e, n))
    ensures p < |data| && q < |data| && At(data, q, From(e, n + 1)) && q + |From(e, n + 1)| == p + |From(e, n)|
    ensures Fields(Keep(e, n), data, p, n) == Fields(Keep(e, n + 1), data, q, n + 1)
  {
    q := p + |FieldBytes(e, n)|;
    StartsAfter(e, n + 1);
    FieldStep(e, data, p, n, From(e, n + 1));
    FieldsGoOn(Keep(e, n), data, p, n, Keep(e, n + 1), q);
  }

  lemma {:induction false} FieldsReadBack(e: Entry, data: seq<Byte>, p: nat, n: nat, last: nat)
    requires n <= 8 && |e.cmd| <= SIZE_MAX && At(data, p, From(e, n)) && p + |From(e, n)| == last + 1
    ensures p < |data| && last < |data| && Fields(Keep(e, n), data, p, n) == Close(e, data, last)
    decreases 8 - n
  {
    if n < 8 {
      var q := FieldsStep(e, data, p, n);
      FieldsReadBack(e, data, q, n + 1, last);
    } else {
      assert Keep(e, n) == e;
    }
  }

  lemma {:induction false} EndsClosed(e: Entry, n: nat)
    requires n <= 8
    ensures From(e, n)[|From(e, n)| - 1] == END
    decreases 8 - n
  {
    if n < 8 { EndsClosed(e, n + 1); }
  }

  /** What `Size` admits is read back from its encoding, whatever follows it, with
      exactly its bytes consumed, if and only if it is smaller than the limit: at
      the limit itself `Size` still admits an entry that reading then refuses. */
  lemma RoundTrip(e: Entry, tail: seq<Byte>)
    requires |e.cmd| <= SIZE_MAX && Size(e) <= SIZE_MAX
    ensures Unmarshal(ZERO, Marshal(e) + tail) == Ok(e, Size(e)) <==> Size(e) < SIZE_MAX
    ensures Size(e) == SIZE_MAX ==> Unmarshal(ZERO, Marshal(e) + tail) == Err(StructTooBig)
  {
    var data := Marshal(e) + tail;
    SizeIsExact(e);
    EndsClosed(e, 0);
    assert At(data, 0, From(e, 0));
    FieldsReadBack(e, data, 0, 0, |Marshal(e)| - 1);
    assert data[|Marshal(e)| - 1] == END;
  }

  /** The limit is met: an entry with nothing but a command of the right length. */
  lemma LimitIsMet(cmd: seq<Byte>)
    requires |cmd| == SIZE_MAX - 9
    ensures Size(ZERO.(cmd := cmd)) == SIZE_MAX
  {
    ShiftsCount(|cmd|);
    assert Limit(6) <= |cmd| < Limit(7);
    ExactShifts(|cmd|, 6);
  }

  lemma {:induction false} ExactShifts(x: nat, n: nat)
    requires Limit(n) <= x < Limit(n + 1)
    ensures Shifts(x) == n
  {
    if n > 0 { ExactShifts(x / 128, n - 1); }
  }
}
