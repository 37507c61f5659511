/** Writing an entry into a byte buffer and reading it back, byte by byte, proved
    against the functions of `Colfer`. */
module ColferCodec {
  import opened Basics
  import opened Colfer

  // ------------------------------------------------------------------ sizing

  method CountShifts(v: nat) returns (n: nat)
    ensures n == Shifts(v)
  {
    n := 0;
    var x := v;
    while x >= 128
      invariant n + Shifts(x) == Shifts(v)
    {
      x := x / 128;
      n := n + 1;
    }
  }

  method SizeU64(x: U64) returns (n: nat)
    ensures n == U64Size(x)
  {
    if x >= TWO49 { return 9; }
    if x == 0 { return 0; }
    var more := CountShifts(x);
    return 2 + more;
  }

  /** The number of bytes an entry takes, or none if it is over the limit. */
  method SizeOf(e: Entry) returns (n: nat, ok: bool)
    ensures ok <==> |e.cmd| <= SIZE_MAX && Size(e) <= SIZE_MAX
    ensures ok ==> n == |Marshal(e)| <= |e.cmd| + 69
  {
    SizeIsExact(e);
    var a := SizeU64(e.term);
    var b := SizeU64(e.index);
    var c := 0;
    if e.kind != 0 {
      var more := CountShifts(Magnitude(e.kind));
      c := 2 + more;
    }
    var d := SizeU64(e.key);
    var f := SizeU64(e.client);
    var g := SizeU64(e.series);
    var h := SizeU64(e.responded);
    n := 1 + a + b + c + d + f + g + h;
    if |e.cmd| != 0 {
      if |e.cmd| > SIZE_MAX { return n, false; }
      var more := CountShifts(|e.cmd|);
      n := n + |e.cmd| + 2 + more;
    }
    return n, n <= SIZE_MAX;
  }

  // ----------------------------------------------------------------- writing

  /** `s` with the bytes at `i` replaced by `part`. */
  ghost function Splice(s: seq<Byte>, i: nat, part: seq<Byte>): (t: seq<Byte>)
    requires i + |part| <= |s|
    ensures |t| == |s|
  {
    s[..i] + part + s[i + |part|..]
  }

  lemma SpliceTwice(s: seq<Byte>, i: nat, a: seq<Byte>, b: seq<Byte>)
    requires i + |a| + |b| <= |s|
    ensures Splice(Splice(s, i, a), i + |a|, b) == Splice(s, i, a + b)
  {}

  method PutByte(buf: array<Byte>, i: nat, b: Byte)
    requires i < buf.Length
    modifies buf
    ensures buf[..] == Splice(old(buf[..]), i, [b])
  {
    buf[i] := b;
  }

  method PutVarint(buf: array<Byte>, i: nat, v: nat) returns (j: nat)
    requires i + |Varint(v)| <= buf.Length
    modifies buf
    ensures j == i + |Varint(v)| && buf[..] == Splice(old(buf[..]), i, Varint(v))
  {
    j := i;
    var x := v;
    while x >= 128
      invariant i <= j && j + |Varint(x)| == i + |Varint(v)|
      invariant Splice(buf[..], j, Varint(x)) == Splice(old(buf[..]), i, Varint(v))
      decreases x
    {
      ghost var was := buf[..];
      SpliceTwice(was, j, [128 + x % 128], Varint(x / 128));
      PutByte(buf, j, 128 + x % 128);
      x := x / 128;
      j := j + 1;
    }
    PutByte(buf, j, x);
    j := j + 1;
  }

  method PutUint64(buf: array<Byte>, i: nat, x: U64)
    requires i + 8 <= buf.Length
    modifies buf
    ensures buf[..] == Splice(old(buf[..]), i, BigEndian(x, 8))
  {
    var k, y := 8, x;
    while k > 0
      invariant 0 <= k <= 8
      invariant Splice(buf[..], i, BigEndian(y, k)) == Splice(old(buf[..]), i, BigEndian(x, 8))
    {
      ghost var was := buf[..];
      k := k - 1;
      PutByte(buf, i + k, y % 256);
      SpliceBefore(was, i, BigEndian(y / 256, k), [y % 256]);
      assert BigEndian(y, k + 1) == BigEndian(y / 256, k) + [y % 256];
      y := y / 256;
    }
    assert BigEndian(y, 0) == [];
    assert Splice(buf[..], i, []) == buf[..];
  }

  lemma SpliceBefore(s: seq<Byte>, i: nat, a: seq<Byte>, b: seq<Byte>)
    requires i + |a| + |b| <= |s|
    ensures Splice(Splice(s, i + |a|, b), i, a) == Splice(s, i, a + b)
  {}

  method PutU64(buf: array<Byte>, i: nat, n: Byte, x: U64) returns (j: nat)
    requires n < 8 && i + |U64Bytes(n, x)| <= buf.Length
    modifies buf
    ensures j == i + |U64Bytes(n, x)| && buf[..] == Splice(old(buf[..]), i, U64Bytes(n, x))
  {
    ghost var was := buf[..];
    if x >= TWO49 {
      PutByte(buf, i, n + 128);
      PutUint64(buf, i + 1, x);
      SpliceTwice(was, i, [n + 128], BigEndian(x, 8));
      return i + 9;
    } else if x != 0 {
      PutByte(buf, i, n);
      j := PutVarint(buf, i + 1, x);
      SpliceTwice(was, i, [n], Varint(x));
      return;
    }
    assert Splice(was, i, []) == was;
    return i;
  }

  method PutKind(buf: array<Byte>, i: nat, v: I32) returns (j: nat)
    requires i + |KindBytes(v)| <= buf.Length
    modifies buf
    ensures j == i + |KindBytes(v)| && buf[..] == Splice(old(buf[..]), i, KindBytes(v))
  {
    ghost var was := buf[..];
    if v == 0 {
      assert Splice(was, i, []) == was;
      return i;
    }
    PutByte(buf, i, if v > 0 then 2 else 2 + 128);
    j := PutVarint(buf, i + 1, Magnitude(v));
    SpliceTwice(was, i, [if v > 0 then 2 else 2 + 128], Varint(Magnitude(v)));
  }

  method PutCmdHead(buf: array<Byte>, i: nat, n: nat) returns (j: nat)
    requires i + 1 + |Varint(n)| <= buf.Length
    modifies buf
    ensures j == i + 1 + |Varint(n)| && buf[..] == Splice(old(buf[..]), i, [7] + Varint(n))
  {
    PutByte(buf, i, 7);
    j := PutVarint(buf, i + 1, n);
    SpliceTwice(old(buf[..]), i, [7], Varint(n));
  }

  method PutCmd(buf: array<Byte>, i: nat, cmd: seq<Byte>) returns (j: nat)
    requires i + |CmdBytes(cmd)| <= buf.Length
    modifies buf
    ensures j == i + |CmdBytes(cmd)| && buf[..] == Splice(old(buf[..]), i, CmdBytes(cmd))
  {
    if |cmd| == 0 {
      assert Splice(buf[..], i, []) == buf[..];
      return i;
    }
    j := PutCmdHead(buf, i, |cmd|);
    j := Copy(buf, j, cmd);
    SpliceTwice(old(buf[..]), i, [7] + Varint(|cmd|), cmd);
  }

  method Copy(buf: array<Byte>, i: nat, s: seq<Byte>) returns (j: nat)
    requires i + |s| <= buf.Length
    modifies buf
    ensures j == i + |s| && buf[..] == Splice(old(buf[..]), i, s)
  {
    var k := 0;
    while k < |s|
      invariant 0 <= k <= |s|
      invariant buf[..] == Splice(old(buf[..]), i, s[..k])
    {
      PutByte(buf, i + k, s[k]);
      SpliceTwice(old(buf[..]), i, s[..k], [s[k]]);
      assert s[..k] + [s[k]] == s[..k + 1];
      k := k + 1;
    }
    assert s[..k] == s;
    return i + |s|;
  }

  /** With `left` still to be written at `i`, the buffer becomes what is wanted. */
  ghost predicate Written(want: seq<Byte>, now: seq<Byte>, i: nat, left: seq<Byte>) {
    i + |left| <= |now| && Splice(now, i, left) == want
  }

  lemma WrittenMore(want: seq<Byte>, now: seq<Byte>, i: nat, part: seq<Byte>, left: seq<Byte>)
    requires Written(want, now, i, part + left)
    ensures i + |part| <= |now| && Written(want, Splice(now, i, part), i + |part|, left)
  {
    SpliceTwice(now, i, part, left);
  }

  /** Write field `n`. */
  method PutField(buf: array<Byte>, i: nat, e: Entry, n: nat) returns (j: nat)
    requires n < 8 && i + |FieldBytes(e, n)| <= buf.Length
    modifies buf
    ensures j == i + |FieldBytes(e, n)| && buf[..] == Splice(old(buf[..]), i, FieldBytes(e, n))
  {
    if n == 2 {
      j := PutKind(buf, i, e.kind);
    } else if n == 7 {
      j := PutCmd(buf, i, e.cmd);
    } else {
      j := PutU64(buf, i, n, U64Field(e, n));
    }
  }

  method PutNext(buf: array<Byte>, i: nat, e: Entry, n: nat, ghost want: seq<Byte>, ghost left: seq<Byte>) returns (j: nat)
    requires n < 8 && Written(want, buf[..], i, FieldBytes(e, n) + left)
    modifies buf
    ensures j == i + |FieldBytes(e, n)| && Written(want, buf[..], j, left)
  {
    WrittenMore(want, buf[..], i, FieldBytes(e, n), left);
    j := PutField(buf, i, e, n);
  }

  /** Write an entry into a buffer that is large enough, from `start` on. */
  method MarshalTo(e: Entry, buf: array<Byte>, start: nat) returns (n: nat)
    requires start + |Marshal(e)| <= buf.Length
    modifies buf
    ensures n == start + |Marshal(e)| && buf[..] == Splice(old(buf[..]), start, Marshal(e))
  {
    ghost var want := Splice(buf[..], start, Marshal(e));
    n := start;
    var field: nat := 0;
    while field < 8
      invariant field <= 8 && n + |From(e, field)| == start + |Marshal(e)|
      invariant Written(want, buf[..], n, From(e, field))
    {
      n := PutNext(buf, n, e, field, want, From(e, field + 1));
      field := field + 1;
    }
    PutByte(buf, n, END);
    n := n + 1;
  }

  // ----------------------------------------------------------------- reading

  method ReadMore(data: seq<Byte>, start: nat, first: nat, word: nat, last: nat) returns (r: Parsed<nat>)
    requires 0 < start < |data| && word > 0
    ensures r == More(data, start, 1, first, word, last)
  {
    var i, k: nat, x: nat := start, 1, first;
    while true
      invariant start <= i < |data|
      invariant More(data, i, k, x, word, last) == More(data, start, 1, first, word, last)
      decreases |data| - i
    {
      var b := data[i];
      i := i + 1;
      if i >= |data| { return Err(OutAt(i)); }
      if b < 128 || k == last { return Ok(x + Placed(b, k, word), i); }
      x := x + Placed(b % 128, k, word);
      k := k + 1;
    }
  }

  method ReadUint64(data: seq<Byte>, start: nat) returns (x: nat)
    requires start + 8 <= |data|
    ensures x == FromBigEndian(data[start..start + 8])
  {
    x := 0;
    var k := 0;
    while k < 8
      invariant 0 <= k <= 8
      invariant x == FromBigEndian(data[start..start + k])
    {
      assert data[start..start + k + 1][..k] == data[start..start + k];
      x := 256 * x + data[start + k];
      k := k + 1;
    }
  }

  method ReadU64(data: seq<Byte>, p: nat, n: Byte, otherwise: U64) returns (r: Parsed<nat>)
    requires p < |data| && n < 8
    ensures r == U64At(data, p, n, otherwise)
  {
    if data[p] == n {
      if p + 2 >= |data| { return Err(OutAt(p + 2)); }
      if data[p + 1] < 128 { return Ok(data[p + 1], p + 2); }
      r := ReadMore(data, p + 2, data[p + 1] % 128, TWO64, 8);
    } else if data[p] == n + 128 {
      if p + 9 >= |data| { return Err(OutAt(p + 9)); }
      var x := ReadUint64(data, p + 1);
      return Ok(x, p + 9);
    } else {
      return Ok(otherwise, p);
    }
  }

  method ReadKind(data: seq<Byte>, p: nat, otherwise: I32) returns (r: Parsed<I32>)
    requires p < |data|
    ensures r == KindAt(data, p, otherwise)
  {
    if data[p] != 2 && data[p] != 2 + 128 { return Ok(otherwise, p); }
    if p + 2 >= |data| { return Err(OutAt(p + 2)); }
    var word: Parsed<nat> := Ok(data[p + 1], p + 2);
    if data[p + 1] >= 128 { word := ReadMore(data, p + 2, data[p + 1] % 128, TWO32, 0); }
    if word.Err? { return Err(word.error); }
    return Ok(if data[p] == 2 then Signed(word.value) else Signed(TWO32 - word.value % TWO32), word.next);
  }

  method ReadLength(data: seq<Byte>, start: nat) returns (r: Parsed<nat>)
    requires start <= |data|
    ensures r == LengthMore(data, start, 0, 0)
  {
    var i, k: nat, x: nat := start, 0, 0;
    while true
      invariant start <= i <= |data|
      invariant LengthMore(data, i, k, x) == LengthMore(data, start, 0, 0)
      decreases |data| - i
    {
      if i >= |data| { return Err(OutAt(i)); }
      if data[i] < 128 { return Ok(x + Placed(data[i], k, TWO64), i + 1); }
      x := x + Placed(data[i] % 128, k, TWO64);
      k := k + 1;
      i := i + 1;
    }
  }

  method ReadCmd(data: seq<Byte>, p: nat, otherwise: seq<Byte>) returns (r: Parsed<seq<Byte>>)
    requires p < |data|
    ensures r == CmdAt(data, p, otherwise)
  {
    if data[p] != 7 { return Ok(otherwise, p); }
    var length := ReadLength(data, p + 1);
    if length.Err? { return Err(length.error); }
    if length.value > SIZE_MAX { return Err(CmdTooBig); }
    LengthInBounds(data, p + 1, 0, 0);
    var end := length.next + length.value;
    if end >= |data| { return Err(OutAt(end)); }
    return Ok(data[length.next..end], end);
  }

  method ReadInto(o: Entry, data: seq<Byte>, p: nat, n: nat) returns (r: Parsed<Entry>)
    requires p < |data| && n < 8
    ensures r == ReadField(o, data, p, n)
  {
    if n == 2 {
      var x := ReadKind(data, p, o.kind);
      return if x.Err? then Err(x.error) else Ok(o.(kind := x.value), x.next);
    } else if n == 7 {
      var x := ReadCmd(data, p, o.cmd);
      return if x.Err? then Err(x.error) else Ok(o.(cmd := x.value), x.next);
    } else {
      U64Stays(data, p, n, U64Field(o, n));
      var x := ReadU64(data, p, n, U64Field(o, n));
      return if x.Err? then Err(x.error) else Ok(SetU64(o, n, x.value), x.next);
    }
  }

  /** Read an entry from the front of arbitrary data, never past its end. */
  method UnmarshalFrom(o: Entry, data: seq<Byte>) returns (r: Parsed<Entry>)
    ensures r == Unmarshal(o, data)
    ensures r.Ok? ==> 0 < r.next <= |data|
  {
    if |data| == 0 { return Err(Eof); }
    var e, p: nat, n: nat := o, 0, 0;
    while n < 8
      invariant 0 <= n <= 8 && p < |data|
      invariant Fields(e, data, p, n) == Fields(o, data, 0, 0)
    {
      ReadStays(e, data, p, n);
      r := ReadInto(e, data, p, n);
      if r.Err? { return; }
      FieldsGoOn(e, data, p, n, r.value, r.next);
      e, p, n := r.value, r.next, n + 1;
    }
    if data[p] != END { return Err(UnknownHeader(p)); }
    if p + 1 < SIZE_MAX { return Ok(e, p + 1); }
    return Err(StructTooBig);
  }
}
