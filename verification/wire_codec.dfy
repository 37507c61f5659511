/** The generated readers and writers as they run, proved against the functions of
    `Wire`, `WireMessages` and `WireEntries`. */
module WireCodec {
  import opened Basics
  import opened Colfer
  import opened ColferCodec
  import opened Wire
  import opened WireMessages
  import opened WireSession
  import opened WireEntries
  import opened WireCount

  // ------------------------------------------------------------------ sizing

  method SizeVarint(v: nat) returns (n: nat)
    ensures n == |Varint(v)|
  {
    SovIsLength(v);
    n := 1;
    var x: nat := v / 128;
    while x != 0
      invariant n + (if x == 0 then 0 else Sov(x)) == Sov(v)
    {
      n := n + 1;
      x := x / 128;
    }
  }

  method SizeBatch(es: seq<Entry>) returns (n: nat)
    requires Writable(es)
    ensures n == |MarshalBatch(es)|
  {
    BatchSizeIsExact(es);
    n := 0;
    var k := 0;
    while k < |es|
      invariant 0 <= k <= |es|
      invariant n + BatchSize(es[k..]) == BatchSize(es)
    {
      assert es[k..][0] == es[k] && es[k..][1..] == es[k + 1..];
      var l, _ := SizeOf(es[k]);
      SizeIsExact(es[k]);
      var more := SizeVarint(l);
      SovIsLength(l);
      n := n + 1 + l + more;
      k := k + 1;
    }
  }

  // ----------------------------------------------------------------- writing

  // Each writer takes its own bytes off what is left to write.

  method WriteByte(buf: array<Byte>, i: nat, b: Byte, ghost want: seq<Byte>, ghost left: seq<Byte>)
    requires Written(want, buf[..], i, [b] + left)
    modifies buf
    ensures Written(want, buf[..], i + 1, left)
  {
    WrittenMore(want, buf[..], i, [b], left);
    PutByte(buf, i, b);
  }

  method WriteVarint(buf: array<Byte>, i: nat, x: nat, ghost want: seq<Byte>, ghost left: seq<Byte>) returns (j: nat)
    requires Written(want, buf[..], i, Varint(x) + left)
    modifies buf
    ensures j == i + |Varint(x)| && Written(want, buf[..], j, left)
  {
    WrittenMore(want, buf[..], i, Varint(x), left);
    j := PutVarint(buf, i, x);
  }

  method PutTagged(buf: array<Byte>, i: nat, tag: Byte, x: nat, ghost want: seq<Byte>, ghost left: seq<Byte>) returns (j: nat)
    requires Written(want, buf[..], i, [tag] + (Varint(x) + left))
    modifies buf
    ensures j == i + 1 + |Varint(x)| && Written(want, buf[..], j, left)
  {
    WriteByte(buf, i, tag, want, Varint(x) + left);
    j := WriteVarint(buf, i + 1, x, want, left);
  }

  /** Write a session at the front of a buffer that is large enough. */
  method MarshalSessionTo(s: Session, buf: array<Byte>) returns (n: nat)
    requires |MarshalSession(s)| <= buf.Length
    modifies buf
    ensures n == |MarshalSession(s)| && buf[..] == Splice(old(buf[..]), 0, MarshalSession(s))
  {
    ghost var want := Splice(buf[..], 0, MarshalSession(s));
    n := PutTagged(buf, 0, 0x8, s.cluster, want, SessionFrom2(s));
    n := PutTagged(buf, n, 0x10, s.client, want, SessionFrom3(s));
    n := PutTagged(buf, n, 0x18, s.series, want, SessionFrom4(s));
    n := PutTagged(buf, n, 0x20, s.responded, want, []);
    assert buf[..] == want;
  }

  method PutBody(buf: array<Byte>, i: nat, e: Entry, ghost want: seq<Byte>, ghost left: seq<Byte>) returns (j: nat)
    requires Written(want, buf[..], i, Marshal(e) + left)
    modifies buf
    ensures j == i + |Marshal(e)| && Written(want, buf[..], j, left)
  {
    WrittenMore(want, buf[..], i, Marshal(e), left);
    j := MarshalTo(e, buf, i);
  }

  /** A batch from entry `k` on. */
  ghost predicate BatchLeft(buf: array<Byte>, i: nat, es: seq<Entry>, k: nat, want: seq<Byte>)
    requires k <= |es|
    reads buf
  {
    i + |MarshalBatch(es[k..])| == |MarshalBatch(es)| && Written(want, buf[..], i, MarshalBatch(es[k..]))
  }

  lemma BatchUnfolds(es: seq<Entry>, k: nat)
    requires k < |es|
    ensures Size(es[k]) == |Marshal(es[k])|
    ensures MarshalBatch(es[k..]) == [0xa] + (Varint(Size(es[k])) + (Marshal(es[k]) + MarshalBatch(es[k + 1..])))
  {
    SizeIsExact(es[k]);
    assert es[k..][0] == es[k] && es[k..][1..] == es[k + 1..];
  }

  method PutEntry(buf: array<Byte>, i: nat, es: seq<Entry>, k: nat, ghost want: seq<Byte>) returns (j: nat)
    requires k < |es| && |es[k].cmd| <= SIZE_MAX && Size(es[k]) <= SIZE_MAX
    requires BatchLeft(buf, i, es, k, want)
    modifies buf
    ensures BatchLeft(buf, j, es, k + 1, want)
  {
    var size, _ := SizeOf(es[k]);
    BatchUnfolds(es, k);
    j := PutTagged(buf, i, 0xa, size, want, Marshal(es[k]) + MarshalBatch(es[k + 1..]));
    j := PutBody(buf, j, es[k], want, MarshalBatch(es[k + 1..]));
  }

  method PutEntries(buf: array<Byte>, es: seq<Entry>, ghost want: seq<Byte>) returns (n: nat)
    requires Writable(es) && BatchLeft(buf, 0, es, 0, want)
    modifies buf
    ensures BatchLeft(buf, n, es, |es|, want)
  {
    n := 0;
    var k := 0;
    while k < |es|
      invariant 0 <= k <= |es| && BatchLeft(buf, n, es, k, want)
    {
      n := PutEntry(buf, n, es, k, want);
      k := k + 1;
    }
  }

  lemma NothingLeft(want: seq<Byte>, now: seq<Byte>, i: nat)
    requires Written(want, now, i, [])
    ensures now == want
  {}

  method MarshalBatchTo(es: seq<Entry>, buf: array<Byte>) returns (n: nat)
    requires Writable(es) && |MarshalBatch(es)| <= buf.Length
    modifies buf
    ensures n == |MarshalBatch(es)| && buf[..] == Splice(old(buf[..]), 0, MarshalBatch(es))
  {
    ghost var want := Splice(buf[..], 0, MarshalBatch(es));
    assert es[0..] == es;
    n := PutEntries(buf, es, want);
    assert es[|es|..] == [];
    NothingLeft(want, buf[..], n);
  }

  // ----------------------------------------------------------------- reading

  method ReadVarint(data: seq<Byte>, start: nat) returns (r: Read<nat>)
    ensures r == GetVarint(data, start, 0, 0)
  {
    var i, k: nat, x: nat := start, 0, 0;
    while true
      invariant start <= i && GetVarint(data, i, k, x) == GetVarint(data, start, 0, 0)
      decreases |data| - i
    {
      if k >= 10 { return Bad(IntOverflow); }
      if i >= |data| { return Bad(UnexpectedEof); }
      var b := data[i];
      i := i + 1;
      x := x + Placed(b % 128, k, TWO64);
      if b < 128 { return Done(x, i); }
      k := k + 1;
    }
  }

  method PassVarint(data: seq<Byte>, start: nat) returns (r: Skipped)
    ensures r == SkipVarint(data, start, 0)
  {
    var i, k: nat := start, 0;
    while true
      invariant start <= i && SkipVarint(data, i, k) == SkipVarint(data, start, 0)
      decreases |data| - i
    {
      if k >= 10 { return Stop(IntOverflow); }
      if i >= |data| { return Stop(UnexpectedEof); }
      i := i + 1;
      if data[i - 1] < 128 { return To(i); }
      k := k + 1;
    }
  }

  /** Skip one field, groups and all. */
  method SkipField(data: seq<Byte>, i: nat) returns (r: Skipped)
    ensures r == Skip(data, i)
    decreases |data| - i, 1
  {
    GetVarintMoves(data, i, 0, 0);
    var tag := ReadVarint(data, i);
    if tag.Bad? { return Stop(tag.fault); }
    var j := tag.next;
    SkipGoesOn(data, i, tag.value, j);
    match tag.value % 8 {
      case 0 => r := PassVarint(data, j);
      case 1 => return To(j + 8);
      case 2 =>
        var length := ReadVarint(data, j);
        if length.Bad? { return Stop(length.fault); }
        GetVarintMoves(data, j, 0, 0);
        if length.value >= TWO63 || length.next - i + length.value >= TWO63 { return Stop(InvalidLength); }
        return To(length.next + length.value);
      case 3 => r := SkipToEnd(data, i, j);
      case 4 => return To(j);
      case 5 => return To(j + 4);
      case _ => return Stop(IllegalWireType);
    }
  }

  method SkipToEnd(data: seq<Byte>, start: nat, first: nat) returns (r: Skipped)
    requires start < first <= |data|
    ensures r == SkipGroup(data, start, first)
    decreases |data| - start, 0
  {
    var i := first;
    while true
      invariant start < i && SkipGroup(data, start, i) == SkipGroup(data, start, first)
      decreases |data| - i
    {
      GetVarintMoves(data, i, 0, 0);
      var tag := ReadVarint(data, i);
      if tag.Bad? { return Stop(tag.fault); }
      if tag.value % 8 == 4 { return To(tag.next); }
      r := SkipField(data, i);
      if r.Stop? { return; }
      if r.next - start >= TWO63 { return Stop(InvalidLength); }
      i := r.next;
    }
  }

  method ReadFieldTag(data: seq<Byte>, i: nat) returns (r: Read<(nat, nat)>)
    ensures r == ReadTag(data, i)
  {
    var tag := ReadVarint(data, i);
    if tag.Bad? { return Bad(tag.fault); }
    if tag.value % 8 == 4 { return Bad(EndGroup); }
    if Signed(tag.value / 8) <= 0 { return Bad(IllegalTag); }
    return Done((Signed(tag.value / 8), tag.value % 8), tag.next);
  }

  method SkipUnknown(data: seq<Byte>, i: nat) returns (r: Skipped)
    ensures r == PassOver(data, i)
  {
    r := SkipField(data, i);
    if r.To? && r.next >= TWO63 { return Stop(InvalidLength); }
    if r.To? && r.next > |data| { return Stop(UnexpectedEof); }
  }

  /** Skip one field of a session, groups and all. */
  method LeapField(data: seq<Byte>, i: nat) returns (r: Landed)
    requires |data| < TWO63
    ensures r == Leap(data, i)
    decreases |data| - i, 1
  {
    GetVarintMoves(data, i, 0, 0);
    var tag := ReadVarint(data, i);
    if tag.Bad? { return Stops(tag.fault); }
    var j := tag.next;
    LeapGoesOn(data, i, tag.value, j);
    match tag.value % 8 {
      case 0 =>
        var past := PassVarint(data, j);
        r := Lift(past);
      case 1 => return Lands(Land(i, j + 8));
      case 2 =>
        var length := ReadVarint(data, j);
        if length.Bad? { return Stops(length.fault); }
        if length.value >= TWO63 { return Stops(InvalidLength); }
        return Lands(Land(i, length.next + length.value));
      case 3 => r := LeapToEnd(data, i, j);
      case 4 => return Lands(j);
      case 5 => return Lands(Land(i, j + 4));
      case _ => return Stops(IllegalWireType);
    }
  }

  method LeapToEnd(data: seq<Byte>, base: nat, first: nat) returns (r: Landed)
    requires base < first <= |data| < TWO63
    ensures r == LeapGroup(data, base, first)
    decreases |data| - base, 0
  {
    var i := first;
    while true
      invariant base < i && LeapGroup(data, base, i) == LeapGroup(data, base, first)
      decreases |data| - i
    {
      GetVarintMoves(data, i, 0, 0);
      var tag := ReadVarint(data, i);
      if tag.Bad? { return Stops(tag.fault); }
      if tag.value % 8 == 4 { return Lands(tag.next); }
      r := LeapField(data, i);
      if !r.Lands? { return; }
      // the next turn reads at a negative index
      if Land(base, r.next) < base { return Panics; }
      i := Land(base, r.next);
    }
  }

  /** Read a session from arbitrary data. */
  method UnmarshalSession(o: Session, data: seq<Byte>) returns (r: Loaded)
    requires |data| < TWO63
    ensures r == LoadSession(o, data, 0)
  {
    var s, i := o, 0;
    while i < |data|
      invariant 0 <= i <= |data| && LoadSession(s, data, i) == LoadSession(o, data, 0)
      decreases |data| - i
    {
      GetVarintMoves(data, i, 0, 0);
      var tag := ReadFieldTag(data, i);
      if tag.Bad? { return Returns(Failed(tag.fault)); }
      var (number, kind) := tag.value;
      if number <= 4 {
        if kind != 0 { return Returns(Failed(WrongWireType)); }
        GetVarintMoves(data, tag.next, 0, 0);
        GetVarintFits(data, tag.next, 0, 0);
        var x := ReadVarint(data, tag.next);
        if x.Bad? { return Returns(Failed(x.fault)); }
        s, i := Set(s, number, x.value), x.next;
      } else {
        var skip := LeapField(data, i);
        match skip {
          case Stops(f) => return Returns(Failed(f));
          case Panics => return Panicked;
          case Lands(next) =>
            if next < i { return Returns(Failed(InvalidLength)); }
            // the next turn reads at a negative index
            if SignedWrap64(next) < 0 { return Panicked; }
            if next > |data| { return Returns(Failed(UnexpectedEof)); }
            i := next;
        }
      }
    }
    return Returns(Got(s));
  }

  method ReadExtent(data: seq<Byte>, j: nat) returns (r: Read<nat>)
    ensures r == Extent(data, j)
  {
    var length := ReadVarint(data, j);
    if length.Bad? { return Bad(length.fault); }
    if length.value >= TWO63 || length.next + length.value >= TWO63 { return Bad(InvalidLength); }
    if length.next + length.value > |data| { return Bad(UnexpectedEof); }
    return Done(length.next, length.next + length.value);
  }

  /** The entry in the field whose length stands at `j`. */
  method ReadNested(data: seq<Byte>, j: nat) returns (r: Read<Entry>)
    ensures r == ReadEntry(Decode, data, j)
  {
    GetVarintMoves(data, j, 0, 0);
    var extent := ReadExtent(data, j);
    if extent.Bad? { return Bad(extent.fault); }
    var e := DecodeEntry(data[extent.value..extent.next]);
    return if e.Err? then Bad(BadEntry) else Done(e.value, extent.next);
  }

  method DecodeEntry(s: seq<Byte>) returns (r: Parsed<Entry>)
    ensures r == Decode(s)
  {
    r := UnmarshalFrom(ZERO, s);
  }

  /** Read a batch of entries from arbitrary data. */
  method UnmarshalBatch(data: seq<Byte>) returns (r: Outcome<seq<Entry>>)
    ensures r == ReadBatch(Decode, [], data, 0)
  {
    var es, i := [], 0;
    while i < |data|
      invariant 0 <= i <= |data| && ReadBatch(Decode, es, data, i) == ReadBatch(Decode, [], data, 0)
      decreases |data| - i
    {
      GetVarintMoves(data, i, 0, 0);
      var tag := ReadFieldTag(data, i);
      if tag.Bad? { return Failed(tag.fault); }
      var (number, kind) := tag.value;
      if number == 1 {
        if kind != 2 { return Failed(WrongWireType); }
        ReadEntryMoves(Decode, data, tag.next);
        var e := ReadNested(data, tag.next);
        if e.Bad? { return Failed(e.fault); }
        es, i := es + [e.value], e.next;
      } else {
        var past := SkipUnknown(data, i);
        if past.Stop? { return Failed(past.fault); }
        i := past.next;
      }
    }
    return Got(es);
  }

  method ReadRaw(data: seq<Byte>, start: nat) returns (r: Read<nat>)
    ensures r == RawVarint(data, start, 0, 0)
  {
    var i, k: nat, x: nat := start, 0, 0;
    while i < |data|
      invariant start <= i && RawVarint(data, i, k, x) == RawVarint(data, start, 0, 0)
      decreases |data| - i
    {
      var b := data[i];
      i := i + 1;
      x := x + Placed(b % 128, k, TWO64);
      if b < 128 { return Done(x, i); }
      k := k + 1;
    }
    return Bad(UnexpectedEof);
  }

  /** `more` entries counted already. */
  ghost function Plus(c: Counted, more: nat): Counted {
    match c case OutOfRange => OutOfRange case Forever => Forever case Count(n) => Count(n + more)
  }

  /** Count the entry fields at the front of the data. The set of positions seen is not
      part of the loop it models: it makes going round for ever an answer. */
  method CountEntries(data: seq<Byte>) returns (r: Counted)
    ensures r == EntryCount(data, 0, {})
  {
    var i, count: nat, seen: set<nat> := 0, 0, {};
    while i < |data|
      invariant 0 <= i && EntryCount(data, 0, {}) == Plus(EntryCount(data, i, seen), count)
      decreases Unseen(|data|, seen)
    {
      if i in seen { return Forever; }
      FewerUnseen(|data|, seen, i);
      var tag := ReadRaw(data, i);
      if tag.Bad? { return OutOfRange; }
      if Signed(tag.value / 8) != 11 { return Count(count); }
      var length := ReadRaw(data, tag.next);
      if length.Bad? { return OutOfRange; }
      var post := SignedWrap64(length.next + SignedWrap64(length.value));
      count := count + 1;
      // the next turn reads at a negative index
      if post < 0 { return OutOfRange; }
      seen, i := seen + {i}, post;
    }
    return Count(count);
  }
}
