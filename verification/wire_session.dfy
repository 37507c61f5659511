/** How a session is read from arbitrary data. The session's generated code is older
    than that of the raft messages: it adds lengths to signed 64-bit positions without
    looking for overflow. A position that has wrapped is negative, and reading there is
    a panic. */
module WireSession {
  import opened Basics
  import opened Colfer
  import opened Wire
  import opened WireMessages

  /** A skip ends somewhere, which may be a wrapped position, stops with an error, or
      reads at a negative position. */
  datatype Landed = Lands(next: int) | Stops(fault: Trouble) | Panics

  datatype Loaded = Returns(outcome: Outcome<Session>) | Panicked

  /** The position `end` as a skip that started at `base` computes it. */
  function Land(base: nat, end: int): int {
    base + SignedWrap64(end - base)
  }

  function Lift(r: Skipped): Landed {
    match r case To(next) => Lands(next) case Stop(f) => Stops(f)
  }

  /** Past the field whose tag stands at `i`. */
  function Leap(data: seq<Byte>, i: nat): (r: Landed)
    requires |data| < TWO63
    ensures r.Lands? ==> (r.next > i || r.next < 0) && MIN64 <= r.next - i < TWO63
    decreases |data| - i, 2
  {
    GetVarintMoves(data, i, 0, 0);
    match GetVarint(data, i, 0, 0)
    case Bad(f) => Stops(f)
    case Done(wire, j) => LeapPayload(data, i, j, wire % 8)
  }

  function LeapPayload(data: seq<Byte>, i: nat, j: nat, kind: nat): (r: Landed)
    requires i < j <= |data| < TWO63
    ensures r.Lands? ==> (r.next > i || r.next < 0) && MIN64 <= r.next - i < TWO63
    decreases |data| - i, 1
  {
    SkipVarintMoves(data, j, 0);
    SkipVarintStays(data, j, 0);
    match kind
    case 0 => Lift(SkipVarint(data, j, 0))
    case 1 => Lands(Land(i, j + 8))
    case 2 => LeapBytes(data, i, j)
    case 3 => LeapGroup(data, i, j)
    case 4 => Lands(j)
    case 5 => Lands(Land(i, j + 4))
    case _ => Stops(IllegalWireType)
  }

  function LeapBytes(data: seq<Byte>, start: nat, i: nat): (r: Landed)
    requires start < i <= |data| < TWO63
    ensures r.Lands? ==> (r.next > start || r.next < 0) && MIN64 <= r.next - start < TWO63
  {
    GetVarintMoves(data, i, 0, 0);
    match GetVarint(data, i, 0, 0)
    case Bad(f) => Stops(f)
    case Done(n, j) => if n >= TWO63 then Stops(InvalidLength) else Lands(Land(start, j + n))
  }

  /** Past the fields of the group begun at `base`. */
  function LeapGroup(data: seq<Byte>, base: nat, i: nat): (r: Landed)
    requires base < i && |data| < TWO63
    ensures r.Lands? ==> i < r.next <= |data|
    decreases |data| - i, 3
  {
    GetVarintMoves(data, i, 0, 0);
    match GetVarint(data, i, 0, 0)
    case Bad(f) => Stops(f)
    case Done(wire, j) =>
      if wire % 8 == 4 then Lands(j)
      else
        match Leap(data, i)
        case Stops(f) => Stops(f)
        case Panics => Panics
        case Lands(next) => if Land(base, next) < base then Panics else LeapGroup(data, base, Land(base, next))
  }

  lemma LeapGoesOn(data: seq<Byte>, i: nat, wire: nat, j: nat)
    requires i < j <= |data| < TWO63 && GetVarint(data, i, 0, 0) == Done(wire, j)
    ensures Leap(data, i) == LeapPayload(data, i, j, wire % 8)
  {}

  lemma {:induction false} SkipVarintStays(data: seq<Byte>, i: nat, k: nat)
    ensures SkipVarint(data, i, k).To? ==> SkipVarint(data, i, k).next <= |data|
    decreases |data| - i
  {
    if k < 10 && i < |data| && data[i] >= 128 { SkipVarintStays(data, i + 1, k + 1); }
  }

  /** Past an unknown field of the session itself: a backward skip and one beyond the
      data are refused, but the sum of position and skip may wrap unnoticed. */
  function LeapOver(data: seq<Byte>, i: nat): Landed
    requires i <= |data| < TWO63
  {
    match Leap(data, i)
    case Stops(f) => Stops(f)
    case Panics => Panics
    case Lands(next) =>
      if next < i then Stops(InvalidLength)
      else if SignedWrap64(next) < 0 then Panics
      else if next > |data| then Stops(UnexpectedEof)
      else Lands(next)
  }

  /** Read a session from arbitrary data. */
  function LoadSession(o: Session, data: seq<Byte>, i: nat): Loaded
    requires i <= |data| < TWO63
    decreases |data| - i
  {
    if i == |data| then Returns(Got(o))
    else
      GetVarintMoves(data, i, 0, 0);
      match ReadTag(data, i)
      case Bad(f) => Returns(Failed(f))
      case Done((number, kind), j) =>
        if number <= 4 then
          if kind != 0 then Returns(Failed(WrongWireType))
          else
            GetVarintMoves(data, j, 0, 0);
            GetVarintFits(data, j, 0, 0);
            match GetVarint(data, j, 0, 0)
            case Bad(f) => Returns(Failed(f))
            case Done(x, next) => LoadSession(Set(o, number, x), data, next)
        else
          match LeapOver(data, i)
          case Stops(f) => Returns(Failed(f))
          case Panics => Panicked
          case Lands(next) => LoadSession(o, data, next)
  }

  // ------------------------------------------- when reading returns, and what

  /** Where a field ends if positions do not wrap. */
  function Ahead(data: seq<Byte>, i: nat): (r: Skipped)
    ensures r.To? ==> r.next > i
  {
    GetVarintMoves(data, i, 0, 0);
    match GetVarint(data, i, 0, 0)
    case Bad(f) => Stop(f)
    case Done(wire, j) =>
      if wire % 8 != 2 then Skip(data, i)
      else
        GetVarintMoves(data, j, 0, 0);
        match GetVarint(data, j, 0, 0)
        case Bad(f) => Stop(f)
        case Done(n, k) => if n >= TWO63 then Stop(InvalidLength) else To(k + n)
  }

  /** The field at `i` is a group that holds, at some depth, a field that ends 2^63 or
      more bytes behind the start of the group it is in. */
  predicate Trips(data: seq<Byte>, i: nat)
    decreases |data| - i, 0
  {
    GetVarintMoves(data, i, 0, 0);
    match GetVarint(data, i, 0, 0)
    case Bad(_) => false
    case Done(wire, j) => wire % 8 == 3 && GroupTrips(data, i, j)
  }

  predicate GroupTrips(data: seq<Byte>, base: nat, i: nat)
    decreases |data| - i, 1
  {
    GetVarintMoves(data, i, 0, 0);
    match GetVarint(data, i, 0, 0)
    case Bad(_) => false
    case Done(wire, _) =>
      wire % 8 != 4 && (
        || Trips(data, i)
        || match Ahead(data, i)
           case Stop(_) => false
           case To(next) => next - base >= TWO63 || GroupTrips(data, base, next))
  }

  /** The unknown field at `i` trips, or itself ends at 2^63 or beyond although it is
      shorter than that. */
  predicate FieldTrips(data: seq<Byte>, i: nat) {
    Trips(data, i) || match Ahead(data, i) case Stop(_) => false case To(next) => i + TWO63 > next >= TWO63
  }

  /** Reading fields one after the other reaches one that trips. */
  predicate SessionTrips(data: seq<Byte>, i: nat)
    requires i <= |data|
    decreases |data| - i
  {
    if i == |data| then false
    else
      GetVarintMoves(data, i, 0, 0);
      match ReadTag(data, i)
      case Bad(_) => false
      case Done((number, kind), j) =>
        if number <= 4 then
          GetVarintMoves(data, j, 0, 0);
          match GetVarint(data, j, 0, 0)
          case Bad(_) => false
          case Done(_, next) => kind == 0 && SessionTrips(data, next)
        else FieldTrips(data, i) || match PassOver(data, i) case Stop(_) => false case To(next) => SessionTrips(data, next)
  }

  lemma LandIs(base: nat, end: int)
    requires MIN64 <= end - base < TWO64
    ensures Land(base, end) == if end - base < TWO63 then end else end - TWO64
  {}

  lemma {:induction false} SkipGroupStays(data: seq<Byte>, start: nat, i: nat)
    requires start < i
    ensures SkipGroup(data, start, i).To? ==> SkipGroup(data, start, i).next <= |data|
    decreases |data| - i
  {
    GetVarintMoves(data, i, 0, 0);
    var tag := GetVarint(data, i, 0, 0);
    if tag.Done? && tag.value % 8 != 4 && Skip(data, i).To? && Skip(data, i).next - start < TWO63 {
      SkipGroupStays(data, start, Skip(data, i).next);
    }
  }

  lemma GroupEndsWithin(data: seq<Byte>, i: nat, wire: nat, j: nat)
    requires i < j <= |data| && GetVarint(data, i, 0, 0) == Done(wire, j) && wire % 8 == 3
    ensures Ahead(data, i) == Skip(data, i) == SkipGroup(data, i, j)
    ensures Skip(data, i).To? ==> Skip(data, i).next <= |data|
  {
    SkipGoesOn(data, i, wire, j);
    SkipGroupStays(data, i, j);
    assert SkipPayload(data, i, j, 3) == SkipGroup(data, i, j);
  }

  lemma AheadIs(data: seq<Byte>, i: nat)
    ensures Ahead(data, i).Stop? ==> Skip(data, i) == Ahead(data, i)
    ensures Ahead(data, i).To? && Ahead(data, i).next - i < TWO63 ==> Skip(data, i) == Ahead(data, i)
    ensures Ahead(data, i).To? ==> Skip(data, i) == Ahead(data, i) || Skip(data, i) == Stop(InvalidLength)
  {}

  lemma AheadFits(data: seq<Byte>, i: nat)
    requires |data| < TWO63
    ensures Ahead(data, i).To? ==> i < Ahead(data, i).next < TWO64
  {
    GetVarintMoves(data, i, 0, 0);
    var tag := GetVarint(data, i, 0, 0);
    if tag.Done? {
      SkipGoesOn(data, i, tag.value, tag.next);
      GetVarintMoves(data, tag.next, 0, 0);
      SkipVarintStays(data, tag.next, 0);
      if tag.value % 8 == 3 { GroupEndsWithin(data, i, tag.value, tag.next); }
    }
  }

  /** A skip panics exactly if it trips; otherwise it ends where the field does, as
      far as that can be computed. */
  lemma {:induction false} LeapIs(data: seq<Byte>, i: nat)
    requires |data| < TWO63
    ensures Trips(data, i) ==> Leap(data, i) == Panics
    ensures !Trips(data, i) ==>
              Leap(data, i) == match Ahead(data, i) case Stop(f) => Stops(f) case To(end) => Lands(Land(i, end))
    decreases |data| - i, 0
  {
    GetVarintMoves(data, i, 0, 0);
    var tag := GetVarint(data, i, 0, 0);
    if tag.Done? {
      SkipVarintMoves(data, tag.next, 0);
      SkipVarintStays(data, tag.next, 0);
      if tag.value % 8 == 3 {
        LeapGroupIs(data, i, tag.next);
        GroupEndsWithin(data, i, tag.value, tag.next);
      }
    }
  }

  lemma {:induction false} LeapGroupIs(data: seq<Byte>, base: nat, i: nat)
    requires base < i && |data| < TWO63
    ensures GroupTrips(data, base, i) ==> LeapGroup(data, base, i) == Panics
    ensures !GroupTrips(data, base, i) ==> LeapGroup(data, base, i) == Lift(SkipGroup(data, base, i))
    decreases |data| - i, 1
  {
    GetVarintMoves(data, i, 0, 0);
    var tag := GetVarint(data, i, 0, 0);
    if tag.Done? && tag.value % 8 != 4 {
      LeapIs(data, i);
      AheadIs(data, i);
      AheadFits(data, i);
      if !Trips(data, i) && Ahead(data, i).To? {
        var end := Ahead(data, i).next;
        LandIs(i, end);
        LandIs(base, Land(i, end));
        if end - base < TWO63 { LeapGroupIs(data, base, end); }
      }
    }
  }

  lemma LeapOverIs(data: seq<Byte>, i: nat)
    requires i <= |data| < TWO63
    ensures LeapOver(data, i) == if FieldTrips(data, i) then Panics else Lift(PassOver(data, i))
  {
    LeapIs(data, i);
    AheadIs(data, i);
    AheadFits(data, i);
    if Ahead(data, i).To? { LandIs(i, Ahead(data, i).next); }
  }

  /** Reading a session panics if and only if it reaches a field that trips; otherwise
      it returns what a reader that watches for overflow returns. */
  lemma {:induction false} ReturnsIff(o: Session, data: seq<Byte>, i: nat)
    requires i <= |data| < TWO63
    ensures LoadSession(o, data, i) == if SessionTrips(data, i) then Panicked else Returns(ReadSession(o, data, i))
    decreases |data| - i
  {
    if i < |data| {
      GetVarintMoves(data, i, 0, 0);
      var tag := ReadTag(data, i);
      if tag.Done? {
        if tag.value.0 <= 4 {
          GetVarintMoves(data, tag.next, 0, 0);
          GetVarintFits(data, tag.next, 0, 0);
          var x := GetVarint(data, tag.next, 0, 0);
          if x.Done? && tag.value.1 == 0 { ReturnsIff(Set(o, tag.value.0, x.value), data, x.next); }
        } else {
          LeapOverIs(data, i);
          if PassOver(data, i).To? { ReturnsIff(o, data, PassOver(data, i).next); }
        }
      }
    }
  }

  /** A field of a length-delimited kind trips if and only if it is shorter than 2^63
      bytes and ends at or behind position 2^63. */
  lemma LengthTripsIff(data: seq<Byte>, i: nat, number: nat, n: U64)
    requires 0 < number < TWO31 && At(data, i, Varint(Tag(number, 2)) + Varint(n))
    ensures var end := i + |Varint(Tag(number, 2))| + |Varint(n)| + n;
            FieldTrips(data, i) <==> n < TWO63 && end - i < TWO63 <= end
  {
    var j := i + |Varint(Tag(number, 2))|;
    TagFits(number, 2);
    TagThen(data, i, Tag(number, 2), Varint(n));
    VarintRoundTrip(data, j, n);
    LengthRead(data, i, Tag(number, 2), j, n, j + |Varint(n)|);
  }

  lemma LengthRead(data: seq<Byte>, i: nat, tag: nat, j: nat, n: nat, k: nat)
    requires i < j <= |data| && GetVarint(data, i, 0, 0) == Done(tag, j) && tag % 8 == 2 && GetVarint(data, j, 0, 0) == Done(n, k)
    ensures FieldTrips(data, i) <==> n < TWO63 && i + TWO63 > k + n >= TWO63
    ensures !Trips(data, i) && (n < TWO63 ==> Ahead(data, i) == To(k + n))
  {}

  /** Well-formed fields do not trip: what stands behind them decides. */
  lemma {:induction false} TripsBehind(data: seq<Byte>, i: nat, fs: Fields)
    requires |data| < TWO63 && At(data, i, EncodeAll(fs)) && AllOk(fs) && Typed(fs)
    ensures SessionTrips(data, i) == SessionTrips(data, i + |EncodeAll(fs)|)
    decreases fs
  {
    match fs
    case Nil =>
    case Cons(f, rest) =>
      AtTail(data, i, Encode(f), EncodeAll(rest));
      TripsBehindOne(data, i, f);
      TripsBehind(data, i + |Encode(f)|, rest);
  }

  lemma TripsBehindOne(data: seq<Byte>, i: nat, f: Field)
    requires |data| < TWO63 && At(data, i, Encode(f)) && WellFormed(f) && (f.number <= 4 ==> f.value.Number?)
    ensures i < i + |Encode(f)| <= |data|
    ensures SessionTrips(data, i) == SessionTrips(data, i + |Encode(f)|)
  {
    var j := i + |Varint(Tag(f.number, TypeOf(f.value)))|;
    FieldTag(data, i, f);
    EncodedLength(f);
    if f.number <= 4 {
      VarintRoundTrip(data, j, f.value.x);
    } else {
      UnknownPassed(data, i, f);
      NoTrip(data, i, f);
    }
  }

  lemma {:induction false} NoTrip(data: seq<Byte>, i: nat, f: Field)
    requires |data| < TWO63 && At(data, i, Encode(f)) && WellFormed(f)
    ensures !FieldTrips(data, i) && !Trips(data, i) && Ahead(data, i) == To(i + |Encode(f)|)
    decreases f, 1
  {
    var tag := Tag(f.number, TypeOf(f.value));
    var j := i + |Varint(tag)|;
    TagReads(data, i, f);
    SkipIsExact(data, i, f);
    match f.value
    case Bytes(s) =>
      AtTail(data, j, Varint(|s|), s);
      VarintRoundTrip(data, j, |s|);
      LengthRead(data, i, tag, j, |s|, j + |Varint(|s|)|);
      EncodedLength(f);
    case Group(fs) =>
      NoGroupTrip(data, i, j, f.number, fs);
      OtherRead(data, i, tag, j);
    case _ => OtherRead(data, i, tag, j);
  }

  lemma OtherRead(data: seq<Byte>, i: nat, tag: nat, j: nat)
    requires i < j <= |data| && GetVarint(data, i, 0, 0) == Done(tag, j) && tag % 8 != 2
    ensures Trips(data, i) <==> tag % 8 == 3 && GroupTrips(data, i, j)
    ensures Ahead(data, i) == Skip(data, i)
  {}

  lemma {:induction false} NoGroupTrip(data: seq<Byte>, base: nat, i: nat, number: nat, fs: Fields)
    requires |data| < TWO63 && base < i && 0 < number < TWO31 && AllOk(fs)
    requires At(data, i, EncodeAll(fs) + Varint(Tag(number, 4)))
    ensures !GroupTrips(data, base, i)
    decreases fs, 0
  {
    var end := Varint(Tag(number, 4));
    match fs
    case Nil =>
      assert EncodeAll(fs) + end == end;
      TagFits(number, 4);
      VarintRoundTrip(data, i, Tag(number, 4));
    case Cons(f, rest) =>
      GroupHead(data, i, f, rest, end);
      NoTrip(data, i, f);
      NoGroupTrip(data, base, i + |Encode(f)|, number, rest);
  }

  /** Behind any well-formed fields, an unknown field of such a length makes reading
      panic, whatever follows. */
  lemma HugeLengthPanics(o: Session, data: seq<Byte>, fs: Fields, number: nat, n: U64)
    requires AllOk(fs) && Typed(fs) && 4 < number < TWO31 && n < TWO63 && |data| < TWO63
    requires At(data, 0, EncodeAll(fs)) && At(data, |EncodeAll(fs)|, Varint(Tag(number, 2)) + Varint(n))
    requires |Varint(Tag(number, 2))| + |Varint(n)| + n < TWO63
    requires |EncodeAll(fs)| + |Varint(Tag(number, 2))| + |Varint(n)| + n >= TWO63
    ensures LoadSession(o, data, 0) == Panicked
  {
    var i := |EncodeAll(fs)|;
    TripsBehind(data, 0, fs);
    LengthTripsIff(data, i, number, n);
    UnknownTag(data, i, number, n);
    TrippingField(data, i, number, i + |Varint(Tag(number, 2))|);
    ReturnsIff(o, data, 0);
  }

  lemma UnknownTag(data: seq<Byte>, i: nat, number: nat, n: nat)
    requires 0 < number < TWO31 && At(data, i, Varint(Tag(number, 2)) + Varint(n))
    ensures i < |data| && ReadTag(data, i) == Done((number, 2), i + |Varint(Tag(number, 2))|)
  {
    TagFits(number, 2);
    TagThen(data, i, Tag(number, 2), Varint(n));
  }

  lemma TrippingField(data: seq<Byte>, i: nat, number: nat, j: nat)
    requires i < |data| && ReadTag(data, i) == Done((number, 2), j) && number > 4 && FieldTrips(data, i)
    ensures SessionTrips(data, i)
  {}

  const HUGE: seq<Byte> := [0xf5, 0xff, 0xff, 0xff, 0xff, 0xff, 0xff, 0xff, 0x7f]
  const WRAPPING: seq<Byte> := [0x08, 0x00, 0x2a] + HUGE

  /** Twelve bytes on which it does: a cluster id, then an unknown field said to be
      2^63 - 11 bytes long. */
  lemma WrappingPanics(o: Session)
    ensures LoadSession(o, WRAPPING, 0) == Panicked
  {
    var fs := Cons(Field(1, Number(0)), Nil);
    var n := TWO63 - 11;
    NumberField(1, 0, Nil);
    assert EncodeAll(Nil) == [];
    assert EncodeAll(fs) == [0x08, 0x00];
    HugeVarint();
    assert Varint(Tag(5, 2)) == [0x2a];
    assert WRAPPING[0..2] == [0x08, 0x00];
    assert |HUGE| == 9 && WRAPPING[2..12] == [0x2a] + HUGE;
    HugeLengthPanics(o, WRAPPING, fs, 5, n);
  }

  lemma HugeVarint()
    ensures Varint(TWO63 - 11) == HUGE
  {
    assert Varint(0x7f) == [0x7f];
    Digit(0x3fff, [0x7f]);
    Digit(0x1fffff, [0xff, 0x7f]);
    Digit(0xfffffff, [0xff, 0xff, 0x7f]);
    Digit(0x7ffffffff, [0xff, 0xff, 0xff, 0x7f]);
    Digit(0x3ffffffffff, [0xff, 0xff, 0xff, 0xff, 0x7f]);
    Digit(0x1ffffffffffff, [0xff, 0xff, 0xff, 0xff, 0xff, 0x7f]);
    Digit(0xffffffffffffff, [0xff, 0xff, 0xff, 0xff, 0xff, 0xff, 0x7f]);
    Digit(0x7ffffffffffffff5, [0xff, 0xff, 0xff, 0xff, 0xff, 0xff, 0xff, 0x7f]);
  }

  /** Any well-formed list of fields is read as what it says: repeated, reordered, and
      with unknown fields of any depth anywhere in between. */
  lemma LoadMeansFields(o: Session, data: seq<Byte>, fs: Fields)
    requires |data| < TWO63 && data == EncodeAll(fs) && AllOk(fs) && Typed(fs)
    ensures LoadSession(o, data, 0) == Returns(Got(Meaning(o, fs)))
  {
    assert data[0..] == data == data[0..|data|];
    TripsBehind(data, 0, fs);
    ReturnsIff(o, data, 0);
    ReadMeansFields(o, data, 0, fs);
  }

  /** A session is read back from its encoding, also when unknown fields follow. */
  lemma SessionLoadsBack(s: Session, o: Session, more: Fields)
    requires AllOk(more) && Unknown(more) && |MarshalSession(s) + EncodeAll(more)| < TWO63
    ensures LoadSession(o, MarshalSession(s) + EncodeAll(more), 0) == Returns(Got(s))
  {
    var all := Append(SessionFields(s), more);
    var data := MarshalSession(s) + EncodeAll(more);
    SessionIsFields(s);
    SessionFieldsMean(s, s);
    AppendEncodes(SessionFields(s), more);
    AppendMeans(o, SessionFields(s), more);
    UnknownIsTyped(more);
    assert data[0..|data|] == data;
    TripsBehind(data, 0, all);
    ReturnsIff(o, data, 0);
    SessionRoundTrip(s, o, more);
  }
}
