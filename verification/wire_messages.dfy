/** Sessions, entry batches and raft messages on the wire. A message is read as what
    its fields say one after the other: later fields win, unknown ones are passed
    over. */
module WireMessages {
  import opened Basics
  import opened Colfer
  import opened Wire

  datatype Outcome<T> = Got(value: T) | Failed(fault: Trouble)

  /** The tag at `i`: field number and wire type, or why there is none. */
  function ReadTag(data: seq<Byte>, i: nat): Read<(nat, nat)> {
    match GetVarint(data, i, 0, 0)
    case Bad(f) => Bad(f)
    case Done(wire, j) =>
      if wire % 8 == 4 then Bad(EndGroup)
      else if Signed(wire / 8) <= 0 then Bad(IllegalTag)
      else Done((Signed(wire / 8), wire % 8), j)
  }

  /** Past an unknown field, which must lie within the data. */
  function PassOver(data: seq<Byte>, i: nat): Skipped {
    match Skip(data, i)
    case Stop(f) => Stop(f)
    case To(next) =>
      if next >= TWO63 then Stop(InvalidLength) else if next > |data| then Stop(UnexpectedEof) else To(next)
  }

  /** The extent of a length-delimited field whose length stands at `i`. */
  function Extent(data: seq<Byte>, i: nat): Read<nat> {
    match GetVarint(data, i, 0, 0)
    case Bad(f) => Bad(f)
    case Done(n, j) =>
      if n >= TWO63 || j + n >= TWO63 then Bad(InvalidLength)
      else if j + n > |data| then Bad(UnexpectedEof)
      else Done(j, j + n)
  }

  lemma FieldTag(data: seq<Byte>, i: nat, f: Field)
    requires WellFormed(f) && At(data, i, Encode(f))
    ensures ReadTag(data, i) == Done((f.number, TypeOf(f.value)), i + |Varint(Tag(f.number, TypeOf(f.value)))|)
    ensures At(data, i + |Varint(Tag(f.number, TypeOf(f.value)))|, Payload(f.number, f.value))
  {
    TagReads(data, i, f);
  }

  lemma UnknownPassed(data: seq<Byte>, i: nat, f: Field)
    requires |data| < TWO63 && WellFormed(f) && At(data, i, Encode(f))
    ensures PassOver(data, i) == To(i + |Encode(f)|)
  {
    SkipIsExact(data, i, f);
  }

  lemma BytesExtent(data: seq<Byte>, i: nat, s: seq<Byte>)
    requires |data| < TWO63 && At(data, i, Varint(|s|) + s)
    ensures Extent(data, i) == Done(i + |Varint(|s|)|, i + |Varint(|s|)| + |s|)
    ensures data[i + |Varint(|s|)|..i + |Varint(|s|)| + |s|] == s
  {
    AtTail(data, i, Varint(|s|), s);
    assert |s| < TWO63;
    VarintRoundTrip(data, i, |s|);
    ExtentIs(data, i, |s|, i + |Varint(|s|)|);
  }

  lemma ExtentIs(data: seq<Byte>, i: nat, n: nat, j: nat)
    requires GetVarint(data, i, 0, 0) == Done(n, j) && j + n <= |data| < TWO63
    ensures Extent(data, i) == Done(j, j + n)
  {}

  // ---------------------------------------------------------------- sessions

  datatype Session = Session(cluster: U64, client: U64, series: U64, responded: U64)

  function Set(o: Session, number: nat, x: U64): Session {
    match number
    case 1 => o.(cluster := x)
    case 2 => o.(client := x)
    case 3 => o.(series := x)
    case _ => o.(responded := x)
  }

  function ReadSession(o: Session, data: seq<Byte>, i: nat): Outcome<Session>
    requires i <= |data|
    decreases |data| - i
  {
    if i == |data| then Got(o)
    else
      GetVarintMoves(data, i, 0, 0);
      match ReadTag(data, i)
      case Bad(f) => Failed(f)
      case Done((number, kind), j) =>
        if number <= 4 then
          if kind != 0 then Failed(WrongWireType)
          else
            GetVarintMoves(data, j, 0, 0);
            GetVarintFits(data, j, 0, 0);
            match GetVarint(data, j, 0, 0)
            case Bad(f) => Failed(f)
            case Done(x, next) => ReadSession(Set(o, number, x), data, next)
        else
          match PassOver(data, i)
          case Stop(f) => Failed(f)
          case To(next) => ReadSession(o, data, next)
  }

  /** What one field says about a session. */
  function Heed(o: Session, f: Field): Session {
    if f.number <= 4 && f.value.Number? then Set(o, f.number, f.value.x) else o
  }

  /** What a list of fields says about a session. */
  function Meaning(o: Session, fs: Fields): Session
    decreases fs
  {
    match fs
    case Nil => o
    case Cons(f, rest) => Meaning(Heed(o, f), rest)
  }

  /** The fields a session knows are numbers. */
  predicate Typed(fs: Fields) {
    match fs case Nil => true case Cons(f, rest) => (f.number <= 4 ==> f.value.Number?) && Typed(rest)
  }

  lemma KnownStep(o: Session, data: seq<Byte>, i: nat, f: Field)
    requires WellFormed(f) && At(data, i, Encode(f)) && f.number <= 4 && f.value.Number?
    ensures i < i + |Encode(f)| <= |data|
    ensures ReadSession(o, data, i) == ReadSession(Set(o, f.number, f.value.x), data, i + |Encode(f)|)
  {
    var j := i + |Varint(Tag(f.number, 0))|;
    FieldTag(data, i, f);
    VarintRoundTrip(data, j, f.value.x);
    NumberRead(o, data, i, f.number, j, f.value.x, j + |Varint(f.value.x)|);
  }

  lemma NumberRead(o: Session, data: seq<Byte>, i: nat, number: nat, j: nat, x: U64, next: nat)
    requires i < |data| && 0 < number <= 4 && i < next <= |data|
    requires ReadTag(data, i) == Done((number, 0), j) && GetVarint(data, j, 0, 0) == Done(x, next)
    ensures ReadSession(o, data, i) == ReadSession(Set(o, number, x), data, next)
  {}

  lemma UnknownStep(o: Session, data: seq<Byte>, i: nat, f: Field)
    requires |data| < TWO63 && WellFormed(f) && At(data, i, Encode(f)) && f.number > 4
    ensures i < i + |Encode(f)| <= |data|
    ensures ReadSession(o, data, i) == ReadSession(o, data, i + |Encode(f)|)
  {
    FieldTag(data, i, f);
    UnknownPassed(data, i, f);
  }

  /** Any well-formed list of fields is read as what it says: repeated, reordered,
      and with unknown fields of any depth anywhere in between. */
  lemma {:induction false} ReadMeansFields(o: Session, data: seq<Byte>, i: nat, fs: Fields)
    requires |data| < TWO63 && i <= |data| && data[i..] == EncodeAll(fs) && AllOk(fs) && Typed(fs)
    ensures ReadSession(o, data, i) == Got(Meaning(o, fs))
    decreases fs
  {
    match fs
    case Nil =>
    case Cons(f, rest) =>
      SplitTyped(data, i, f, rest);
      ReadMeansFields(Heed(o, f), data, i + |Encode(f)|, rest);
      HeadMeans(o, data, i, f, rest);
  }

  lemma SplitTyped(data: seq<Byte>, i: nat, f: Field, rest: Fields)
    requires i <= |data| && data[i..] == EncodeAll(Cons(f, rest)) && AllOk(Cons(f, rest)) && Typed(Cons(f, rest))
    ensures i < i + |Encode(f)| <= |data| && At(data, i, Encode(f)) && data[i + |Encode(f)|..] == EncodeAll(rest)
    ensures WellFormed(f) && AllOk(rest) && Typed(rest) && (f.number <= 4 ==> f.value.Number?)
  {
    SplitHead(data, i, f, rest);
  }

  lemma HeadMeans(o: Session, data: seq<Byte>, i: nat, f: Field, rest: Fields)
    requires |data| < TWO63 && WellFormed(f) && At(data, i, Encode(f)) && (f.number <= 4 ==> f.value.Number?)
    requires ReadSession(Heed(o, f), data, i + |Encode(f)|) == Got(Meaning(Heed(o, f), rest))
    ensures i < |data| && ReadSession(o, data, i) == Got(Meaning(o, Cons(f, rest)))
  {
    StepMeans(o, data, i, f);
  }

  lemma StepMeans(o: Session, data: seq<Byte>, i: nat, f: Field)
    requires |data| < TWO63 && WellFormed(f) && At(data, i, Encode(f)) && (f.number <= 4 ==> f.value.Number?)
    ensures i < i + |Encode(f)| <= |data|
    ensures ReadSession(o, data, i) == ReadSession(Heed(o, f), data, i + |Encode(f)|)
  {
    if f.number <= 4 { KnownStep(o, data, i, f); } else { UnknownStep(o, data, i, f); }
  }

  lemma SplitHead(data: seq<Byte>, i: nat, f: Field, rest: Fields)
    requires i <= |data| && data[i..] == Encode(f) + EncodeAll(rest) && WellFormed(f)
    ensures i < i + |Encode(f)| <= |data| && At(data, i, Encode(f)) && data[i + |Encode(f)|..] == EncodeAll(rest)
  {
    assert data[i..i + |Encode(f)|] == data[i..][..|Encode(f)|];
    assert data[i + |Encode(f)|..] == data[i..][|Encode(f)|..];
  }

  function SessionFields(s: Session): Fields {
    Cons(Field(1, Number(s.cluster)), Cons(Field(2, Number(s.client)),
    Cons(Field(3, Number(s.series)), Cons(Field(4, Number(s.responded)), Nil))))
  }

  // A session from its second, third and fourth field on.
  function SessionFrom2(s: Session): seq<Byte> { [0x10] + (Varint(s.client) + SessionFrom3(s)) }
  function SessionFrom3(s: Session): seq<Byte> { [0x18] + (Varint(s.series) + SessionFrom4(s)) }
  function SessionFrom4(s: Session): seq<Byte> { [0x20] + (Varint(s.responded) + []) }

  function MarshalSession(s: Session): seq<Byte> {
    [0x8] + (Varint(s.cluster) + SessionFrom2(s))
  }

  function SessionSize(s: Session): nat {
    1 + Sov(s.cluster) + 1 + Sov(s.client) + 1 + Sov(s.series) + 1 + Sov(s.responded)
  }

  lemma NumberField(n: nat, x: U64, rest: Fields)
    requires 0 < n < 16
    ensures EncodeAll(Cons(Field(n, Number(x)), rest)) == [8 * n] + (Varint(x) + EncodeAll(rest))
  {
    assert Encode(Field(n, Number(x))) == Varint(8 * n) + Varint(x);
    Regroup([8 * n], Varint(x), EncodeAll(rest));
  }

  lemma SessionIsFields(s: Session)
    ensures MarshalSession(s) == EncodeAll(SessionFields(s))
  {
    var d := Cons(Field(4, Number(s.responded)), Nil);
    var c := Cons(Field(3, Number(s.series)), d);
    var b := Cons(Field(2, Number(s.client)), c);
    NumberField(4, s.responded, Nil);
    NumberField(3, s.series, d);
    NumberField(2, s.client, c);
    NumberField(1, s.cluster, b);
    assert EncodeAll(Nil) == [];
  }

  lemma SessionFieldsMean(o: Session, s: Session)
    ensures AllOk(SessionFields(s)) && Typed(SessionFields(s)) && Meaning(o, SessionFields(s)) == s
  {
    var d := Cons(Field(4, Number(s.responded)), Nil);
    var c := Cons(Field(3, Number(s.series)), d);
    var b := Cons(Field(2, Number(s.client)), c);
    assert AllOk(d) && Typed(d) && AllOk(c) && Typed(c) && AllOk(b) && Typed(b);
    var o3 := o.(cluster := s.cluster, client := s.client, series := s.series);
    assert Meaning(o3, d) == s;
    assert Meaning(o.(cluster := s.cluster, client := s.client), c) == s;
    assert Meaning(o.(cluster := s.cluster), b) == s;
  }

  lemma {:induction false} AppendMeans(o: Session, a: Fields, b: Fields)
    ensures Meaning(o, Append(a, b)) == Meaning(Meaning(o, a), b)
    ensures Typed(a) && Typed(b) ==> Typed(Append(a, b))
    decreases a
  {
    match a
    case Nil =>
    case Cons(f, rest) => AppendMeans(Heed(o, f), rest, b);
  }

  /** `SessionSize` is what is written, at most 44 bytes. */
  lemma SessionSizeIsExact(s: Session)
    ensures |MarshalSession(s)| == SessionSize(s) <= 44
  {
    SovIsLength(s.cluster);
    SovIsLength(s.client);
    SovIsLength(s.series);
    SovIsLength(s.responded);
    LimitTen();
    VarintLength(s.cluster, 10);
    VarintLength(s.client, 10);
    VarintLength(s.series, 10);
    VarintLength(s.responded, 10);
  }

  /** A session is read back from its encoding into any session, and so it is when
      unknown fields follow. */
  lemma SessionRoundTrip(s: Session, o: Session, more: Fields)
    requires AllOk(more) && Unknown(more) && |MarshalSession(s) + EncodeAll(more)| < TWO63
    ensures ReadSession(o, MarshalSession(s) + EncodeAll(more), 0) == Got(s)
  {
    var all := Append(SessionFields(s), more);
    SessionIsFields(s);
    SessionFieldsMean(o, s);
    AppendEncodes(SessionFields(s), more);
    AppendMeans(o, SessionFields(s), more);
    UnknownMeansNothing(s, more);
    UnknownIsTyped(more);
    ReadMeansFields(o, EncodeAll(all), 0, all);
  }

  predicate Unknown(fs: Fields) {
    match fs case Nil => true case Cons(f, rest) => f.number > 4 && Unknown(rest)
  }

  function Append(a: Fields, b: Fields): Fields {
    match a case Nil => b case Cons(f, rest) => Cons(f, Append(rest, b))
  }

  lemma {:induction false} AppendEncodes(a: Fields, b: Fields)
    ensures EncodeAll(Append(a, b)) == EncodeAll(a) + EncodeAll(b)
    ensures AllOk(a) && AllOk(b) ==> AllOk(Append(a, b))
  {
    match a
    case Nil => assert EncodeAll(a) + EncodeAll(b) == EncodeAll(b);
    case Cons(f, rest) =>
      AppendEncodes(rest, b);
      assert Encode(f) + (EncodeAll(rest) + EncodeAll(b)) == Encode(f) + EncodeAll(rest) + EncodeAll(b);
  }

  lemma {:induction false} UnknownMeansNothing(o: Session, fs: Fields)
    requires Unknown(fs)
    ensures Meaning(o, fs) == o
  {
    match fs case Nil => case Cons(_, rest) => UnknownMeansNothing(o, rest);
  }

  lemma {:induction false} UnknownIsTyped(fs: Fields)
    requires Unknown(fs)
    ensures Typed(fs)
  {
    match fs case Nil => case Cons(_, rest) => UnknownIsTyped(rest);
  }
}
