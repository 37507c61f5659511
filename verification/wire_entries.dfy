/** Messages inside messages: a batch of Colfer entries. */
module WireEntries {
  import opened Basics
  import opened Colfer
  import opened Wire
  import opened WireMessages

  type Parser = seq<Byte> -> Parsed<Entry>

  /** The entry in a length-delimited field whose length stands at `j`. */
  function ReadEntry(parse: Parser, data: seq<Byte>, j: nat): Read<Entry> {
    match Extent(data, j)
    case Bad(f) => Bad(f)
    case Done(from, to) =>
      GetVarintMoves(data, j, 0, 0);
      match parse(data[from..to])
      case Err(_) => Bad(BadEntry)
      case Ok(e, _) => Done(e, to)
  }

  function ReadBatch(parse: Parser, es: seq<Entry>, data: seq<Byte>, i: nat): Outcome<seq<Entry>>
    requires i <= |data|
    decreases |data| - i
  {
    if i == |data| then Got(es)
    else
      GetVarintMoves(data, i, 0, 0);
      match ReadTag(data, i)
      case Bad(f) => Failed(f)
      case Done((number, kind), j) =>
        if number == 1 then
          if kind != 2 then Failed(WrongWireType)
          else
            ReadEntryMoves(parse, data, j);
            match ReadEntry(parse, data, j)
            case Bad(f) => Failed(f)
            case Done(e, next) => ReadBatch(parse, es + [e], data, next)
        else
          match PassOver(data, i)
          case Stop(f) => Failed(f)
          case To(next) => ReadBatch(parse, es, data, next)
  }

  lemma ReadEntryMoves(parse: Parser, data: seq<Byte>, j: nat)
    ensures var r := ReadEntry(parse, data, j); r.Done? ==> j < r.next <= |data|
  {
    GetVarintMoves(data, j, 0, 0);
  }

  /** What one field says about a batch: one more entry, nothing, or that it is bad. */
  function Heeded(parse: Parser, es: seq<Entry>, f: Field): Outcome<seq<Entry>> {
    if f.number == 1 && f.value.Bytes? then
      match parse(f.value.bytes) case Err(_) => Failed(BadEntry) case Ok(e, _) => Got(es + [e])
    else Got(es)
  }

  /** What a list of fields says about a batch: its entries, unless one is bad. */
  function Collect(parse: Parser, es: seq<Entry>, fs: Fields): Outcome<seq<Entry>>
    decreases fs
  {
    match fs
    case Nil => Got(es)
    case Cons(f, rest) =>
      match Heeded(parse, es, f)
      case Failed(x) => Failed(x)
      case Got(more) => Collect(parse, more, rest)
  }

  /** The fields with this number hold bytes. */
  predicate HoldBytes(number: nat, fs: Fields) {
    match fs case Nil => true case Cons(f, rest) => (f.number == number ==> f.value.Bytes?) && HoldBytes(number, rest)
  }

  lemma EntryReads(parse: Parser, data: seq<Byte>, j: nat, s: seq<Byte>)
    requires |data| < TWO63 && At(data, j, Varint(|s|) + s)
    ensures ReadEntry(parse, data, j) ==
              match parse(s) case Err(_) => Bad(BadEntry) case Ok(e, _) => Done(e, j + |Varint(|s|)| + |s|)
  {
    BytesExtent(data, j, s);
  }

  lemma EntryStep(parse: Parser, es: seq<Entry>, data: seq<Byte>, i: nat, f: Field)
    requires |data| < TWO63 && WellFormed(f) && At(data, i, Encode(f)) && f.number == 1 && f.value.Bytes?
    ensures i < i + |Encode(f)| <= |data|
    ensures ReadBatch(parse, es, data, i) ==
              match parse(f.value.bytes)
              case Err(_) => Failed(BadEntry)
              case Ok(e, _) => ReadBatch(parse, es + [e], data, i + |Encode(f)|)
  {
    var j := i + |Varint(Tag(1, 2))|;
    FieldTag(data, i, f);
    EntryReads(parse, data, j, f.value.bytes);
    EntryFound(parse, es, data, i, j);
  }

  lemma EntryFound(parse: Parser, es: seq<Entry>, data: seq<Byte>, i: nat, j: nat)
    requires i < |data| && ReadTag(data, i) == Done((1, 2), j)
    ensures ReadEntry(parse, data, j).Bad? ==> ReadBatch(parse, es, data, i) == Failed(ReadEntry(parse, data, j).fault)
    ensures ReadEntry(parse, data, j).Done? ==>
              && i < ReadEntry(parse, data, j).next <= |data|
              && ReadBatch(parse, es, data, i) == ReadBatch(parse, es + [ReadEntry(parse, data, j).value], data, ReadEntry(parse, data, j).next)
  {
    GetVarintMoves(data, i, 0, 0);
    ReadEntryMoves(parse, data, j);
  }

  lemma OtherStep(parse: Parser, es: seq<Entry>, data: seq<Byte>, i: nat, f: Field)
    requires |data| < TWO63 && WellFormed(f) && At(data, i, Encode(f)) && f.number != 1
    ensures i < i + |Encode(f)| <= |data|
    ensures ReadBatch(parse, es, data, i) == ReadBatch(parse, es, data, i + |Encode(f)|)
  {
    FieldTag(data, i, f);
    UnknownPassed(data, i, f);
  }

  lemma FieldStep(parse: Parser, es: seq<Entry>, data: seq<Byte>, i: nat, f: Field)
    requires |data| < TWO63 && WellFormed(f) && At(data, i, Encode(f)) && (f.number == 1 ==> f.value.Bytes?)
    ensures i < i + |Encode(f)| <= |data|
    ensures ReadBatch(parse, es, data, i) ==
              match Heeded(parse, es, f) case Failed(x) => Failed(x) case Got(more) => ReadBatch(parse, more, data, i + |Encode(f)|)
  {
    if f.number == 1 { EntryStep(parse, es, data, i, f); } else { OtherStep(parse, es, data, i, f); }
  }

  /** A batch is read as what its fields say, unknown ones passed over. */
  lemma {:induction false} BatchMeansFields(parse: Parser, es: seq<Entry>, data: seq<Byte>, i: nat, fs: Fields)
    requires |data| < TWO63 && i <= |data| && data[i..] == EncodeAll(fs) && AllOk(fs) && HoldBytes(1, fs)
    ensures ReadBatch(parse, es, data, i) == Collect(parse, es, fs)
    decreases fs
  {
    match fs
    case Nil =>
    case Cons(f, rest) =>
      SplitBatch(data, i, f, rest);
      var r := Heeded(parse, es, f);
      if r.Got? { BatchMeansFields(parse, r.value, data, i + |Encode(f)|, rest); }
      FieldMeans(parse, es, data, i, f, rest);
  }

  lemma SplitBatch(data: seq<Byte>, i: nat, f: Field, rest: Fields)
    requires i <= |data| && data[i..] == EncodeAll(Cons(f, rest)) && AllOk(Cons(f, rest)) && HoldBytes(1, Cons(f, rest))
    ensures i < i + |Encode(f)| <= |data| && At(data, i, Encode(f)) && data[i + |Encode(f)|..] == EncodeAll(rest)
    ensures WellFormed(f) && AllOk(rest) && HoldBytes(1, rest) && (f.number == 1 ==> f.value.Bytes?)
  {
    SplitHead(data, i, f, rest);
  }

  lemma FieldMeans(parse: Parser, es: seq<Entry>, data: seq<Byte>, i: nat, f: Field, rest: Fields)
    requires |data| < TWO63 && WellFormed(f) && At(data, i, Encode(f)) && (f.number == 1 ==> f.value.Bytes?)
    requires var r := Heeded(parse, es, f);
             r.Got? ==> ReadBatch(parse, r.value, data, i + |Encode(f)|) == Collect(parse, r.value, rest)
    ensures i < |data| && ReadBatch(parse, es, data, i) == Collect(parse, es, Cons(f, rest))
  {
    FieldStep(parse, es, data, i, f);
  }

  // ------------------------------------------------- length-delimited parts

  function Delimited(number: nat, parts: seq<seq<Byte>>, tail: seq<Byte>): seq<Byte>
    requires 0 < number < 16
  {
    if parts == [] then tail else [8 * number + 2] + (Varint(|parts[0]|) + (parts[0] + Delimited(number, parts[1..], tail)))
  }

  function DelimitedFields(number: nat, parts: seq<seq<Byte>>, tail: Fields): Fields {
    if parts == [] then tail else Cons(Field(number, Bytes(parts[0])), DelimitedFields(number, parts[1..], tail))
  }

  lemma BytesField(n: nat, s: seq<Byte>, rest: Fields)
    requires 0 < n < 16
    ensures EncodeAll(Cons(Field(n, Bytes(s)), rest)) == [8 * n + 2] + (Varint(|s|) + (s + EncodeAll(rest)))
  {
    assert Encode(Field(n, Bytes(s))) == Varint(8 * n + 2) + (Varint(|s|) + s);
    Regroup([8 * n + 2], Varint(|s|) + s, EncodeAll(rest));
    Regroup(Varint(|s|), s, EncodeAll(rest));
  }

  lemma {:induction false} DelimitedIsFields(number: nat, parts: seq<seq<Byte>>, tail: Fields)
    requires 0 < number < 16 && AllOk(tail) && HoldBytes(number, tail)
    requires forall i :: 0 <= i < |parts| ==> |parts[i]| < TWO63
    ensures var fs := DelimitedFields(number, parts, tail);
            Delimited(number, parts, EncodeAll(tail)) == EncodeAll(fs) && AllOk(fs) && HoldBytes(number, fs)
  {
    if parts != [] {
      BytesField(number, parts[0], DelimitedFields(number, parts[1..], tail));
      DelimitedIsFields(number, parts[1..], tail);
    }
  }

  /** Do all the parts parse? */
  ghost predicate AllParse(parse: Parser, parts: seq<seq<Byte>>) {
    forall i :: 0 <= i < |parts| ==> parse(parts[i]).Ok?
  }

  function Values(parse: Parser, parts: seq<seq<Byte>>): seq<Entry>
    requires AllParse(parse, parts)
  {
    seq(|parts|, i requires 0 <= i < |parts| => parse(parts[i]).value)
  }

  lemma {:induction false} CollectParts(parse: Parser, done: seq<Entry>, parts: seq<seq<Byte>>)
    ensures var r := Collect(parse, done, DelimitedFields(1, parts, Nil));
            if AllParse(parse, parts) then r == Got(done + Values(parse, parts)) else r == Failed(BadEntry)
    decreases |parts|
  {
    if parts == [] {
      assert done + Values(parse, parts) == done;
    } else {
      var first := parse(parts[0]);
      if first.Ok? {
        CollectParts(parse, done + [first.value], parts[1..]);
        if AllParse(parse, parts[1..]) {
          forall i | 0 <= i < |parts| ensures parse(parts[i]).Ok? { if i > 0 { assert parts[i] == parts[1..][i - 1]; } }
          assert done + [first.value] + Values(parse, parts[1..]) == done + Values(parse, parts);
        } else {
          var i :| 0 <= i < |parts[1..]| && !parse(parts[1..][i]).Ok?;
          assert !parse(parts[i + 1]).Ok?;
        }
      }
    }
  }

  /** Length-delimited parts are read back one by one, if they all parse. */
  lemma ReadsParts(parse: Parser, parts: seq<seq<Byte>>, data: seq<Byte>)
    requires data == Delimited(1, parts, []) && |data| < TWO63
    requires forall i :: 0 <= i < |parts| ==> |parts[i]| < TWO63
    ensures var r := ReadBatch(parse, [], data, 0);
            if AllParse(parse, parts) then r == Got(Values(parse, parts)) else r == Failed(BadEntry)
  {
    DelimitedIsFields(1, parts, Nil);
    ReadsAll(parse, data, DelimitedFields(1, parts, Nil));
    CollectParts(parse, [], parts);
    if AllParse(parse, parts) { assert [] + Values(parse, parts) == Values(parse, parts); }
  }

  lemma ReadsAll(parse: Parser, data: seq<Byte>, fs: Fields)
    requires |data| < TWO63 && data == EncodeAll(fs) && AllOk(fs) && HoldBytes(1, fs)
    ensures ReadBatch(parse, [], data, 0) == Collect(parse, [], fs)
  {
    assert data[0..] == data;
    BatchMeansFields(parse, [], data, 0, fs);
  }

  // ----------------------------------------------------------------- batches

  function Decode(s: seq<Byte>): Parsed<Entry> {
    Unmarshal(ZERO, s)
  }

  function MarshalBatch(es: seq<Entry>): seq<Byte> {
    if es == [] then [] else [0xa] + (Varint(Size(es[0])) + (Marshal(es[0]) + MarshalBatch(es[1..])))
  }

  function BatchSize(es: seq<Entry>): nat {
    if es == [] then 0 else 1 + Size(es[0]) + Sov(Size(es[0])) + BatchSize(es[1..])
  }

  function Encoded(es: seq<Entry>): seq<seq<Byte>> {
    if es == [] then [] else [Marshal(es[0])] + Encoded(es[1..])
  }

  lemma {:induction false} EncodedAt(es: seq<Entry>, i: nat)
    requires i < |es|
    ensures |Encoded(es)| == |es| && Encoded(es)[i] == Marshal(es[i])
  {
    if |es| > 1 { EncodedAt(es[1..], if i > 0 then i - 1 else 0); }
  }

  /** Entries that can be written at all: `Size` panics beyond the limit. */
  ghost predicate Writable(es: seq<Entry>) {
    forall i :: 0 <= i < |es| ==> |es[i].cmd| <= SIZE_MAX && Size(es[i]) <= SIZE_MAX
  }

  lemma {:induction false} BatchSizeIsExact(es: seq<Entry>)
    ensures |MarshalBatch(es)| == BatchSize(es)
  {
    if es != [] {
      SizeIsExact(es[0]);
      SovIsLength(Size(es[0]));
      BatchSizeIsExact(es[1..]);
    }
  }

  lemma {:induction false} BatchIsDelimited(es: seq<Entry>)
    ensures MarshalBatch(es) == Delimited(1, Encoded(es), [])
  {
    if es != [] {
      SizeIsExact(es[0]);
      BatchIsDelimited(es[1..]);
      assert Encoded(es)[1..] == Encoded(es[1..]);
    }
  }

  ghost predicate BelowLimit(es: seq<Entry>) {
    forall i :: 0 <= i < |es| ==> Size(es[i]) < SIZE_MAX
  }

  lemma EntryDecodes(e: Entry)
    requires |e.cmd| <= SIZE_MAX && Size(e) <= SIZE_MAX
    ensures Decode(Marshal(e)) == if Size(e) < SIZE_MAX then Ok(e, Size(e)) else Err(StructTooBig)
  {
    RoundTrip(e, []);
    assert Marshal(e) + [] == Marshal(e);
  }

  /** A part of a batch decodes to its entry, if that is below the limit. */
  lemma PartDecodes(es: seq<Entry>, parts: seq<seq<Byte>>, i: nat)
    requires Writable(es) && parts == Encoded(es) && i < |es|
    ensures |parts| == |es| && |parts[i]| < TWO63
    ensures Size(es[i]) < SIZE_MAX ==> Decode(parts[i]).Ok? && Decode(parts[i]).value == es[i]
    ensures Size(es[i]) == SIZE_MAX ==> Decode(parts[i]).Err?
  {
    EncodedAt(es, i);
    EntryDecodes(es[i]);
    SizeIsExact(es[i]);
  }

  lemma PartsParse(es: seq<Entry>, parts: seq<seq<Byte>>)
    requires Writable(es) && parts == Encoded(es)
    ensures AllParse(Decode, parts) <==> BelowLimit(es)
    ensures BelowLimit(es) ==> Values(Decode, parts) == es
    ensures forall i :: 0 <= i < |parts| ==> |parts[i]| < TWO63
  {
    if es == [] { assert parts == []; } else { EncodedAt(es, 0); }
    forall i | 0 <= i < |es|
      ensures |parts[i]| < TWO63 && (Decode(parts[i]).Ok? <==> Size(es[i]) < SIZE_MAX)
      ensures Decode(parts[i]).Ok? ==> Decode(parts[i]).value == es[i]
    {
      PartDecodes(es, parts, i);
    }
  }

  /** A batch is read back from its encoding if and only if every entry is below the
      entry codec's limit; if one is at the limit, reading it fails. */
  lemma BatchRoundTrip(es: seq<Entry>)
    requires Writable(es) && BatchSize(es) < TWO63
    ensures ReadBatch(Decode, [], MarshalBatch(es), 0) == if BelowLimit(es) then Got(es) else Failed(BadEntry)
  {
    BatchSizeIsExact(es);
    BatchIsDelimited(es);
    PartsParse(es, Encoded(es));
    ReadsParts(Decode, Encoded(es), MarshalBatch(es));
  }
}
