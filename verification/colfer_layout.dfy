/** The Colfer encoding of an entry, byte for byte: what the bytes on the disk and on the
    wire are, whoever reads them. */
module ColferLayout {
  import opened Basics
  import opened Colfer

  /** Where each field stands: under its own number, in this order, and then the end. */
  lemma Layout(e: Entry)
    ensures Marshal(e) ==
            U64Bytes(0, e.term) + (U64Bytes(1, e.index) + (KindBytes(e.kind) + (U64Bytes(3, e.key) + (U64Bytes(4, e.client) +
            (U64Bytes(5, e.series) + (U64Bytes(6, e.responded) + (CmdBytes(e.cmd) + [END])))))))
  {
    assert From(e, 6) == U64Bytes(6, e.responded) + (CmdBytes(e.cmd) + [END]);
    assert From(e, 4) == U64Bytes(4, e.client) + (U64Bytes(5, e.series) + From(e, 6));
    assert From(e, 2) == KindBytes(e.kind) + (U64Bytes(3, e.key) + From(e, 4));
    assert From(e, 0) == U64Bytes(0, e.term) + (U64Bytes(1, e.index) + From(e, 2));
  }

  /** Small numbers, byte for byte. */
  lemma SmallSample()
    ensures Marshal(Entry(1, 2, 3, 4, 5, 6, 7, [8, 9])) == [0, 1, 1, 2, 2, 3, 3, 4, 4, 5, 5, 6, 6, 7, 7, 2, 8, 9, 0x7f]
  {
    Layout(Entry(1, 2, 3, 4, 5, 6, 7, [8, 9]));
    SmallEnd();
    SmallStart([4, 5, 5, 6, 6, 7, 7, 2, 8, 9, 0x7f]);
  }

  lemma SmallEnd()
    ensures U64Bytes(4, 5) + (U64Bytes(5, 6) + (U64Bytes(6, 7) + (CmdBytes([8, 9]) + [END]))) == [4, 5, 5, 6, 6, 7, 7, 2, 8, 9, 0x7f]
  {
    assert CmdBytes([8, 9]) == [7, 2, 8, 9];
  }

  lemma SmallStart(rest: seq<Byte>)
    ensures U64Bytes(0, 1) + (U64Bytes(1, 2) + (KindBytes(3) + (U64Bytes(3, 4) + rest))) == [0, 1, 1, 2, 2, 3, 3, 4] + rest
  {}

  /** A number written whole, one of two digits, a negative one, and fields left out. */
  lemma WideSample()
    ensures Marshal(Entry(TWO49, 300, -5, 0, 0, 0, 0, [])) == [0x80, 0, 2, 0, 0, 0, 0, 0, 0, 1, 0xac, 2, 0x82, 5, 0x7f]
  {
    Layout(Entry(TWO49, 300, -5, 0, 0, 0, 0, []));
    WholeSample();
    assert KindBytes(-5) + ([] + ([] + ([] + ([] + ([] + [END]))))) == [0x82, 5, 0x7f];
    assert Varint(300) == [128 + 300 % 128] + Varint(2);
  }

  lemma WholeSample()
    ensures BigEndian(TWO49, 8) == [0, 2, 0, 0, 0, 0, 0, 0]
  {
    assert BigEndian(0, 1) == [0];
    assert BigEndian(2, 2) == [0, 2];
    assert BigEndian(2 * 256, 3) == [0, 2, 0];
    assert BigEndian(2 * 0x1_0000, 4) == [0, 2, 0, 0];
    assert BigEndian(2 * 0x100_0000, 5) == [0, 2, 0, 0, 0];
    assert BigEndian(2 * 0x1_0000_0000, 6) == [0, 2, 0, 0, 0, 0];
    assert BigEndian(2 * 0x100_0000_0000, 7) == [0, 2, 0, 0, 0, 0, 0];
    assert TWO49 == 2 * 0x1_0000_0000_0000;
  }
}
