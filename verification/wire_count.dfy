/** The shortcut a raft message takes to size its entry list before reading it: a loop
    over the entry fields that checks nothing. */
module WireCount {
  import opened Basics
  import opened Colfer
  import opened Wire
  import opened WireMessages
  import opened WireEntries

  /** Counting returns a number, reads outside the data, or never returns. */
  datatype Counted = Count(n: nat) | OutOfRange | Forever

  /** Where one turn of the counting loop leads: to a position inside the data or past
      it, to a field that is no entry, or to an index outside the data. */
  datatype Hop = Inside(at: nat) | Past | Other | Off

  /** A varint read without any check; running off the data is a panic. */
  function RawVarint(data: seq<Byte>, i: nat, k: nat, x: nat): Read<nat>
    decreases |data| - i
  {
    if i >= |data| then Bad(UnexpectedEof)
    else
      var y := x + Placed(data[i] % 128, k, TWO64);
      if data[i] < 128 then Done(y, i + 1) else RawVarint(data, i + 1, k + 1, y)
  }

  lemma {:induction false} RawVarintMoves(data: seq<Byte>, i: nat, k: nat, x: nat)
    ensures var r := RawVarint(data, i, k, x); r.Done? ==> i < r.next <= |data|
    decreases |data| - i
  {
    if i < |data| && data[i] >= 128 { RawVarintMoves(data, i + 1, k + 1, x + Placed(data[i] % 128, k, TWO64)); }
  }

  lemma {:induction false} RawAgrees(data: seq<Byte>, i: nat, k: nat, x: nat)
    requires GetVarint(data, i, k, x).Done?
    ensures RawVarint(data, i, k, x) == GetVarint(data, i, k, x)
    decreases |data| - i
  {
    if data[i] >= 128 { RawAgrees(data, i + 1, k + 1, x + Placed(data[i] % 128, k, TWO64)); }
  }

  /** A loop over positions below `n`, given by where each turn leads. */
  datatype Loop = Loop(n: nat, hop: nat -> Hop)

  function Landing(n: nat, i: int): Hop {
    if i < 0 then Off else if i < n then Inside(i) else Past
  }

  ghost predicate Bounded(l: Loop) {
    forall p: nat :: p < l.n && l.hop(p).Inside? ==> l.hop(p).at < l.n
  }

  function Unseen(n: nat, seen: set<nat>): set<nat> {
    set x: nat | x < n && x !in seen
  }

  lemma FewerUnseen(n: nat, seen: set<nat>, i: nat)
    requires i < n && i !in seen
    ensures Unseen(n, seen + {i}) < Unseen(n, seen)
  {
    assert i in Unseen(n, seen) && i !in Unseen(n, seen + {i});
  }

  /** How many turns the loop counts from `i` on; a position seen before means that it
      goes round for ever. */
  function Tally(l: Loop, i: nat, seen: set<nat>): Counted
    decreases Unseen(l.n, seen)
  {
    if i >= l.n then Count(0)
    else if i in seen then Forever
    else
      match l.hop(i)
      case Other => Count(0)
      case Off => OutOfRange
      case Past => Count(1)
      case Inside(next) =>
        FewerUnseen(l.n, seen, i);
        match Tally(l, next, seen + {i})
        case Count(c) => Count(c + 1)
        case OutOfRange => OutOfRange
        case Forever => Forever
  }

  // The loop itself, turn by turn.

  function Walk(l: Loop, i: nat, k: nat): Hop
    decreases k
  {
    if k == 0 then Landing(l.n, i)
    else match Walk(l, i, k - 1) case Inside(p) => l.hop(p) case h => h
  }

  lemma {:induction false} WalkBounded(l: Loop, i: nat, k: nat)
    requires Bounded(l)
    ensures Walk(l, i, k).Inside? ==> Walk(l, i, k).at < l.n
  {
    if k > 0 { WalkBounded(l, i, k - 1); }
  }

  lemma {:induction false} WalkOn(l: Loop, i: nat, k: nat)
    requires Bounded(l)
    requires i < l.n && k > 0
    ensures Walk(l, i, k) == match l.hop(i) case Inside(p) => Walk(l, p, k - 1) case h => h
  {
    if k > 1 { WalkOn(l, i, k - 1); }
  }

  lemma {:induction false} WalkSplits(l: Loop, i: nat, k: nat, m: nat, p: nat)
    requires Bounded(l)
    requires Walk(l, i, k) == Inside(p)
    ensures Walk(l, i, k + m) == Walk(l, p, m)
    decreases m
  {
    if m > 0 { WalkSplits(l, i, k, m - 1, p); } else { WalkBounded(l, i, k); }
  }

  lemma {:induction false} WalkStaysInside(l: Loop, i: nat, k: nat, m: nat)
    requires Walk(l, i, m).Inside? && k <= m
    ensures Walk(l, i, k).Inside?
    decreases m - k
  {
    if k < m { WalkStaysInside(l, i, k + 1, m); }
  }

  /** A loop that returns to a position never ends. */
  lemma {:induction false} CircleStays(l: Loop, i: nat, m: nat, k: nat)
    requires Bounded(l)
    requires m > 0 && Walk(l, i, m) == Inside(i)
    ensures Walk(l, i, k).Inside?
    decreases k
  {
    if k <= m {
      WalkStaysInside(l, i, k, m);
    } else {
      CircleStays(l, i, m, k - m);
      WalkSplits(l, i, m, k - m, i);
    }
  }

  /** The loop returns `c`: after `c` turns it is past the data or at another field. */
  ghost predicate CountsTo(l: Loop, i: nat, c: nat) {
    || (Walk(l, i, c) == Past && (c > 0 ==> Walk(l, i, c - 1).Inside?))
    || (Walk(l, i, c).Inside? && Walk(l, i, c + 1) == Other)
  }

  ghost predicate Leads(l: Loop, from: nat, to: nat) {
    exists m: nat :: m > 0 && Walk(l, from, m) == Inside(to)
  }

  ghost predicate AllLead(l: Loop, seen: set<nat>, i: nat) {
    forall x :: x in seen ==> Leads(l, x, i)
  }

  lemma LeadsOn(l: Loop, seen: set<nat>, i: nat, next: nat)
    requires Bounded(l)
    requires AllLead(l, seen, i) && i < l.n && l.hop(i) == Inside(next)
    ensures AllLead(l, seen + {i}, next)
  {
    assert Walk(l, i, 1) == Inside(next) by { assert Walk(l, i, 0) == Inside(i); }
    forall x | x in seen ensures Leads(l, x, next) {
      assert Leads(l, x, i);
      var m :| m > 0 && Walk(l, x, m) == Inside(i);
      assert Walk(l, x, m + 1) == Inside(next);
    }
  }

  ghost predicate Meant(l: Loop, i: nat, r: Counted) {
    match r
    case Count(c) => CountsTo(l, i, c)
    case OutOfRange => exists k: nat :: Walk(l, i, k) == Off
    case Forever => forall k: nat :: Walk(l, i, k).Inside?
  }

  lemma {:induction false} CountMeans(l: Loop, i: nat, seen: set<nat>)
    requires Bounded(l)
    requires AllLead(l, seen, i)
    ensures Meant(l, i, Tally(l, i, seen))
    decreases Unseen(l.n, seen)
  {
    if i < l.n {
      if i in seen {
        assert Leads(l, i, i);
        var m :| m > 0 && Walk(l, i, m) == Inside(i);
        forall k: nat ensures Walk(l, i, k).Inside? { CircleStays(l, i, m, k); }
      } else {
        WalkOn(l, i, 1);
        assert Walk(l, i, 0) == Inside(i);
        if l.hop(i).Inside? {
          var next := l.hop(i).at;
          FewerUnseen(l.n, seen, i);
          LeadsOn(l, seen, i, next);
          CountMeans(l, next, seen + {i});
          MeantBefore(l, i, next, Tally(l, next, seen + {i}));
        }
      }
    } else {
      assert Walk(l, i, 0) == Past;
    }
  }

  lemma MeantBefore(l: Loop, i: nat, next: nat, r: Counted)
    requires Bounded(l)
    requires i < l.n && l.hop(i) == Inside(next) && Meant(l, next, r)
    ensures Meant(l, i, if r.Count? then Count(r.n + 1) else r)
  {
    match r
    case Count(c) =>
      if c > 0 { WalkOn(l, i, c); }
      WalkOn(l, i, c + 1);
      WalkOn(l, i, c + 2);
      assert Walk(l, i, 0) == Inside(i);
    case OutOfRange =>
      var k: nat :| Walk(l, next, k) == Off;
      WalkOn(l, i, k + 1);
      assert Walk(l, i, k + 1) == Off;
    case Forever =>
      forall k: nat ensures Walk(l, i, k).Inside? {
        if k > 0 {
          WalkOn(l, i, k);
          assert Walk(l, next, k - 1).Inside?;
        }
      }
  }

  lemma {:induction false} Absorbed(l: Loop, i: nat, k: nat, m: nat)
    requires !Walk(l, i, k).Inside? && k <= m
    ensures Walk(l, i, m) == Walk(l, i, k)
    decreases m
  {
    if k < m { Absorbed(l, i, k, m - 1); }
  }

  /** A turn after which the loop has left the data. */
  ghost function LastTurn(l: Loop, i: nat, r: Counted): (k: nat)
    requires Meant(l, i, r)
    ensures r.Count? ==> Walk(l, i, k) == Past || Walk(l, i, k) == Other
    ensures r == OutOfRange ==> Walk(l, i, k) == Off
  {
    match r
    case Count(c) => if Walk(l, i, c) == Past then c else c + 1
    case OutOfRange => var k: nat :| Walk(l, i, k) == Off; k
    case Forever => 0
  }

  lemma CountsFirst(l: Loop, i: nat, a: nat, b: nat)
    requires CountsTo(l, i, a) && a < b
    ensures !CountsTo(l, i, b)
  {
    if Walk(l, i, a) == Past {
      Absorbed(l, i, a, b);
      Absorbed(l, i, a, b - 1);
    } else {
      Absorbed(l, i, a + 1, b);
    }
  }

  /** What the loop does has one meaning. */
  lemma MeantOnce(l: Loop, i: nat, a: Counted, b: Counted)
    requires Meant(l, i, a) && Meant(l, i, b)
    ensures a == b
  {
    var k, m := LastTurn(l, i, a), LastTurn(l, i, b);
    if a != Forever && b != Forever {
      if k <= m { Absorbed(l, i, k, m); } else { Absorbed(l, i, m, k); }
      if a.Count? && b.Count? {
        if a.n < b.n { CountsFirst(l, i, a.n, b.n); } else if b.n < a.n { CountsFirst(l, i, b.n, a.n); }
      }
    }
  }

  /** The count is `c` if and only if the loop leaves after `c` entries, it
      is out of range if and only if the loop reads outside the data, and there is none
      if and only if the loop never leaves. */
  lemma TallyIsLoop(l: Loop, r: Counted)
    requires Bounded(l)
    ensures Tally(l, 0, {}) == r <==> Meant(l, 0, r)
  {
    CountMeans(l, 0, {});
    if Meant(l, 0, r) { MeantOnce(l, 0, Tally(l, 0, {}), r); }
  }

  ghost predicate Circle(l: Loop, k: nat, m: nat) {
    k < m && Walk(l, 0, k).Inside? && Walk(l, 0, m) == Walk(l, 0, k)
  }

  /** The loop never leaves if and only if it comes back to a position. */
  lemma RoundIffReturns(l: Loop)
    requires Bounded(l)
    ensures Tally(l, 0, {}) == Forever <==> exists k, m :: Circle(l, k, m)
  {
    TallyIsLoop(l, Forever);
    if Tally(l, 0, {}) == Forever { Comes(l, 0, 0, {}); }
    if k, m :| Circle(l, k, m) {
      forall n: nat ensures Walk(l, 0, n).Inside? { CircleFromStart(l, k, m, n); }
    }
  }

  lemma CircleFromStart(l: Loop, k: nat, m: nat, n: nat)
    requires Bounded(l)
    requires Circle(l, k, m)
    ensures Walk(l, 0, n).Inside?
  {
    var p := Walk(l, 0, k).at;
    if n <= k {
      WalkStaysInside(l, 0, n, k);
    } else {
      assert Walk(l, p, m - k) == Inside(p) by { WalkSplits(l, 0, k, m - k, p); }
      assert Walk(l, p, n - k).Inside? by { CircleStays(l, p, m - k, n - k); }
      WalkSplits(l, 0, k, n - k, p);
    }
  }

  /** From the start, `k` turns lead to `i`, and the positions seen came before. */
  lemma {:induction false} Comes(l: Loop, k: nat, i: nat, seen: set<nat>)
    requires Bounded(l)
    requires Walk(l, 0, k) == Landing(l.n, i) && Tally(l, i, seen) == Forever
    requires AllSeen(l, seen, k)
    ensures exists k, m :: Circle(l, k, m)
    decreases Unseen(l.n, seen)
  {
    if i in seen {
      assert SeenBefore(l, i, k);
      var j: nat :| j < k && Walk(l, 0, j) == Inside(i);
      assert Circle(l, j, k);
    } else {
      var next := l.hop(i).at;
      FewerUnseen(l.n, seen, i);
      SeeMore(l, seen, i, k);
      Comes(l, k + 1, next, seen + {i});
    }
  }

  lemma SeeMore(l: Loop, seen: set<nat>, i: nat, k: nat)
    requires AllSeen(l, seen, k) && Walk(l, 0, k) == Inside(i)
    ensures AllSeen(l, seen + {i}, k + 1)
  {
    forall x | x in seen + {i} ensures SeenBefore(l, x, k + 1) {
      if x in seen {
        assert SeenBefore(l, x, k);
        var j: nat :| j < k && Walk(l, 0, j) == Inside(x);
      }
    }
  }

  ghost predicate AllSeen(l: Loop, seen: set<nat>, k: nat) {
    forall x :: x in seen ==> SeenBefore(l, x, k)
  }

  ghost predicate SeenBefore(l: Loop, x: nat, k: nat) {
    exists j: nat :: j < k && Walk(l, 0, j) == Inside(x)
  }

  // ------------------------------------------------------------- counting

  /** One turn: the length is taken as a signed number, so the position may move back. */
  function HopFrom(data: seq<Byte>, i: nat): (h: Hop)
    ensures h.Inside? ==> h.at < |data|
  {
    match RawVarint(data, i, 0, 0)
    case Bad(_) => Off
    case Done(wire, j) =>
      if Signed(wire / 8) != 11 then Other
      else
        match RawVarint(data, j, 0, 0)
        case Bad(_) => Off
        case Done(n, next) => Landing(|data|, SignedWrap64(next + SignedWrap64(n)))
  }

  function CountLoop(data: seq<Byte>): (l: Loop)
    ensures Bounded(l)
  {
    Loop(|data|, (i: nat) => HopFrom(data, i))
  }

  function EntryCount(data: seq<Byte>, i: nat, seen: set<nat>): Counted {
    Tally(CountLoop(data), i, seen)
  }

  /** On any data: the count is `c` if and only if the unchecked loop leaves after `c`
      entries, out of range if and only if it reads outside the data, and there is none
      if and only if it never leaves. */
  lemma CountIsLoop(data: seq<Byte>, r: Counted)
    ensures EntryCount(data, 0, {}) == r <==> Meant(CountLoop(data), 0, r)
  {
    TallyIsLoop(CountLoop(data), r);
  }

  /** It never leaves if and only if it comes back to a position. */
  lemma ForeverIffReturns(data: seq<Byte>)
    ensures EntryCount(data, 0, {}) == Forever <==> exists k, m :: Circle(CountLoop(data), k, m)
  {
    RoundIffReturns(CountLoop(data));
  }

  /** The entry fields a list of fields starts with. */
  function Leading(fs: Fields): nat {
    match fs case Nil => 0 case Cons(f, rest) => if f.number == 11 then 1 + Leading(rest) else 0
  }

  lemma CountStops(data: seq<Byte>, i: nat, f: Field)
    requires WellFormed(f) && At(data, i, Encode(f)) && f.number != 11
    ensures i < |data| && HopFrom(data, i) == Other
  {
    TagReads(data, i, f);
    RawAgrees(data, i, 0, 0);
  }

  lemma CountGoesOn(data: seq<Byte>, i: nat, f: Field)
    requires |data| < TWO63 && WellFormed(f) && At(data, i, Encode(f)) && f.number == 11 && f.value.Bytes?
    ensures i < |data| && HopFrom(data, i) == Landing(|data|, i + |Encode(f)|)
  {
    TagReads(data, i, f);
    RawAgrees(data, i, 0, 0);
    var j := i + |Varint(Tag(11, 2))|;
    AtTail(data, j, Varint(|f.value.bytes|), f.value.bytes);
    VarintRoundTrip(data, j, |f.value.bytes|);
    RawAgrees(data, j, 0, 0);
    HopRead(data, i, Tag(11, 2), j, |f.value.bytes|, j + |Varint(|f.value.bytes|)|);
    EncodedLength(f);
  }

  /** On well-formed data the unchecked count does not run off it, and counts the
      leading entries. */
  lemma {:induction false} CountIsLeading(data: seq<Byte>, i: nat, seen: set<nat>, fs: Fields)
    requires |data| < TWO63 && i <= |data| && data[i..] == EncodeAll(fs) && AllOk(fs) && HoldBytes(11, fs)
    requires forall x :: x in seen ==> x < i
    ensures EntryCount(data, i, seen) == Count(Leading(fs))
    decreases fs
  {
    match fs
    case Nil =>
    case Cons(f, rest) =>
      SplitHead(data, i, f, rest);
      if f.number == 11 {
        CountIsLeading(data, i + |Encode(f)|, seen + {i}, rest);
        CountGoesOn(data, i, f);
      } else {
        CountStops(data, i, f);
      }
  }

  // ------------------------------------------------------- lengths below zero

  /** The entry field at `i` states a length that is negative as a signed number. */
  predicate Backward(data: seq<Byte>, i: nat) {
    match RawVarint(data, i, 0, 0)
    case Bad(_) => false
    case Done(_, j) => match RawVarint(data, j, 0, 0) case Bad(_) => false case Done(n, _) => SignedWrap64(n) < 0
  }

  lemma ForwardHop(data: seq<Byte>, i: nat)
    requires i < |data| < TWO63 && !Backward(data, i) && HopFrom(data, i).Inside?
    ensures HopFrom(data, i).at > i
  {
    RawVarintMoves(data, i, 0, 0);
    RawVarintMoves(data, RawVarint(data, i, 0, 0).next, 0, 0);
  }

  lemma {:induction false} WalkForward(data: seq<Byte>, k: nat, m: nat)
    requires |data| < TWO63 && (forall i :: 0 <= i < |data| ==> !Backward(data, i)) && k <= m
    requires Walk(CountLoop(data), 0, m).Inside?
    ensures Walk(CountLoop(data), 0, k).Inside? && Walk(CountLoop(data), 0, k).at + m - k <= Walk(CountLoop(data), 0, m).at
    decreases m
  {
    var l := CountLoop(data);
    if k < m {
      WalkStaysInside(l, 0, m - 1, m);
      WalkBounded(l, 0, m - 1);
      ForwardHop(data, Walk(l, 0, m - 1).at);
      WalkForward(data, k, m - 1);
    }
  }

  /** Without a negative length counting always returns, or reads outside the data. */
  lemma ForwardReturns(data: seq<Byte>)
    requires |data| < TWO63 && forall i :: 0 <= i < |data| ==> !Backward(data, i)
    ensures EntryCount(data, 0, {}) != Forever
  {
    ForeverIffReturns(data);
    if k, m :| Circle(CountLoop(data), k, m) { WalkForward(data, k, m); }
  }

  /** The loop hops over the fields from `i` on, one by one. */
  ghost predicate HopsOver(l: Loop, i: nat, fs: Fields)
    decreases fs
  {
    i < l.n && match fs case Nil => true case Cons(f, rest) => l.hop(i) == Inside(i + |Encode(f)|) && HopsOver(l, i + |Encode(f)|, rest)
  }

  lemma {:induction false} WalkFields(l: Loop, i: nat, fs: Fields)
    requires Bounded(l) && HopsOver(l, i, fs) && AllEntries(fs)
    ensures Walk(l, i, Leading(fs)) == Inside(i + |EncodeAll(fs)|)
    decreases fs
  {
    match fs
    case Nil =>
    case Cons(f, rest) =>
      WalkFields(l, i + |Encode(f)|, rest);
      WalkOn(l, i, Leading(rest) + 1);
  }

  /** Only entries stand at `i`, and something behind them. */
  ghost predicate EntriesAt(data: seq<Byte>, i: nat, fs: Fields) {
    AllEntries(fs) && At(data, i, EncodeAll(fs)) && i + |EncodeAll(fs)| < |data|
  }

  lemma {:induction false} HopsOverEntries(data: seq<Byte>, i: nat, fs: Fields)
    requires |data| < TWO63 && EntriesAt(data, i, fs)
    ensures HopsOver(CountLoop(data), i, fs)
    decreases fs
  {
    match fs
    case Nil =>
    case Cons(f, rest) =>
      EntryHead(data, i, f, rest);
      HeadHop(data, i, f);
      HopsOverEntries(data, i + |Encode(f)|, rest);
      assert HopsOver(CountLoop(data), i, Cons(f, rest));
  }

  lemma HeadHop(data: seq<Byte>, i: nat, f: Field)
    requires |data| < TWO63 && IsEntry(f) && At(data, i, Encode(f)) && i + |Encode(f)| < |data|
    ensures i < CountLoop(data).n && CountLoop(data).hop(i) == Inside(i + |Encode(f)|)
  {
    CountGoesOn(data, i, f);
  }

  predicate IsEntry(f: Field) {
    WellFormed(f) && f.number == 11 && f.value.Bytes?
  }

  lemma EntryHead(data: seq<Byte>, i: nat, f: Field, rest: Fields)
    requires EntriesAt(data, i, Cons(f, rest))
    ensures IsEntry(f) && At(data, i, Encode(f)) && i + |Encode(f)| < |data| && EntriesAt(data, i + |Encode(f)|, rest)
    ensures |EncodeAll(Cons(f, rest))| == |Encode(f)| + |EncodeAll(rest)| && Leading(Cons(f, rest)) == Leading(rest) + 1
  {
    AtTail(data, i, Encode(f), EncodeAll(rest));
  }

  predicate AllEntries(fs: Fields) {
    match fs case Nil => true case Cons(f, rest) => IsEntry(f) && AllEntries(rest)
  }

  lemma BackHop(data: seq<Byte>, i: nat, n: U64)
    requires At(data, i, [0x5a] + Varint(n)) && n >= TWO63 && i + 1 + |Varint(n)| == TWO64 - n
    ensures i < |data| && HopFrom(data, i) == Inside(0)
  {
    AtTail(data, i, [0x5a], Varint(n));
    assert data[i] == data[i..i + 1][0];
    VarintRoundTrip(data, i + 1, n);
    RawAgrees(data, i + 1, 0, 0);
    EntryTag(data, i);
    HopRead(data, i, 0x5a, i + 1, n, i + 1 + |Varint(n)|);
    BackLanding(n, i + 1 + |Varint(n)|);
  }

  lemma HopRead(data: seq<Byte>, i: nat, wire: nat, j: nat, n: nat, next: nat)
    requires RawVarint(data, i, 0, 0) == Done(wire, j) && Signed(wire / 8) == 11 && RawVarint(data, j, 0, 0) == Done(n, next)
    ensures HopFrom(data, i) == Landing(|data|, SignedWrap64(next + SignedWrap64(n)))
  {}

  lemma BackLanding(n: U64, next: nat)
    requires n >= TWO63 && next == TWO64 - n
    ensures SignedWrap64(next + SignedWrap64(n)) == 0
  {
    assert SignedWrap64(n) == n - TWO64;
  }

  lemma EntryTag(data: seq<Byte>, i: nat)
    requires i < |data| && data[i] == 0x5a
    ensures RawVarint(data, i, 0, 0) == Done(0x5a, i + 1)
  {
    assert Placed(0x5a, 0, TWO64) == 0x5a;
  }

  /** Behind any entries, one whose length leads back to the first makes counting go
      round for ever, whatever follows. */
  lemma BackwardGoesRound(data: seq<Byte>, fs: Fields, n: U64)
    requires |data| < TWO63 && AllEntries(fs)
    requires At(data, 0, EncodeAll(fs)) && At(data, |EncodeAll(fs)|, [0x5a] + Varint(n))
    requires n >= TWO63 && |EncodeAll(fs)| + 1 + |Varint(n)| == TWO64 - n
    ensures EntryCount(data, 0, {}) == Forever
  {
    var l, k := CountLoop(data), Leading(fs);
    HopsOverEntries(data, 0, fs);
    WalkFields(l, 0, fs);
    BackHop(data, |EncodeAll(fs)|, n);
    assert Walk(l, 0, k + 1) == Inside(0);
    assert Circle(l, 0, k + 1);
    ForeverIffReturns(data);
  }

  const BACK: seq<Byte> := [0xf5, 0xff, 0xff, 0xff, 0xff, 0xff, 0xff, 0xff, 0xff, 0x01]
  const ROUND: seq<Byte> := [0x5a] + BACK

  /** Eleven bytes on which it does: an entry of length -11. */
  lemma RoundForever()
    ensures EntryCount(ROUND, 0, {}) == Forever
  {
    BackVarint();
    assert EncodeAll(Nil) == [];
    assert |BACK| == 10 && ROUND[0..11] == [0x5a] + BACK;
    BackwardGoesRound(ROUND, Nil, TWO64 - 11);
  }

  lemma BackVarint()
    ensures Varint(TWO64 - 11) == BACK
  {
    assert Varint(0x1) == [0x1];
    Digit(0xff, [0x1]);
    Digit(0x7fff, [0xff, 0x1]);
    Digit(0x3fffff, [0xff, 0xff, 0x1]);
    Digit(0x1fffffff, [0xff, 0xff, 0xff, 0x1]);
    Digit(0xfffffffff, [0xff, 0xff, 0xff, 0xff, 0x1]);
    Digit(0x7ffffffffff, [0xff, 0xff, 0xff, 0xff, 0xff, 0x1]);
    Digit(0x3ffffffffffff, [0xff, 0xff, 0xff, 0xff, 0xff, 0xff, 0x1]);
    Digit(0x1ffffffffffffff, [0xff, 0xff, 0xff, 0xff, 0xff, 0xff, 0xff, 0x1]);
    Digit(0xfffffffffffffff5, [0xff, 0xff, 0xff, 0xff, 0xff, 0xff, 0xff, 0xff, 0x1]);
  }

  // ----------------------------------------------------------------- messages

  /** A raft message behind its entries, as it is written: the snapshot, then the
      high half of the hint. */
  function MarshalTail(snapshot: seq<Byte>, hintHigh: U64): seq<Byte> {
    [0x62] + (Varint(|snapshot|) + (snapshot + ([0x68] + (Varint(hintHigh) + []))))
  }

  /** A raft message from its entries on. */
  function MarshalEntries(es: seq<Entry>, tail: seq<Byte>): seq<Byte> {
    if es == [] then tail else [0x5a] + (Varint(Size(es[0])) + (Marshal(es[0]) + MarshalEntries(es[1..], tail)))
  }

  function TailFields(snapshot: seq<Byte>, hintHigh: U64): Fields {
    Cons(Field(12, Bytes(snapshot)), Cons(Field(13, Number(hintHigh)), Nil))
  }

  lemma TailIsFields(snapshot: seq<Byte>, hintHigh: U64)
    requires |snapshot| < TWO63
    ensures var fs := TailFields(snapshot, hintHigh);
            MarshalTail(snapshot, hintHigh) == EncodeAll(fs) && AllOk(fs) && HoldBytes(11, fs) && Leading(fs) == 0
  {
    NumberField(13, hintHigh, Nil);
    BytesField(12, snapshot, Cons(Field(13, Number(hintHigh)), Nil));
    assert EncodeAll(Nil) == [];
    assert AllOk(Cons(Field(13, Number(hintHigh)), Nil)) && HoldBytes(11, Cons(Field(13, Number(hintHigh)), Nil));
  }

  lemma {:induction false} EntriesAreDelimited(es: seq<Entry>, tail: seq<Byte>)
    ensures MarshalEntries(es, tail) == Delimited(11, Encoded(es), tail)
  {
    if es != [] {
      SizeIsExact(es[0]);
      EntriesAreDelimited(es[1..], tail);
      assert Encoded(es)[1..] == Encoded(es[1..]);
    }
  }

  lemma {:induction false} LeadingParts(parts: seq<seq<Byte>>, tail: Fields)
    requires Leading(tail) == 0
    ensures Leading(DelimitedFields(11, parts, tail)) == |parts|
  {
    if parts != [] { LeadingParts(parts[1..], tail); }
  }

  /** When a message's first entry has been delimited, counting what follows it gives
      room for exactly the message's entries. */
  lemma EntryCountIsExact(es: seq<Entry>, snapshot: seq<Byte>, hintHigh: U64)
    requires es != [] && Writable(es) && |snapshot| < TWO63
    requires |MarshalEntries(es[1..], MarshalTail(snapshot, hintHigh))| < TWO63
    ensures EntryCount(MarshalEntries(es[1..], MarshalTail(snapshot, hintHigh)), 0, {}) == Count(|es| - 1)
  {
    var rest, tail := es[1..], TailFields(snapshot, hintHigh);
    var parts := Encoded(rest);
    var data := MarshalEntries(rest, MarshalTail(snapshot, hintHigh));
    TailIsFields(snapshot, hintHigh);
    EntriesAreDelimited(rest, MarshalTail(snapshot, hintHigh));
    PartsParse(rest, parts);
    if rest != [] { EncodedAt(rest, 0); } else { assert parts == []; }
    DelimitedIsFields(11, parts, tail);
    LeadingParts(parts, tail);
    assert data[0..] == data;
    CountIsLeading(data, 0, {}, DelimitedFields(11, parts, tail));
  }
}
