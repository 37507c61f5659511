/** How workers learn which clusters have work. Producers mark clusters in a ready
    set and then put a token in a channel of capacity one; the worker takes the
    token and swaps the set for an empty one. */
module Wakeup {

  /** Where the worker is between taking a token and having its clusters. */
  datatype Worker = Waiting | Woken | Cleared

  /** One partition. The ready set is one of two, chosen by the parity of a counter
      of eight bits. */
  datatype Partition = Partition(
    maps: (set<nat>, set<nat>),
    index: nat,
    token: bool,
    owing: set<nat>,          // producers that have marked but not yet notified
    worker: Worker,
    since: set<nat>,          // clusters marked since the last swap
    batch: set<nat>)          // what the last swap returned

  function New(): Partition {
    Partition(({}, {}), 0, false, {}, Waiting, {}, {})
  }

  function Side(p: Partition, index: nat): set<nat> {
    if index % 2 == 0 then p.maps.0 else p.maps.1
  }

  function WithSide(p: Partition, index: nat, s: set<nat>): Partition {
    p.(maps := if index % 2 == 0 then (s, p.maps.1) else (p.maps.0, s))
  }

  function Ready(p: Partition): set<nat> {
    Side(p, p.index)
  }

  /** The counter wraps after 255. */
  function Bump(index: nat): nat {
    (index + 1) % 256
  }

  datatype Action =
    | Mark(producer: nat, cluster: nat)
    | Notify(producer: nat)
    | Receive                 // the worker takes the token
    | Clear                   // and empties the set it got last time
    | Swap                    // and takes the ready set

  predicate Enabled(p: Partition, a: Action) {
    match a
    case Mark(_, _) => true
    case Notify(producer) => producer in p.owing
    case Receive => p.worker == Waiting && p.token
    case Clear => p.worker == Woken
    case Swap => p.worker == Cleared
  }

  function Next(p: Partition, a: Action): Partition {
    match a
    case Mark(producer, c) => WithSide(p, p.index, Ready(p) + {c}).(owing := p.owing + {producer}, since := p.since + {c})
    case Notify(producer) => p.(token := true, owing := p.owing - {producer})
    case Receive => p.(token := false, worker := Woken)
    case Clear => WithSide(p, Bump(p.index), {}).(worker := Cleared)
    case Swap => p.(index := Bump(p.index), worker := Waiting, since := {}, batch := Ready(p))
  }

  /** Someone will see to a ready set that is not empty. */
  predicate Attended(p: Partition) {
    Ready(p) != {} ==> p.token || p.owing != {} || p.worker != Waiting
  }

  predicate Inv(p: Partition) {
    && p.index < 256
    && Ready(p) == p.since
    && (p.worker == Cleared ==> Side(p, Bump(p.index)) == {})
    && (p.worker != Cleared ==> Side(p, Bump(p.index)) == p.batch)
    && Attended(p)
  }

  lemma BumpFlips(index: nat)
    requires index < 256
    ensures Bump(index) < 256 && Bump(index) % 2 != index % 2 && Bump(Bump(index)) % 2 == index % 2
  {}

  lemma StepKeeps(p: Partition, a: Action)
    requires Inv(p) && Enabled(p, a)
    ensures Inv(Next(p, a))
  {
    BumpFlips(p.index);
  }

  ghost predicate Runs(p: Partition, actions: seq<Action>, q: Partition)
    decreases |actions|
  {
    if actions == [] then p == q else Enabled(p, actions[0]) && Runs(Next(p, actions[0]), actions[1..], q)
  }

  lemma {:induction false} RunKeeps(p: Partition, actions: seq<Action>, q: Partition)
    requires Inv(p) && Runs(p, actions, q)
    ensures Inv(q)
    decreases |actions|
  {
    if actions != [] {
      StepKeeps(p, actions[0]);
      RunKeeps(Next(p, actions[0]), actions[1..], q);
    }
  }

  /** No wakeup is lost: whenever clusters are marked, a token is in the channel, or
      a producer has yet to notify, or the worker is on its way to swap. */
  lemma NoLostWakeup(actions: seq<Action>, p: Partition)
    requires Runs(New(), actions, p)
    ensures Ready(p) != {} ==> p.token || p.owing != {} || p.worker != Waiting
  {
    RunKeeps(New(), actions, p);
  }

  /** A swap returns exactly the clusters marked since the swap before it, whatever
      the counter has wrapped to, and leaves nothing marked. */
  lemma SwapReturnsMarks(actions: seq<Action>, p: Partition)
    requires Runs(New(), actions, p) && p.worker == Cleared
    ensures Next(p, Swap).batch == p.since && Ready(Next(p, Swap)) == {}
  {
    RunKeeps(New(), actions, p);
    BumpFlips(p.index);
  }

  /** What the last swap returned is not disturbed by marks, until the worker itself
      clears it. */
  lemma BatchIsStable(actions: seq<Action>, p: Partition)
    requires Runs(New(), actions, p) && p.worker != Cleared
    ensures Side(p, Bump(p.index)) == p.batch
  {
    RunKeeps(New(), actions, p);
  }

  /** A marked cluster is in the first batch swapped out after the mark. */
  lemma {:induction false} MarkedIsReturned(p: Partition, actions: seq<Action>, q: Partition, c: nat)
    requires Inv(p) && c in p.since && Runs(p, actions, q)
    requires forall i :: 0 <= i < |actions| ==> actions[i] != Swap
    ensures c in q.since && (q.worker == Cleared ==> c in Next(q, Swap).batch)
    decreases |actions|
  {
    if actions != [] {
      StepKeeps(p, actions[0]);
      MarkedIsReturned(Next(p, actions[0]), actions[1..], q, c);
    }
  }

  /** The clusters marked along a run. */
  function MarkedIn(actions: seq<Action>): set<nat> {
    if actions == [] then {} else (if actions[0].Mark? then {actions[0].cluster} else {}) + MarkedIn(actions[1..])
  }

  /** Between two swaps the ready set collects exactly the clusters marked. */
  lemma {:induction false} ReadyIsMarked(p: Partition, actions: seq<Action>, q: Partition)
    requires Inv(p) && Runs(p, actions, q)
    requires forall i :: 0 <= i < |actions| ==> actions[i] != Swap
    ensures Inv(q) && q.since == p.since + MarkedIn(actions) && Ready(q) == q.since
    decreases |actions|
  {
    if actions != [] {
      StepKeeps(p, actions[0]);
      ReadyIsMarked(Next(p, actions[0]), actions[1..], q);
    }
  }

  /** How many steps producers and worker still have before them. */
  function StepsLeft(p: Partition): nat {
    4 * |p.owing| + (if p.token then 3 else 0) +
    match p.worker { case Waiting => 0 case Woken => 2 case Cleared => 1 }
  }

  /** Unless clusters are marked, every step brings the worker closer to its swap, */
  lemma StepSpends(p: Partition, a: Action)
    requires Enabled(p, a) && !a.Mark?
    ensures StepsLeft(Next(p, a)) < StepsLeft(p)
  {
    if a.Notify? { assert |p.owing - {a.producer}| == |p.owing| - 1; }
  }

  /** and while anything is marked there is such a step: when none is left, everything
      marked has been swapped out. */
  lemma NothingLeftBehind(p: Partition)
    requires Inv(p) && forall a :: Enabled(p, a) ==> a.Mark?
    ensures Ready(p) == {} && p.since == {}
  {
    assert !Enabled(p, Receive) && !Enabled(p, Clear) && !Enabled(p, Swap);
    forall producer ensures producer !in p.owing { assert !Enabled(p, Notify(producer)); }
    assert p.owing == {};
  }

  // ---------------------------------------------------------- as it is built

  /** The two sets and the counter. */
  class ReadyCluster {
    var even: set<nat>
    var odd: set<nat>
    var index: nat
    ghost var since: set<nat>

    ghost predicate Valid()
      reads this
    {
      index < 256 && (if index % 2 == 0 then even else odd) == since
    }

    constructor ()
      ensures Valid() && since == {}
    {
      even, odd, index, since := {}, {}, 0, {};
    }

    method SetClusterReady(c: nat)
      requires Valid()
      modifies this
      ensures Valid() && since == old(since) + {c}
    {
      if index % 2 == 0 {
        even := even + {c};
      } else {
        odd := odd + {c};
      }
      since := since + {c};
    }

    method GetReadyClusters() returns (ready: set<nat>)
      requires Valid()
      modifies this
      ensures Valid() && ready == old(since) && since == {}
    {
      BumpFlips(index);
      if Bump(index) % 2 == 0 {
        even := Emptied(even);
      } else {
        odd := Emptied(odd);
      }
      ready := if index % 2 == 0 then even else odd;
      index := Bump(index);
      since := {};
    }

    static method Emptied(s: set<nat>) returns (t: set<nat>)
      ensures t == {}
    {
      t := s;
      while t != {}
        decreases |t|
      {
        var k :| k in t;
        t := t - {k};
      }
    }
  }

  /** Is bit `v` set? Asking for a bit beyond the word is a panic. */
  predicate Contains(b: bv64, v: bv64)
    requires v < 64
  {
    b & (1 << v) != 0
  }

  /** A bitmap of 64 bits is a set of numbers below 64. */
  lemma BitmapIsSet(b: bv64, v: bv64, w: bv64)
    requires v < 64 && w < 64
    ensures Contains(b | (1 << v), w) <==> w == v || Contains(b, w)
    ensures !Contains(0, w)
  {}

  datatype Deed = Marked(cluster: nat) | Notified(partition: nat)

  ghost function Marks(ids: seq<nat>): seq<Deed> {
    seq(|ids|, i requires 0 <= i < |ids| => Marked(ids[i]))
  }

  ghost function Notes(ws: seq<nat>): seq<Deed> {
    seq(|ws|, i requires 0 <= i < |ws| => Notified(ws[i]))
  }

  /** The ready sets and channels of all partitions, as producers see them. */
  class WorkReady {
    const count: nat
    const partition: nat -> nat
    var ready: map<nat, set<nat>>
    var tokens: set<nat>
    ghost var log: seq<Deed>      // what was done, oldest first

    /** The partitioner returns a number below the count, which is at most 64. */
    ghost predicate Valid()
      reads this
    {
      && count <= 64 && (forall c :: partition(c) < count)
      && (forall w :: w in ready <==> w < count)
    }

    method Notify(w: nat)
      requires Valid() && w < count
      modifies this`tokens, this`log
      ensures Valid() && tokens == old(tokens) + {w} && log == old(log) + [Notified(w)]
    {
      if w !in tokens { tokens := tokens + {w}; }
      log := log + [Notified(w)];
    }

    /** The clusters of `ids` in partition `w`. */
    ghost function In(ids: seq<nat>, w: nat): set<nat> {
      set i | 0 <= i < |ids| && partition(ids[i]) == w :: ids[i]
    }

    ghost function Partitions(ids: seq<nat>): set<nat> {
      set i | 0 <= i < |ids| :: partition(ids[i])
    }

    /** Mark every cluster first, and only then notify each partition, once. */
    method ClustersReady(ids: seq<nat>) returns (notified: seq<nat>)
      requires Valid()
      modifies this
      ensures Valid()
      ensures forall w :: w in ready ==> ready[w] == old(ready)[w] + In(ids, w)
      ensures tokens == old(tokens) + Partitions(ids)
      ensures forall i, j :: 0 <= i < j < |notified| ==> notified[i] != notified[j]
      ensures forall w :: w in notified <==> w in Partitions(ids)
      ensures log == old(log) + Marks(ids) + Notes(notified)
    {
      MarkAll(ids);
      notified := NotifyAll(ids);
    }

    method MarkAll(ids: seq<nat>)
      requires Valid()
      modifies this`ready, this`log
      ensures Valid()
      ensures forall w :: w in ready ==> ready[w] == old(ready)[w] + In(ids, w)
      ensures log == old(log) + Marks(ids)
    {
      var i := 0;
      while i < |ids|
        invariant 0 <= i <= |ids| && Valid() && log == old(log) + Marks(ids[..i])
        invariant forall w :: w in ready ==> ready[w] == old(ready)[w] + In(ids[..i], w)
      {
        var w := partition(ids[i]);
        ghost var before := ready;
        ready := ready[w := ready[w] + {ids[i]}];
        forall v | v in ready ensures ready[v] == old(ready)[v] + In(ids[..i + 1], v) {
          GrowIn(ids, i, v);
          Add(before[v], old(ready)[v], In(ids[..i], v), ids[i]);
        }
        log := log + [Marked(ids[i])];
        MarksMore(ids, i);
        i := i + 1;
      }
      assert ids[..i] == ids;
    }

    lemma GrowIn(ids: seq<nat>, i: nat, w: nat)
      requires i < |ids|
      ensures In(ids[..i + 1], w) == if partition(ids[i]) == w then In(ids[..i], w) + {ids[i]} else In(ids[..i], w)
    {
      assert ids[..i + 1][i] == ids[i];
      forall x | x in In(ids[..i], w) ensures x in In(ids[..i + 1], w) {
        var k :| 0 <= k < |ids[..i]| && partition(ids[..i][k]) == w && ids[..i][k] == x;
        assert ids[..i + 1][k] == x;
      }
    }

    static lemma MarksMore(ids: seq<nat>, i: nat)
      requires i < |ids|
      ensures Marks(ids[..i + 1]) == Marks(ids[..i]) + [Marked(ids[i])]
    {}

    static lemma Add(s: set<nat>, a: set<nat>, b: set<nat>, x: nat)
      requires s == a + b
      ensures s + {x} == a + (b + {x})
    {}

    lemma Grow(ids: seq<nat>, i: nat)
      requires i < |ids|
      ensures Partitions(ids[..i + 1]) == Partitions(ids[..i]) + {partition(ids[i])}
    {
      assert ids[..i + 1][i] == ids[i];
      forall v | v in Partitions(ids[..i]) ensures v in Partitions(ids[..i + 1]) {
        var k :| 0 <= k < |ids[..i]| && partition(ids[..i][k]) == v;
        assert ids[..i + 1][k] == ids[..i][k];
      }
    }

    /** `seen` is the bitmap of partitions notified; it is only asked for bits it has. */
    method NotifyAll(ids: seq<nat>) returns (notified: seq<nat>)
      requires Valid()
      modifies this`tokens, this`log
      ensures Valid() && tokens == old(tokens) + Partitions(ids)
      ensures log == old(log) + Notes(notified)
      ensures forall i, j :: 0 <= i < j < |notified| ==> notified[i] != notified[j]
      ensures forall w :: w in notified <==> w in Partitions(ids)
    {
      notified := [];
      var seen: set<nat> := {};
      var i := 0;
      while i < |ids|
        invariant 0 <= i <= |ids| && Valid()
        invariant tokens == old(tokens) + Partitions(ids[..i]) && seen == Partitions(ids[..i])
        invariant log == old(log) + Notes(notified)
        invariant forall w :: w in notified <==> w in seen
        invariant forall i, j :: 0 <= i < j < |notified| ==> notified[i] != notified[j]
      {
        var w := partition(ids[i]);
        assert w < 64;
        Grow(ids, i);
        if w !in seen {
          seen := seen + {w};
          Notify(w);
          assert Notes(notified + [w]) == Notes(notified) + [Notified(w)];
          notified := notified + [w];
        }
        i := i + 1;
      }
      assert ids[..i] == ids;
    }
  }
}
