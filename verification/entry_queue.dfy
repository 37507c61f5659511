/** The queue of proposed entries: two arrays that swap roles on every read, so that
    a reader can keep the slice it got while writers fill the other array. */
module EntryQueue {

  datatype Entry = Entry(id: nat, cmd: seq<nat>)

  // ------------------------------------------------------- what is promised

  /** A bounded first-in first-out queue. */
  datatype Fifo = Fifo(
    size: nat, queue: seq<Entry>, paused: bool, stopped: bool,
    accepted: seq<Entry>,        // everything ever accepted
    taken: seq<seq<Entry>>)      // everything ever read, read by read

  datatype Op = Add(entry: Entry) | Get(paused: bool) | Close

  predicate Accepts(q: Fifo) {
    !q.paused && |q.queue| < q.size && !q.stopped
  }

  function Apply(q: Fifo, op: Op): Fifo {
    match op
    case Add(e) => if Accepts(q) then q.(queue := q.queue + [e], accepted := q.accepted + [e]) else q
    case Get(paused) => q.(queue := [], paused := paused, taken := q.taken + [q.queue])
    case Close => q.(stopped := true)
  }

  function New(size: nat): Fifo {
    Fifo(size, [], false, false, [], [])
  }

  function Run(q: Fifo, ops: seq<Op>): Fifo
    decreases |ops|
  {
    if ops == [] then q else Run(Apply(q, ops[0]), ops[1..])
  }

  function Flatten(parts: seq<seq<Entry>>): seq<Entry> {
    if parts == [] then [] else Flatten(parts[..|parts| - 1]) + parts[|parts| - 1]
  }

  predicate Conserved(q: Fifo) {
    q.accepted == Flatten(q.taken) + q.queue && |q.queue| <= q.size
  }

  /** An entry is accepted, and is last in the queue, if and only if the queue has room
      and is neither paused nor stopped; otherwise nothing changes. A read takes all of
      it and says whether writers must wait. */
  lemma AcceptedIff(q: Fifo, e: Entry, paused: bool)
    ensures Apply(q, Add(e)) == if !q.paused && !q.stopped && |q.queue| < q.size
                                then q.(queue := q.queue + [e], accepted := q.accepted + [e]) else q
    ensures var t := Apply(q, Get(paused)); t.queue == [] && t.taken == q.taken + [q.queue] && t.paused == paused && t.stopped == q.stopped
  {}

  lemma ApplyConserves(q: Fifo, op: Op)
    requires Conserved(q)
    ensures Conserved(Apply(q, op))
    ensures q.accepted <= Apply(q, op).accepted && (q.stopped ==> Apply(q, op).stopped && Apply(q, op).accepted == q.accepted)
  {
    if op.Get? { assert (q.taken + [q.queue])[..|q.taken|] == q.taken; }
  }

  /** Reads deliver exactly what was accepted, in order and without loss, and
      nothing is accepted after close. */
  lemma {:induction false} RunConserves(q: Fifo, ops: seq<Op>)
    requires Conserved(q)
    ensures Conserved(Run(q, ops)) && q.accepted <= Run(q, ops).accepted
    ensures q.stopped ==> Run(q, ops).accepted == q.accepted
    decreases |ops|
  {
    if ops != [] {
      ApplyConserves(q, ops[0]);
      RunConserves(Apply(q, ops[0]), ops[1..]);
    }
  }

  // ---------------------------------------------------------- what is built

  class DoubleBuffer {
    const size: nat
    const left: array<Entry>
    const right: array<Entry>
    const lazyFreeCycle: nat
    var leftInWrite: bool
    var stopped: bool
    var paused: bool
    var idx: nat
    var oldIdx: nat
    var cycle: nat
    ghost var spec: Fifo
    ghost var lent: seq<Entry>      // the slice the last read returned

    ghost function Target(): array<Entry>
      reads this
    {
      if leftInWrite then left else right
    }

    ghost function Lent(): array<Entry>
      reads this
    {
      if leftInWrite then right else left
    }

    /** The buffer is the queue, and the slice handed out last is intact. */
    ghost predicate Valid()
      reads this, left, right
    {
      && left != right && left.Length == right.Length == size
      && idx <= size && oldIdx <= size
      && spec.size == size && spec.paused == paused && spec.stopped == stopped
      && Target()[..idx] == spec.queue
      && Lent()[..oldIdx] == lent
    }

    constructor (size: nat, lazyFreeCycle: nat)
      ensures Valid() && spec == New(size) && lent == [] && fresh(left) && fresh(right)
    {
      this.size, this.lazyFreeCycle := size, lazyFreeCycle;
      left := new Entry[size](_ => Entry(0, []));
      right := new Entry[size](_ => Entry(0, []));
      leftInWrite, stopped, paused, idx, oldIdx, cycle := false, false, false, 0, 0, 0;
      spec, lent := New(size), [];
    }

    method CloseQueue()
      requires Valid()
      modifies this
      ensures Valid() && spec == Apply(old(spec), Close) && lent == old(lent)
    {
      stopped := true;
      spec := Apply(spec, Close);
    }

    method Enqueue(e: Entry) returns (added: bool, closed: bool)
      requires Valid()
      modifies this, left, right
      ensures Valid() && spec == Apply(old(spec), Add(e)) && lent == old(lent)
      ensures added == (!old(paused) && !old(stopped) && old(idx) < size) && closed == old(stopped)
    {
      if paused || idx >= size { return false, stopped; }
      if stopped { return false, true; }
      if leftInWrite {
        left[idx] := e;
      } else {
        right[idx] := e;
      }
      spec := Apply(spec, Add(e));
      idx := idx + 1;
      return true, false;
    }

    /** Let go of the commands in the first `n` places. */
    static method Clear(a: array<Entry>, n: nat)
      requires n <= a.Length
      modifies a
      ensures forall i :: 0 <= i < a.Length ==> a[i] == if i < n then old(a[i]).(cmd := []) else old(a[i])
    {
      var i := 0;
      while i < n
        invariant 0 <= i <= n
        invariant forall j :: 0 <= j < a.Length ==> a[j] == if j < i then old(a[j]).(cmd := []) else old(a[j])
      {
        a[i] := a[i].(cmd := []);
        i := i + 1;
      }
    }

    /** Everything queued, in a slice that stays as it is until the next read. */
    method Dequeue(pause: bool) returns (t: array<Entry>, n: nat)
      requires Valid()
      modifies this, left, right
      ensures Valid() && spec == Apply(old(spec), Get(pause)) && lent == old(spec.queue)
      ensures t == Lent() && n == oldIdx && t[..n] == old(spec.queue)
    {
      paused := pause;
      cycle := cycle + 1;
      n := idx;
      idx := 0;
      t := if leftInWrite then left else right;
      leftInWrite := !leftInWrite;
      var target := if leftInWrite then left else right;
      if lazyFreeCycle > 0 {
        if lazyFreeCycle == 1 {
          Clear(target, oldIdx);
        } else if cycle % lazyFreeCycle == 0 {
          Clear(target, size);
        }
      }
      oldIdx := n;
      lent := spec.queue;
      spec := Apply(spec, Get(pause));
    }
  }

  /** The buffer behaves as the queue over any run of operations. */
  method Drive(size: nat, lazyFreeCycle: nat, ops: seq<Op>) returns (q: DoubleBuffer)
    ensures q.Valid() && q.spec == Run(New(size), ops) && Conserved(q.spec)
  {
    q := new DoubleBuffer(size, lazyFreeCycle);
    RunConserves(New(size), ops);
    var i := 0;
    while i < |ops|
      invariant 0 <= i <= |ops| && q.Valid() && fresh(q) && fresh(q.left) && fresh(q.right)
      invariant Run(q.spec, ops[i..]) == Run(New(size), ops)
    {
      match ops[i] {
        case Add(e) => var _, _ := q.Enqueue(e);
        case Get(pause) => var _, _ := q.Dequeue(pause);
        case Close => q.CloseQueue();
      }
      assert ops[i..][1..] == ops[i + 1..];
      i := i + 1;
    }
  }
}
