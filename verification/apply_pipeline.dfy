/** How committed entries and snapshots reach the state machine. Raft hands the node
    batches of committed entries that may overlap what was pushed before; the node
    trims them, with wrapping 64-bit arithmetic, and queues what is new. */
module ApplyPipeline {

  import opened Basics

  datatype Entry = Entry(index: U64, data: nat)

  datatype Task = Entries(entries: seq<Entry>) | Recover(index: U64) | Other(what: nat)

  datatype Panic = TooOld | Hole | OutOfDate

  datatype Outcome<T> = Fine(value: T) | Failed(why: Panic)

  /** A batch of committed entries, as raft makes them: without a gap. */
  ghost predicate Contiguous(es: seq<Entry>) {
    && |es| < TWO63
    && (forall i :: 0 <= i < |es| ==> es[i].index == es[0].index + i)
  }

  /** The part of a batch that has not been pushed yet, as the node computes it. */
  function EntriesToApply(pushed: U64, es: seq<Entry>): Outcome<seq<Entry>> {
    if |es| == 0 then Fine([])
    else if es[|es| - 1].index < pushed then Failed(TooOld)
    else if es[0].index > Wrap64(pushed + 1) then Failed(Hole)
    else if Wrap64(Wrap64(pushed - es[0].index) + 1) < |es| then Fine(es[Wrap64(Wrap64(pushed - es[0].index) + 1)..])
    else Fine([])
  }

  /** The same over natural numbers: the entries after `pushed`. */
  function Fresh(pushed: nat, es: seq<Entry>): Outcome<seq<Entry>> {
    if |es| == 0 then Fine([])
    else if es[|es| - 1].index < pushed then Failed(TooOld)
    else if es[0].index > pushed + 1 then Failed(Hole)
    else if pushed < es[0].index + |es| - 1 then Fine(es[pushed + 1 - es[0].index..])
    else Fine([])
  }

  lemma WrapDistance(pushed: U64, first: U64)
    requires pushed < TWO64 - 1 && first <= pushed + 1
    ensures Wrap64(pushed + 1) == pushed + 1
    ensures Wrap64(Wrap64(pushed - first) + 1) == pushed + 1 - first
  {
    if first == pushed + 1 {
      assert Wrap64(pushed - first) == TWO64 - 1;
    } else {
      assert Wrap64(pushed - first) == pushed - first;
    }
  }

  /** The wrapping computation is the natural one if and only if it is not asked, at the
      very last index, for a batch that ends there: then `pushed + 1` wraps to zero. */
  lemma WrappingAgrees(pushed: U64, es: seq<Entry>)
    requires Contiguous(es)
    ensures EntriesToApply(pushed, es) == Fresh(pushed, es) <==>
            !(pushed == TWO64 - 1 && es != [] && es[|es| - 1].index == TWO64 - 1)
  {
    if es != [] && pushed != TWO64 - 1 && es[0].index <= pushed + 1 { WrapDistance(pushed, es[0].index); }
  }

  /** At the last index the two differ: re-delivering the last entry is harmless
      over natural numbers, and a panic in the node. */
  lemma WrappingDiffersAtTheEnd(data: nat)
    ensures var es := [Entry(TWO64 - 1, data)];
            Contiguous(es) && EntriesToApply(TWO64 - 1, es) == Failed(Hole) && Fresh(TWO64 - 1, es) == Fine([])
  {}

  // --------------------------------------------------------------- the node

  /** The queue towards the state machine, and how far it has been filled. */
  datatype Node = Node(pushed: U64, snapshot: U64, tasks: seq<Task>)

  function PushEntries(n: Node, es: seq<Entry>): Node {
    if |es| == 0 then n else n.(tasks := n.tasks + [Entries(es)], pushed := es[|es| - 1].index)
  }

  function PushSnapshot(n: Node, index: U64, applied: U64): Outcome<Node> {
    if index == 0 then Fine(n)
    else if index < n.pushed || index < n.snapshot || index < applied then Failed(OutOfDate)
    else Fine(Node(index, index, n.tasks + [Recover(index)]))
  }

  /** What raft hands the node in one round. */
  datatype Update = Update(snapshot: U64, applied: U64, committed: seq<Entry>)

  function ApplyUpdate(n: Node, u: Update): Outcome<Node> {
    match PushSnapshot(n, u.snapshot, u.applied)
    case Failed(why) => Failed(why)
    case Fine(m) =>
      match EntriesToApply(m.pushed, u.committed)
      case Failed(why) => Failed(why)
      case Fine(es) => Fine(PushEntries(m, es))
  }

  datatype Event =
    | Round(update: Update)     // a round of raft updates
    | Saved(index: U64)         // a snapshot was taken and recorded
    | Request(what: nat)        // a save, stream or sync task

  function Next(n: Node, e: Event): Outcome<Node> {
    match e
    case Round(u) => ApplyUpdate(n, u)
    case Saved(index) => Fine(n.(snapshot := index))
    case Request(what) => Fine(n.(tasks := n.tasks + [Other(what)]))
  }

  /** Once a snapshot was taken and recorded, an older one is refused. */
  lemma SavedRefusesOlder(n: Node, index: U64, u: Update)
    requires 0 < u.snapshot < index
    ensures Next(n, Saved(index)).Fine? && Next(Next(n, Saved(index)).value, Round(u)) == Failed(OutOfDate)
  {}

  // ------------------------------------------------------- what comes out

  /** Does the batch hold entries of the log? */
  ghost predicate FromLog(log: map<nat, Entry>, es: seq<Entry>) {
    && Contiguous(es)
    && (forall i :: 0 <= i < |es| ==> es[i].index in log && log[es[i].index] == es[i])
  }

  /** The log between two indexes, the first excluded. */
  ghost predicate IsSlice(log: map<nat, Entry>, from: nat, es: seq<Entry>) {
    forall i :: 0 <= i < |es| ==> EntryAt(log, from + 1 + i, es[i])
  }

  /** The log has this entry at index `n`. */
  ghost predicate EntryAt(log: map<nat, Entry>, n: nat, e: Entry) {
    n in log && log[n] == e && e.index == n
  }

  /** Where a queue of tasks, carried out from `from`, leaves the state machine. */
  function End(from: nat, tasks: seq<Task>): nat
    decreases |tasks|
  {
    if tasks == [] then from
    else
      match tasks[|tasks| - 1]
      case Entries(es) => End(from, tasks[..|tasks| - 1]) + |es|
      case Recover(index) => index
      case Other(_) => End(from, tasks[..|tasks| - 1])
  }

  /** Carried out from `from`, a queue of tasks feeds the state machine exactly the
      log's entries one after the other, except for jumps forward to a snapshot. */
  ghost predicate Feeds(log: map<nat, Entry>, from: nat, tasks: seq<Task>)
    decreases |tasks|
  {
    if tasks == [] then true
    else
      && Feeds(log, from, tasks[..|tasks| - 1])
      && match tasks[|tasks| - 1] {
         case Entries(es) => IsSlice(log, End(from, tasks[..|tasks| - 1]), es)
         case Recover(index) => End(from, tasks[..|tasks| - 1]) <= index
         case Other(_) => true
         }
  }

  lemma FeedsMore(log: map<nat, Entry>, from: nat, tasks: seq<Task>, t: Task)
    requires Feeds(log, from, tasks)
    requires t.Entries? ==> IsSlice(log, End(from, tasks), t.entries)
    requires t.Recover? ==> End(from, tasks) <= t.index
    ensures Feeds(log, from, tasks + [t])
    ensures End(from, tasks + [t]) ==
              match t case Entries(es) => End(from, tasks) + |es| case Recover(index) => index case Other(_) => End(from, tasks)
  {
    assert (tasks + [t])[..|tasks|] == tasks;
  }

  lemma SuffixIsSlice(log: map<nat, Entry>, es: seq<Entry>, k: nat, from: nat)
    requires FromLog(log, es) && es != [] && k <= |es| && from + 1 == es[0].index + k
    ensures IsSlice(log, from, es[k..])
  {
    var rest := es[k..];
    forall i | 0 <= i < |rest| ensures EntryAt(log, from + 1 + i, rest[i]) {
      assert rest[i] == es[k + i] && es[k + i].index == es[0].index + (k + i);
    }
  }

  /** What survives the trimming continues exactly where the node is. */
  lemma TrimmedIsSlice(log: map<nat, Entry>, pushed: U64, es: seq<Entry>)
    requires FromLog(log, es) && EntriesToApply(pushed, es).Fine?
    ensures var rest := EntriesToApply(pushed, es).value;
            && IsSlice(log, pushed, rest)
            && (rest != [] ==> rest[|rest| - 1].index == pushed + |rest|)
            && (es != [] ==> es[|es| - 1].index == pushed + |rest|)
  {
    WrappingAgrees(pushed, es);
    var rest := EntriesToApply(pushed, es).value;
    if es != [] {
      assert es[|es| - 1].index == es[0].index + (|es| - 1);
      if rest != [] {
        var k := pushed + 1 - es[0].index;
        assert rest == es[k..];
        SuffixIsSlice(log, es, k, pushed);
      }
    }
  }

  ghost predicate RoundOk(log: map<nat, Entry>, e: Event) {
    e.Round? ==> FromLog(log, e.update.committed)
  }

  /** The queue feeds the log up to where the node thinks it is. */
  ghost predicate InStep(log: map<nat, Entry>, from: nat, n: Node) {
    Feeds(log, from, n.tasks) && End(from, n.tasks) == n.pushed
  }

  lemma SnapshotInStep(log: map<nat, Entry>, from: nat, n: Node, index: U64, applied: U64)
    requires InStep(log, from, n) && PushSnapshot(n, index, applied).Fine?
    ensures InStep(log, from, PushSnapshot(n, index, applied).value)
    ensures n.pushed <= PushSnapshot(n, index, applied).value.pushed && n.tasks <= PushSnapshot(n, index, applied).value.tasks
  {
    if index != 0 { FeedsMore(log, from, n.tasks, Recover(index)); }
  }

  lemma EntriesInStep(log: map<nat, Entry>, from: nat, n: Node, es: seq<Entry>)
    requires InStep(log, from, n) && FromLog(log, es) && EntriesToApply(n.pushed, es).Fine?
    ensures var m := PushEntries(n, EntriesToApply(n.pushed, es).value);
            InStep(log, from, m) && n.pushed <= m.pushed && n.tasks <= m.tasks && (es != [] ==> m.pushed == Last(es))
  {
    TrimmedIsSlice(log, n.pushed, es);
    var rest := EntriesToApply(n.pushed, es).value;
    if rest != [] { FeedsMore(log, from, n.tasks, Entries(rest)); }
  }

  /** Every step extends the feed, and never moves back. */
  lemma StepFeeds(log: map<nat, Entry>, from: nat, n: Node, e: Event)
    requires InStep(log, from, n) && RoundOk(log, e) && Next(n, e).Fine?
    ensures InStep(log, from, Next(n, e).value)
    ensures n.pushed <= Next(n, e).value.pushed && n.tasks <= Next(n, e).value.tasks
    ensures e.Round? && e.update.committed != [] ==> Next(n, e).value.pushed == Last(e.update.committed)
  {
    match e
    case Round(u) =>
      SnapshotInStep(log, from, n, u.snapshot, u.applied);
      EntriesInStep(log, from, PushSnapshot(n, u.snapshot, u.applied).value, u.committed);
    case Saved(_) =>
    case Request(what) => FeedsMore(log, from, n.tasks, Other(what));
  }

  function Last(es: seq<Entry>): nat
    requires es != []
  {
    es[|es| - 1].index
  }

  ghost predicate Runs(log: map<nat, Entry>, n: Node, events: seq<Event>, m: Node)
    decreases |events|
  {
    if events == [] then n == m
    else
      && RoundOk(log, events[0])
      && Next(n, events[0]).Fine?
      && Runs(log, Next(n, events[0]).value, events[1..], m)
  }

  lemma {:induction false} RunFeeds(log: map<nat, Entry>, from: nat, n: Node, events: seq<Event>, m: Node)
    requires InStep(log, from, n) && Runs(log, n, events, m)
    ensures InStep(log, from, m) && n.pushed <= m.pushed && n.tasks <= m.tasks
    decreases |events|
  {
    if events != [] {
      StepFeeds(log, from, n, events[0]);
      RunFeeds(log, from, Next(n, events[0]).value, events[1..], m);
    }
  }

  /** A node that starts at its initial snapshot and survives its own checks feeds
      its state machine the log in order: no entry missing, repeated or altered,
      except where a snapshot jumps ahead. */
  lemma StateMachineSeesTheLog(log: map<nat, Entry>, initial: U64, events: seq<Event>, m: Node)
    requires Runs(log, Node(initial, initial, []), events, m)
    ensures Feeds(log, initial, m.tasks) && End(initial, m.tasks) == m.pushed && initial <= m.pushed
  {
    RunFeeds(log, initial, Node(initial, initial, []), events, m);
  }

  /** Later tasks deliver later entries: no index is delivered twice. */
  lemma FeedsInOrder(log: map<nat, Entry>, from: nat, tasks: seq<Task>, i: nat, j: nat, a: nat, b: nat)
    requires Feeds(log, from, tasks) && i < j < |tasks| && tasks[i].Entries? && tasks[j].Entries?
    requires a < |tasks[i].entries| && b < |tasks[j].entries|
    ensures tasks[i].entries[a].index < tasks[j].entries[b].index
  {
    PrefixFeeds(log, from, tasks, j + 1);
    var upto := tasks[..j + 1];
    assert upto[..|upto| - 1] == tasks[..j] && upto[|upto| - 1] == tasks[j];
    PrefixFeeds(log, from, tasks, j);
    FeedsWithin(log, from, tasks[..j], i, a);
  }

  lemma {:induction false} PrefixFeeds(log: map<nat, Entry>, from: nat, tasks: seq<Task>, n: nat)
    requires Feeds(log, from, tasks) && n <= |tasks|
    ensures Feeds(log, from, tasks[..n])
    decreases |tasks|
  {
    if n == |tasks| {
      assert tasks[..n] == tasks;
    } else {
      PrefixFeeds(log, from, tasks[..|tasks| - 1], n);
      assert tasks[..|tasks| - 1][..n] == tasks[..n];
    }
  }

  lemma {:induction false} FeedsWithin(log: map<nat, Entry>, from: nat, tasks: seq<Task>, i: nat, a: nat)
    requires Feeds(log, from, tasks) && i < |tasks| && tasks[i].Entries? && a < |tasks[i].entries|
    ensures tasks[i].entries[a].index <= End(from, tasks)
    decreases |tasks|
  {
    if i < |tasks| - 1 { FeedsWithin(log, from, tasks[..|tasks| - 1], i, a); }
  }

  // ------------------------------------------------------ what each round does

  /** Where the node stands once the round's snapshot, if any, is queued. */
  function Base(n: Node, u: Update): U64 {
    if u.snapshot != 0 then u.snapshot else n.pushed
  }

  predicate SnapshotBehind(n: Node, u: Update) {
    u.snapshot != 0 && (u.snapshot < n.pushed || u.snapshot < n.snapshot || u.snapshot < u.applied)
  }

  /** The round's entries end before where the node stands. */
  predicate EntriesBehind(n: Node, u: Update) {
    u.committed != [] && Last(u.committed) < Base(n, u)
  }

  /** The round's entries start too far ahead; at the very last index they always seem to. */
  predicate EntriesAhead(n: Node, u: Update) {
    u.committed != [] && (u.committed[0].index > Base(n, u) + 1 || Base(n, u) == Last(u.committed) == TWO64 - 1)
  }

  /** The tasks a round queues: a recovery from its snapshot, and the entries behind where
      the node then stands. */
  ghost function Queued(n: Node, u: Update): seq<Task> {
    (if u.snapshot != 0 then [Recover(u.snapshot)] else []) +
    (if u.committed != [] && u.committed[0].index <= Base(n, u) + 1 <= Last(u.committed) && Base(n, u) + 1 - u.committed[0].index <= |u.committed|
     then [Entries(u.committed[Base(n, u) + 1 - u.committed[0].index..])] else [])
  }

  /** A round fails if and only if its snapshot is out of date or its entries do not
      continue from where the node stands; otherwise its snapshot and its new entries are
      queued, in that order, and the node stands at the last of them. */
  lemma RoundIs(n: Node, u: Update)
    requires Contiguous(u.committed)
    ensures ApplyUpdate(n, u) == Failed(OutOfDate) <==> SnapshotBehind(n, u)
    ensures ApplyUpdate(n, u) == Failed(TooOld) <==> !SnapshotBehind(n, u) && EntriesBehind(n, u)
    ensures ApplyUpdate(n, u) == Failed(Hole) <==> !SnapshotBehind(n, u) && !EntriesBehind(n, u) && EntriesAhead(n, u)
    ensures ApplyUpdate(n, u).Fine? ==>
              var m := ApplyUpdate(n, u).value;
              && m.tasks == n.tasks + Queued(n, u)
              && m.snapshot == (if u.snapshot != 0 then u.snapshot else n.snapshot)
              && m.pushed == (if u.committed != [] then Last(u.committed) else Base(n, u))
  {
    if !SnapshotBehind(n, u) {
      var m := PushSnapshot(n, u.snapshot, u.applied).value;
      assert m.pushed == Base(n, u) && m.tasks == n.tasks + if u.snapshot != 0 then [Recover(u.snapshot)] else [];
      TrimIs(m.pushed, u.committed);
    }
  }

  /** Trimming, over natural numbers. */
  lemma TrimIs(pushed: U64, es: seq<Entry>)
    requires Contiguous(es)
    ensures EntriesToApply(pushed, es) == Failed(TooOld) <==> es != [] && Last(es) < pushed
    ensures EntriesToApply(pushed, es) == Failed(Hole) <==>
              es != [] && Last(es) >= pushed && (es[0].index > pushed + 1 || pushed == Last(es) == TWO64 - 1)
    ensures EntriesToApply(pushed, es).Fine? ==>
              EntriesToApply(pushed, es).value ==
              if es != [] && es[0].index <= pushed + 1 <= Last(es) && pushed + 1 - es[0].index <= |es| then es[pushed + 1 - es[0].index..] else []
    ensures EntriesToApply(pushed, es).Fine? && es != [] ==>
              Last(es) == pushed || (EntriesToApply(pushed, es).value != [] && Last(EntriesToApply(pushed, es).value) == Last(es))
    ensures EntriesToApply(pushed, es).Failed? ==> EntriesToApply(pushed, es).why != OutOfDate
  {
    WrappingAgrees(pushed, es);
    if es != [] { assert Last(es) == es[0].index + (|es| - 1); }
  }

  function Recoveries(tasks: seq<Task>): seq<nat> {
    if tasks == [] then []
    else Recoveries(tasks[..|tasks| - 1]) + if tasks[|tasks| - 1].Recover? then [tasks[|tasks| - 1].index] else []
  }

  function Requests(tasks: seq<Task>): seq<nat> {
    if tasks == [] then []
    else Requests(tasks[..|tasks| - 1]) + if tasks[|tasks| - 1].Other? then [tasks[|tasks| - 1].what] else []
  }

  /** The snapshots the rounds bring, and the requests made, in order. */
  function SnapshotsIn(events: seq<Event>): seq<nat> {
    if events == [] then [] else SnapshotOf(events[0]) + SnapshotsIn(events[1..])
  }

  function SnapshotOf(e: Event): seq<nat> {
    if e.Round? && e.update.snapshot != 0 then [e.update.snapshot] else []
  }

  function RequestsIn(events: seq<Event>): seq<nat> {
    if events == [] then [] else RequestOf(events[0]) + RequestsIn(events[1..])
  }

  function RequestOf(e: Event): seq<nat> {
    if e.Request? then [e.what] else []
  }

  lemma OneMore(tasks: seq<Task>, t: Task)
    ensures Recoveries(tasks + [t]) == Recoveries(tasks) + if t.Recover? then [t.index] else []
    ensures Requests(tasks + [t]) == Requests(tasks) + if t.Other? then [t.what] else []
  {
    assert (tasks + [t])[..|tasks|] == tasks;
  }

  lemma RoundQueues(n: Node, u: Update)
    requires Contiguous(u.committed) && ApplyUpdate(n, u).Fine?
    ensures var m := ApplyUpdate(n, u).value;
            && Recoveries(m.tasks) == Recoveries(n.tasks) + (if u.snapshot != 0 then [u.snapshot as nat] else [])
            && Requests(m.tasks) == Requests(n.tasks)
  {
    RoundIs(n, u);
    var first := if u.snapshot != 0 then n.tasks + [Recover(u.snapshot)] else n.tasks;
    if u.snapshot != 0 { OneMore(n.tasks, Recover(u.snapshot)); }
    var rest := EntriesToApply(Base(n, u), u.committed);
    if rest.Fine? && rest.value != [] { OneMore(first, Entries(rest.value)); }
    assert ApplyUpdate(n, u).value.tasks == first || ApplyUpdate(n, u).value.tasks == first + [Entries(rest.value)];
  }

  /** Over any run the recoveries queued are exactly the snapshots its rounds brought, and
      the other tasks exactly the requests made, each in order. */
  lemma {:induction false} RunQueues(log: map<nat, Entry>, n: Node, events: seq<Event>, m: Node)
    requires Runs(log, n, events, m)
    ensures Recoveries(m.tasks) == Recoveries(n.tasks) + SnapshotsIn(events)
    ensures Requests(m.tasks) == Requests(n.tasks) + RequestsIn(events)
    decreases |events|
  {
    if events != [] {
      var t := Next(n, events[0]).value;
      StepQueues(log, n, events[0]);
      RunQueues(log, t, events[1..], m);
      Regroup(Recoveries(n.tasks), SnapshotOf(events[0]), SnapshotsIn(events[1..]));
      Regroup(Requests(n.tasks), RequestOf(events[0]), RequestsIn(events[1..]));
    }
  }

  lemma StepQueues(log: map<nat, Entry>, n: Node, e: Event)
    requires RoundOk(log, e) && Next(n, e).Fine?
    ensures Recoveries(Next(n, e).value.tasks) == Recoveries(n.tasks) + SnapshotOf(e)
    ensures Requests(Next(n, e).value.tasks) == Requests(n.tasks) + RequestOf(e)
  {
    match e
    case Round(u) => RoundQueues(n, u);
    case Saved(_) =>
    case Request(what) => OneMore(n.tasks, Other(what));
  }

  lemma Regroup(a: seq<nat>, b: seq<nat>, c: seq<nat>)
    ensures (a + b) + c == a + (b + c)
  {}

  // -------------------------------------------------------- the node as it runs

  /** A deed of the commit worker: the proposer of an entry is told, a task goes on. */
  datatype Mark = Noticed(entry: Entry) | Passed(task: Task)

  function EntriesOf(t: Task): seq<Entry> {
    if t.Entries? then t.entries else []
  }

  ghost function Notices(es: seq<Entry>): seq<Mark> {
    seq(|es|, i requires 0 <= i < |es| => Noticed(es[i]))
  }

  /** Every task behind the notices of its entries, in order. */
  ghost function Trail(tasks: seq<Task>): seq<Mark> {
    if tasks == [] then []
    else
      var t := tasks[|tasks| - 1];
      Trail(tasks[..|tasks| - 1]) + Notices(EntriesOf(t)) + [Passed(t)]
  }

  /** With commit notification on, tasks pass through a second queue first. */
  class Pipeline {
    const notifyCommit: bool
    var pushedIndex: U64
    var snapshotIndex: U64
    var toCommit: seq<Task>
    var toApply: seq<Task>
    ghost var handed: seq<Task>      // what the state machine has been given
    ghost var trail: seq<Mark>       // what the commit worker has done

    constructor (notifyCommit: bool, initial: U64)
      ensures Now() == Node(initial, initial, []) && Wired() && trail == []
    {
      this.notifyCommit := notifyCommit;
      pushedIndex, snapshotIndex, toCommit, toApply, handed, trail := initial, initial, [], [], [], [];
    }

    /** Everything ever pushed, in the order the state machine gets it. */
    ghost function Now(): Node
      reads this
    {
      Node(pushedIndex, snapshotIndex, handed + toApply + toCommit)
    }

    ghost predicate Wired()
      reads this
    {
      !notifyCommit ==> toCommit == []
    }

    method PushTask(t: Task)
      requires Wired()
      modifies this`toCommit, this`toApply
      ensures Wired() && Now() == old(Now()).(tasks := old(Now()).tasks + [t])
    {
      if notifyCommit {
        toCommit := toCommit + [t];
      } else {
        toApply := toApply + [t];
      }
    }

    /** The commit worker tells the proposers of every entry of a task that it is
        committed, and then passes the task on. */
    method NotifyCommittedEntries()
      requires Wired()
      modifies this`toCommit, this`toApply, this`trail
      ensures Wired() && Now() == old(Now()) && toCommit == []
      ensures trail == old(trail) + Trail(old(toCommit))
    {
      var tasks := toCommit;
      toCommit := [];
      var i := 0;
      assert tasks[..0] == [];
      while i < |tasks|
        invariant 0 <= i <= |tasks|
        invariant toCommit == [] && handed + toApply + tasks[i..] == old(handed + toApply + toCommit)
        invariant trail == old(trail) + Trail(tasks[..i])
      {
        assert tasks[..i + 1][..i] == tasks[..i];
        NotifyEntries(EntriesOf(tasks[i]));
        toApply := toApply + [tasks[i]];
        trail := trail + [Passed(tasks[i])];
        i := i + 1;
      }
      assert tasks[..i] == tasks;
    }

    method NotifyEntries(es: seq<Entry>)
      modifies this`trail
      ensures trail == old(trail) + Notices(es)
    {
      var i := 0;
      while i < |es|
        invariant 0 <= i <= |es| && trail == old(trail) + Notices(es[..i])
      {
        trail := trail + [Noticed(es[i])];
        assert Notices(es[..i + 1]) == Notices(es[..i]) + [Noticed(es[i])];
        i := i + 1;
      }
      assert es[..i] == es;
    }

    /** The apply worker takes everything queued for the state machine. */
    method GetAll() returns (tasks: seq<Task>)
      modifies this`toApply, this`handed
      ensures Now() == old(Now()) && toApply == [] && handed == old(handed) + tasks
    {
      tasks := toApply;
      handed := handed + toApply;
      toApply := [];
    }

    method Trim(es: seq<Entry>) returns (rest: seq<Entry>, fault: Fault<Panic>)
      ensures EntriesToApply(pushedIndex, es) == if fault.Fault? then Failed(fault.why) else Fine(rest)
    {
      if |es| == 0 { return [], NoFault; }
      if es[|es| - 1].index < pushedIndex { return [], Fault(TooOld); }
      var firstIndex := es[0].index;
      if firstIndex > Wrap64(pushedIndex + 1) { return [], Fault(Hole); }
      var skip := Wrap64(Wrap64(pushedIndex - firstIndex) + 1);
      if skip < |es| { return es[skip..], NoFault; }
      return [], NoFault;
    }

    /** One round of updates, snapshot first. */
    method Process(u: Update) returns (fault: Fault<Panic>)
      requires Wired()
      modifies this`toCommit, this`toApply, this`pushedIndex, this`snapshotIndex
      ensures Wired()
      ensures fault.NoFault? ==> ApplyUpdate(old(Now()), u) == Fine(Now())
      ensures fault.Fault? ==> ApplyUpdate(old(Now()), u) == Failed(fault.why)
    {
      if u.snapshot != 0 {
        if u.snapshot < pushedIndex || u.snapshot < snapshotIndex || u.snapshot < u.applied { return Fault(OutOfDate); }
        PushTask(Recover(u.snapshot));
        snapshotIndex, pushedIndex := u.snapshot, u.snapshot;
      }
      var rest;
      rest, fault := Trim(u.committed);
      if fault.NoFault? && |rest| > 0 {
        PushTask(Entries(rest));
        pushedIndex := rest[|rest| - 1].index;
      }
    }
  }
}
