/** Snapshots and log compaction of one node. A snapshot worker records a snapshot,
    asks for the log below it to be removed and deletes old snapshots; the step
    worker removes the log; incoming snapshots are recorded meanwhile. If the node
    restarts at any point it must find a snapshot and every entry after it. */
module LogCompaction {

  import opened Basics

  const SNAPSHOTS_TO_KEEP: nat := 3

  /** A request to save: how much log to keep below the snapshot, and whether the
      snapshot is only exported and not the node's own. */
  datatype Request = Request(index: nat, overhead: nat, exported: bool)

  /** Where the holder of the snapshot lock is. */
  datatype Saver =
    | Free
    | Saved(request: Request)           // the snapshot file is written
    | Recorded(request: Request)        // the snapshot is in the log database
    | Created(request: Request)         // and in the log reader
    | Asked(index: nat)                 // the log below it may go, or is not long enough
    | Deleting(stale: set<nat>)           // old snapshots being deleted

  /** Where the step worker is. */
  datatype Remover = Resting | Seen | Removing(to: nat) | Removed(to: nat)

  datatype State = State(
    snapshots: set<nat>,        // the recorded snapshots
    removedTo: nat,             // every entry up to here is gone from the log
    compactedTo: nat,           // and its space reclaimed up to here
    toRemove: nat,              // the two swap registers, zero when empty
    toCompact: nat,
    saver: Saver,
    remover: Remover,
    ever: set<nat>,             // every snapshot ever recorded
    asked: set<(nat, nat)>,     // snapshots whose log may go, with their overheads
    calls: seq<nat>)            // every removal from the log, in order

  datatype Outcome = Fine(state: State) | RacyRegister

  function New(): State {
    State({}, 0, 0, 0, 0, Free, Resting, {}, {}, [])
  }

  // ---------------------------------------------------------- which to delete

  /** How many of the snapshots lie above `x` and not above `upTo`. */
  function Above(s: set<nat>, x: nat, upTo: nat): set<nat> {
    set y | y in s && x < y <= upTo
  }

  /** The snapshots up to `upTo` except the newest few. */
  function Selected(s: set<nat>, upTo: nat): set<nat> {
    set x | x in s && x <= upTo && |Above(s, x, upTo)| >= SNAPSHOTS_TO_KEEP
  }

  // ------------------------------------------------------------------ steps

  datatype Action =
    | Save(request: Request)     // the state machine has written a snapshot
    | Record | Create(ok: bool) | Ask
    | Recover(index: nat)        // recovery from a snapshot ends with deleting old ones
    | Select | Delete(index: nat) | Finish
    | GiveUp                     // the snapshot is not recorded, or not all old ones are deleted
    | Install(index: nat)        // a snapshot from the leader is recorded
    | Look | Swap | Remove | Publish
    | Compact

  predicate Enabled(s: State, a: Action) {
    match a
    case Save(_) => s.saver == Free
    case Record => s.saver.Saved? && !s.saver.request.exported
    case Create(_) => s.saver.Recorded?
    case Ask => s.saver.Created?
    case Recover(_) => s.saver == Free
    case Select => s.saver.Asked?
    case Delete(x) => s.saver.Deleting? && x in s.saver.stale
    case Finish => (s.saver.Deleting? && s.saver.stale == {}) || (s.saver.Saved? && s.saver.request.exported)
    case GiveUp => s.saver.Saved? || s.saver.Deleting?
    case Install(index) => index > 0
    case Look => s.remover == Resting
    case Swap => s.remover == Seen
    case Remove => s.remover.Removing?
    case Publish => s.remover.Removed?
    case Compact => true
  }

  function Max(a: nat, b: nat): nat {
    if a < b then b else a
  }

  function Next(s: State, a: Action): Outcome
    requires Enabled(s, a)
  {
    match a
    case Save(r) => Fine(s.(saver := Saved(r)))
    case Record =>
      var i := s.saver.request.index;
      Fine(s.(snapshots := s.snapshots + {i}, ever := s.ever + {i}, saver := Recorded(s.saver.request)))
    case Create(ok) => Fine(s.(saver := if ok then Created(s.saver.request) else Free))
    case Ask =>
      var r := s.saver.request;
      if r.index > r.overhead then
        Fine(s.(toRemove := r.index - r.overhead, asked := s.asked + {(r.index, r.overhead)}, saver := Asked(r.index)))
      else Fine(s.(saver := Asked(r.index)))
    case Recover(index) => Fine(s.(saver := if index > 0 then Asked(index) else Free))
    case Select => Fine(s.(saver := Deleting(Selected(s.snapshots, s.saver.index))))
    case Delete(x) => Fine(s.(snapshots := s.snapshots - {x}, saver := Deleting(s.saver.stale - {x})))
    case Finish => Fine(s.(saver := Free))
    case GiveUp => Fine(s.(saver := Free))
    case Install(index) => Fine(s.(snapshots := s.snapshots + {index}, ever := s.ever + {index}))
    case Look => Fine(if s.toRemove > 0 then s.(remover := Seen) else s)
    case Swap => if s.toRemove == 0 then RacyRegister else Fine(s.(remover := Removing(s.toRemove), toRemove := 0))
    case Remove =>
      Fine(s.(removedTo := Max(s.removedTo, s.remover.to), calls := s.calls + [s.remover.to], remover := Removed(s.remover.to)))
    case Publish => Fine(s.(toCompact := s.remover.to, remover := Resting))
    case Compact => Fine(s.(compactedTo := Max(s.compactedTo, s.toCompact), toCompact := 0))
  }

  // -------------------------------------------------------------- invariant

  /** Is there a recorded snapshot at or above `v`? */
  ghost predicate Covered(s: set<nat>, v: nat) {
    v == 0 || exists x :: x in s && v <= x
  }

  /** A removal keeps the overhead of some snapshot that was recorded. */
  ghost predicate Allowed(asked: set<(nat, nat)>, v: nat) {
    exists p :: p in asked && p.1 < p.0 && v == p.0 - p.1
  }

  /** Everything in `stale` has a newer snapshot that stays. */
  ghost predicate Outlived(s: set<nat>, stale: set<nat>) {
    forall x :: x in stale ==> HasNewer(s, stale, x)
  }

  ghost predicate HasNewer(s: set<nat>, stale: set<nat>, x: nat) {
    exists y :: y in s && y !in stale && x < y
  }

  ghost predicate AllCovered(s: set<nat>, ever: set<nat>) {
    forall x :: x in ever ==> Covered(s, x)
  }

  ghost predicate Saving(s: State) {
    match s.saver
    case Recorded(r) => r.index in s.ever
    case Created(r) => r.index in s.ever
    case Deleting(stale) => Outlived(s.snapshots, stale)
    case _ => true
  }

  ghost predicate Inv(s: State) {
    && AllCovered(s.snapshots, s.ever)
    && s.snapshots <= s.ever
    && (forall p :: p in s.asked ==> p.0 in s.ever)
    && Removals(s.asked, s.toRemove, s.remover, s.removedTo, s.calls)
    && s.toCompact <= s.removedTo && s.compactedTo <= s.removedTo
    && Saving(s)
  }

  /** Whatever is to be removed, or was, was allowed. */
  ghost predicate Removals(asked: set<(nat, nat)>, toRemove: nat, remover: Remover, removedTo: nat, calls: seq<nat>) {
    && (toRemove > 0 ==> Allowed(asked, toRemove))
    && (remover.Removing? || remover.Removed? ==> Allowed(asked, remover.to))
    && (remover.Removed? ==> remover.to <= removedTo)
    && (remover == Seen ==> toRemove > 0)
    && (removedTo > 0 ==> removedTo in calls)
    && (forall i :: 0 <= i < |calls| ==> Allowed(asked, calls[i]))
  }

  lemma SelectedLeavesNewer(s: set<nat>, upTo: nat, x: nat)
    requires x in Selected(s, upTo)
    ensures HasNewer(s, Selected(s, upTo), x)
  {
    var above := Above(s, x, upTo);
    assert above != {};
    var y :| y in above && forall z :: z in above ==> z <= y by { HasMax(above); }
    forall z | z in s && x < z <= upTo ensures z <= y { assert z in above; }
    assert Above(s, y, upTo) == {};
  }

  lemma {:induction false} HasMax(s: set<nat>)
    requires s != {}
    ensures exists y :: y in s && forall z :: z in s ==> z <= y
    decreases |s|
  {
    var x :| x in s;
    var rest := s - {x};
    if rest != {} {
      HasMax(rest);
      var y :| y in rest && forall z :: z in rest ==> z <= y;
      assert forall z :: z in s ==> z == x || z in rest;
      var m := Max(x, y);
      assert m in s && forall z :: z in s ==> z <= m;
    } else {
      forall z | z in s ensures z <= x { assert z == x || z in rest; }
    }
  }

  lemma CoveredMore(s: set<nat>, t: set<nat>, v: nat)
    requires Covered(s, v) && s <= t
    ensures Covered(t, v)
  {}

  /** Deleting a snapshot that has a newer one leaves everything covered. */
  lemma CoveredLess(s: set<nat>, v: nat, x: nat, y: nat)
    requires Covered(s, v) && y in s && x < y
    ensures Covered(s - {x}, v)
  {
    if v > 0 {
      var z :| z in s && v <= z;
      assert (if z == x then y else z) in s - {x};
    }
  }

  lemma OutlivedMore(s: set<nat>, t: set<nat>, stale: set<nat>)
    requires Outlived(s, stale) && s <= t
    ensures Outlived(t, stale)
  {
    forall x | x in stale ensures HasNewer(t, stale, x) {
      var y :| y in s && y !in stale && x < y;
      assert y in t;
    }
  }

  lemma RecordKeeps(s: State, i: nat, saver: Saver)
    requires Inv(s) && (saver == s.saver || (saver.Recorded? && saver.request.index == i))
    ensures Inv(s.(snapshots := s.snapshots + {i}, ever := s.ever + {i}, saver := saver))
  {
    var t := s.(snapshots := s.snapshots + {i}, ever := s.ever + {i}, saver := saver);
    forall x | x in t.ever ensures Covered(t.snapshots, x) {
      if x in s.ever { CoveredMore(s.snapshots, t.snapshots, x); } else { assert i in t.snapshots; }
    }
    if saver.Deleting? { OutlivedMore(s.snapshots, t.snapshots, saver.stale); }
  }

  lemma DeleteOne(s: set<nat>, ever: set<nat>, stale: set<nat>, x: nat)
    requires AllCovered(s, ever) && Outlived(s, stale) && x in stale
    ensures AllCovered(s - {x}, ever) && Outlived(s - {x}, stale - {x})
  {
    assert HasNewer(s, stale, x);
    var y :| y in s && y !in stale && x < y;
    forall v | v in ever ensures Covered(s - {x}, v) { CoveredLess(s, v, x, y); }
    forall z | z in stale - {x} ensures HasNewer(s - {x}, stale - {x}, z) {
      assert HasNewer(s, stale, z);
      var w :| w in s && w !in stale && z < w;
      assert w in s - {x};
    }
  }

  lemma DeleteKeeps(s: State, x: nat)
    requires Inv(s) && Enabled(s, Delete(x))
    ensures Inv(Next(s, Delete(x)).state)
  {
    DeleteOne(s.snapshots, s.ever, s.saver.stale, x);
  }

  lemma AllowedMore(asked: set<(nat, nat)>, more: set<(nat, nat)>, v: nat)
    requires Allowed(asked, v) && asked <= more
    ensures Allowed(more, v)
  {}

  lemma AskKeeps(s: State)
    requires Inv(s) && Enabled(s, Ask)
    ensures Inv(Next(s, Ask).state)
  {
    var r, t := s.saver.request, Next(s, Ask).state;
    if r.index > r.overhead {
      assert (r.index, r.overhead) in t.asked;
      if s.remover.Removing? || s.remover.Removed? { AllowedMore(s.asked, t.asked, s.remover.to); }
      forall i | 0 <= i < |t.calls| ensures Allowed(t.asked, t.calls[i]) { AllowedMore(s.asked, t.asked, t.calls[i]); }
    }
  }

  lemma RemoveKeeps(s: State)
    requires Inv(s) && Enabled(s, Remove)
    ensures Inv(Next(s, Remove).state)
  {
    var t := Next(s, Remove).state;
    assert t.calls[|s.calls|] == s.remover.to;
    if s.removedTo > 0 {
      var i :| 0 <= i < |s.calls| && s.calls[i] == s.removedTo;
      assert t.calls[i] == s.removedTo;
    }
  }

  ghost predicate Good(o: Outcome) {
    o.Fine? && Inv(o.state)
  }

  lemma StepKeeps(s: State, a: Action)
    requires Inv(s) && Enabled(s, a)
    ensures Good(Next(s, a))
  {
    match a
    case Save(_) =>
    case Record => RecordKeeps(s, s.saver.request.index, Recorded(s.saver.request));
    case Create(_) =>
    case Ask => AskKeeps(s);
    case Recover(_) =>
    case Select => SelectedAreOutlived(s.snapshots, s.saver.index);
    case Delete(x) => DeleteKeeps(s, x);
    case Finish =>
    case GiveUp =>
    case Install(index) => RecordKeeps(s, index, s.saver);
    case Look =>
    case Swap =>
    case Remove => RemoveKeeps(s);
    case Publish =>
    case Compact =>
  }

  ghost predicate Runs(s: State, actions: seq<Action>, t: State)
    decreases |actions|
  {
    if actions == [] then s == t
    else
      && Enabled(s, actions[0])
      && Next(s, actions[0]).Fine?
      && Runs(Next(s, actions[0]).state, actions[1..], t)
  }

  lemma {:induction false} RunKeeps(s: State, actions: seq<Action>, t: State)
    requires Inv(s) && Runs(s, actions, t)
    ensures Inv(t)
    decreases |actions|
  {
    if actions != [] {
      StepKeeps(s, actions[0]);
      RunKeeps(Next(s, actions[0]).state, actions[1..], t);
    }
  }

  ghost predicate Reachable(s: State) {
    exists actions :: Runs(New(), actions, s)
  }

  lemma ReachableInv(s: State)
    requires Reachable(s)
    ensures Inv(s)
  {
    var actions :| Runs(New(), actions, s);
    RunKeeps(New(), actions, s);
  }

  /** The register the step worker saw filled is never found empty. */
  lemma NeverRacy(s: State, a: Action)
    requires Reachable(s) && Enabled(s, a)
    ensures Next(s, a).Fine?
  {
    ReachableInv(s);
    StepKeeps(s, a);
  }

  /** A node that restarts in any reachable state finds a snapshot from which the
      retained log goes on: nothing after the newest snapshot has been removed. */
  lemma NoRecoveryHole(s: State, newest: nat)
    requires Reachable(s)
    requires if s.snapshots == {} then newest == 0 else newest in s.snapshots && forall x :: x in s.snapshots ==> x <= newest
    ensures s.compactedTo <= s.removedTo <= newest
  {
    ReachableInv(s);
    if s.removedTo > 0 {
      var i :| 0 <= i < |s.calls| && s.calls[i] == s.removedTo;
      assert Allowed(s.asked, s.calls[i]);
      var p :| p in s.asked && p.1 < p.0 && s.calls[i] == p.0 - p.1;
      assert Covered(s.snapshots, p.0);
    }
  }

  /** The newest snapshot ever recorded is still there. */
  lemma NewestIsNeverDeleted(s: State, newest: nat)
    requires Reachable(s) && newest in s.ever && (forall x :: x in s.ever ==> x <= newest) && newest > 0
    ensures newest in s.snapshots
  {
    ReachableInv(s);
    assert Covered(s.snapshots, newest);
    var x :| x in s.snapshots && newest <= x;
  }

  /** Every removal from the log is positive and keeps the overhead asked for below
      some recorded snapshot. */
  lemma RemovalsAreAllowed(s: State, i: nat)
    requires Reachable(s) && i < |s.calls|
    ensures exists p :: p in s.asked && p.0 in s.ever && p.1 < p.0 && s.calls[i] == p.0 - p.1
  {
    ReachableInv(s);
    assert Allowed(s.asked, s.calls[i]);
    var p :| p in s.asked && p.1 < p.0 && s.calls[i] == p.0 - p.1;
    assert p.0 in s.ever;
  }

  // ----------------------------------------------------- the node as it runs

  ghost predicate Ascending(s: seq<nat>) {
    forall i, j :: 0 <= i < j < |s| ==> s[i] < s[j]
  }

  lemma {:induction false} ElementsCount(s: seq<nat>)
    requires Ascending(s)
    ensures |Elements(s)| == |s|
  {
    if s == [] {
      assert Elements(s) == {};
    } else {
      var init, last := s[..|s| - 1], s[|s| - 1];
      ElementsCount(init);
      assert s == init + [last];
      assert Elements(s) == Elements(init) + {last};
      assert last !in init;
    }
  }

  /** In an ascending table, the snapshots above position `i` up to position `n` are
      the `n - 1 - i` next ones. */
  lemma AboveInTable(table: seq<nat>, n: nat, upTo: nat, i: nat)
    requires Ascending(table) && i < n <= |table|
    requires forall k :: 0 <= k < |table| ==> (table[k] <= upTo <==> k < n)
    ensures |Above(Elements(table), table[i], upTo)| == n - 1 - i
  {
    var next := table[i + 1..n];
    forall y ensures y in Above(Elements(table), table[i], upTo) <==> y in next {
      if y in table {
        var k :| 0 <= k < |table| && table[k] == y;
        assert i < k < n <==> table[i] < y <= upTo;
        if i < k < n { assert next[k - i - 1] == y; }
      }
      if y in next {
        var k :| 0 <= k < |next| && next[k] == y;
        assert table[i + 1 + k] == y;
      }
    }
    assert Above(Elements(table), table[i], upTo) == Elements(next);
    ElementsCount(next);
  }

  /** The snapshot table of one node, oldest first. */
  class Snapshotter {
    var table: seq<nat>

    /** How many of the snapshots are not above `upTo`. */
    method Count(upTo: nat) returns (n: nat)
      requires Ascending(table)
      ensures n <= |table| && forall k :: 0 <= k < |table| ==> (table[k] <= upTo <==> k < n)
    {
      n := 0;
      while n < |table| && table[n] <= upTo
        invariant n <= |table| && forall k :: 0 <= k < n ==> table[k] <= upTo
      {
        n := n + 1;
      }
    }

    method Delete(index: nat)
      requires Ascending(table) && |table| > 0 && table[0] == index
      modifies this
      ensures Ascending(table) && table == old(table)[1..]
    {
      table := table[1..];
    }

    /** Delete the snapshots up to `upTo` except the newest few, oldest first. */
    method Compact(upTo: nat)
      requires Ascending(table)
      modifies this
      ensures Ascending(table)
      ensures Elements(table) == Elements(old(table)) - Selected(Elements(old(table)), upTo)
      ensures old(table) != [] ==> table != [] && table[|table| - 1] == old(table)[|old(table)| - 1]
    {
      ghost var was := table;
      var n := Count(upTo);
      forall i | 0 <= i < n ensures was[i] in Selected(Elements(was), upTo) <==> i < n - SNAPSHOTS_TO_KEEP {
        AboveInTable(was, n, upTo, i);
      }
      if n <= SNAPSHOTS_TO_KEEP {
        assert Selected(Elements(was), upTo) == {};
        return;
      }
      var i := 0;
      while i < n - SNAPSHOTS_TO_KEEP
        invariant 0 <= i <= n - SNAPSHOTS_TO_KEEP
        invariant table == was[i..] && Ascending(table)
      {
        Delete(table[0]);
        i := i + 1;
      }
      KeptElements(was, i, n, upTo);
    }

    method GetMostRecentSnapshot() returns (found: bool, index: nat)
      requires Ascending(table)
      ensures found <==> table != []
      ensures found ==> index in table && forall x :: x in table ==> x <= index
    {
      if |table| > 0 { return true, table[|table| - 1]; }
      return false, 0;
    }
  }

  lemma KeptElements(was: seq<nat>, m: nat, n: nat, upTo: nat)
    requires Ascending(was) && m <= n <= |was|
    requires forall k :: 0 <= k < |was| ==> (was[k] <= upTo <==> k < n)
    requires forall i :: 0 <= i < n ==> (was[i] in Selected(Elements(was), upTo) <==> i < m)
    ensures Elements(was[m..]) == Elements(was) - Selected(Elements(was), upTo)
  {
    forall x ensures x in was[m..] <==> x in was && x !in Selected(Elements(was), upTo) {
      if x in was {
        var k :| 0 <= k < |was| && was[k] == x;
        if k >= m { assert was[m..][k - m] == x; }
      }
      if x in was[m..] {
        var k :| 0 <= k < |was[m..]| && was[m..][k] == x;
        assert was[m + k] == x;
      }
    }
  }

  // Saving and removing, each undisturbed, in one go.

  function RecordSnapshot(s: State, r: Request): State {
    s.(snapshots := s.snapshots + {r.index}, ever := s.ever + {r.index})
  }

  function Release(s: State, r: Request): State {
    if r.index > r.overhead then s.(toRemove := r.index - r.overhead, asked := s.asked + {(r.index, r.overhead)}) else s
  }

  function DeleteOld(s: State, upTo: nat): State {
    s.(snapshots := s.snapshots - Selected(s.snapshots, upTo))
  }

  function RemoveTo(s: State, to: nat): State {
    s.(toRemove := 0, removedTo := Max(s.removedTo, to), calls := s.calls + [to], toCompact := to)
  }

  lemma SaverKeeps(s: State, saver: Saver)
    requires Inv(s) && Saving(s.(saver := saver))
    ensures Inv(s.(saver := saver))
  {}

  lemma ReleaseKeeps(s: State, r: Request)
    requires Inv(s) && s.saver == Free && r.index in s.ever
    ensures Inv(Release(s, r))
  {
    var t := s.(saver := Created(r));
    SaverKeeps(s, Created(r));
    AskKeeps(t);
    SaverKeeps(Next(t, Ask).state, Free);
  }

  lemma CoveredWithout(s: set<nat>, stale: set<nat>, v: nat)
    requires Outlived(s, stale) && Covered(s, v)
    ensures Covered(s - stale, v)
  {
    if v > 0 {
      var x :| x in s && v <= x;
      if x in stale {
        assert HasNewer(s, stale, x);
        var y :| y in s && y !in stale && x < y;
        assert y in s - stale;
      } else {
        assert x in s - stale;
      }
    }
  }

  lemma SelectedAreOutlived(s: set<nat>, upTo: nat)
    ensures Outlived(s, Selected(s, upTo))
  {
    forall x | x in Selected(s, upTo) ensures HasNewer(s, Selected(s, upTo), x) { SelectedLeavesNewer(s, upTo, x); }
  }

  lemma DeleteOldKeeps(s: State, upTo: nat)
    requires Inv(s) && s.saver == Free
    ensures Inv(DeleteOld(s, upTo))
  {
    var stale := Selected(s.snapshots, upTo);
    SelectedAreOutlived(s.snapshots, upTo);
    forall v | v in s.ever ensures Covered(s.snapshots - stale, v) { CoveredWithout(s.snapshots, stale, v); }
  }

  lemma SaveKeeps(s: State, r: Request)
    requires Inv(s) && s.saver == Free
    ensures Inv(RecordSnapshot(s, r))
    ensures Inv(DeleteOld(Release(RecordSnapshot(s, r), r), r.index))
  {
    RecordKeeps(s, r.index, Free);
    ReleaseKeeps(RecordSnapshot(s, r), r);
    DeleteOldKeeps(Release(RecordSnapshot(s, r), r), r.index);
  }

  lemma RemoveToKeeps(s: State)
    requires Inv(s) && s.remover == Resting && s.toRemove > 0
    ensures Inv(RemoveTo(s, s.toRemove))
  {
    var t := s.(remover := Removing(s.toRemove), toRemove := 0);
    StepKeeps(s.(remover := Seen), Swap);
    RemoveKeeps(t);
    StepKeeps(Next(t, Remove).state, Publish);
  }

  /** How saving turns out. A soft failure ends it quietly: the save was aborted, or a
      snapshot from the leader came first. */
  datatype Fate =
    | AllWell
    | SaveStops(soft: bool)            // the state machine did not save
    | CommitStops(soft: bool)          // the snapshot was not recorded
    | CreateStops(soft: bool)          // the log reader refused it
    | CompactFails(deleted: set<nat>)  // only some old snapshots were deleted

  /** Whatever stops a save, what it leaves behind is in order. */
  lemma StoppedSaveKeeps(s: State, r: Request, deleted: set<nat>)
    requires Inv(s) && s.saver == Free
    ensures Inv(RecordSnapshot(s, r))
    ensures var released := Release(RecordSnapshot(s, r), r);
            Inv(released.(snapshots := released.snapshots - deleted * Selected(released.snapshots, r.index)))
  {
    RecordKeeps(s, r.index, s.saver);
    ReleaseKeeps(RecordSnapshot(s, r), r);
    var released := Release(RecordSnapshot(s, r), r);
    SomeDeleted(released, deleted, r.index);
  }

  lemma SomeDeleted(s: State, deleted: set<nat>, upTo: nat)
    requires Inv(s) && s.saver == Free
    ensures Inv(s.(snapshots := s.snapshots - deleted * Selected(s.snapshots, upTo)))
  {
    var stale := Selected(s.snapshots, upTo);
    var t := s.(snapshots := s.snapshots - deleted * stale);
    SelectedAreOutlived(s.snapshots, upTo);
    forall x | x in s.ever ensures Covered(t.snapshots, x) {
      CoveredWithout(s.snapshots, stale, x);
      CoveredMore(s.snapshots - stale, t.snapshots, x);
    }
  }

  /** What a save leaves behind, if it is not skipped. */
  function SaveTo(s: State, r: Request, fate: Fate): State {
    if fate.SaveStops? || fate.CommitStops? || r.exported then s
    else
      var recorded := RecordSnapshot(s, r);
      var released := Release(recorded, r);
      match fate
      case CreateStops(_) => recorded
      case CompactFails(deleted) => released.(snapshots := released.snapshots - deleted * Selected(released.snapshots, r.index))
      case _ => DeleteOld(released, r.index)
  }

  lemma RunsOn(s: State, a: Action, next: State, rest: seq<Action>, t: State)
    requires Enabled(s, a) && Next(s, a) == Fine(next) && Runs(next, rest, t)
    ensures Runs(s, [a] + rest, t)
  {
    assert ([a] + rest)[1..] == rest;
  }

  /** Deleting some of the selected snapshots, one after the other, and then ending. */
  lemma {:induction false} DeleteRun(s: State, gone: set<nat>, last: Action) returns (actions: seq<Action>)
    requires s.saver.Deleting? && gone <= s.saver.stale
    requires if gone == s.saver.stale then last == Finish else last == GiveUp
    ensures forall i :: 0 <= i < |actions| ==> actions[i].Delete?
    ensures Runs(s, actions + [last], s.(snapshots := s.snapshots - gone, saver := Free))
    decreases |gone|
  {
    var t := s.(snapshots := s.snapshots - gone, saver := Free);
    if gone == {} {
      actions := [];
      assert s.snapshots - gone == s.snapshots;
      RunsOn(s, last, t, [], t);
      assert actions + [last] == [last] + [];
    } else {
      var x :| x in gone;
      var next := Next(s, Delete(x)).state;
      assert gone - {x} + {x} == gone && s.saver.stale - {x} + {x} == s.saver.stale;
      var rest := DeleteRun(next, gone - {x}, last);
      assert s.snapshots - {x} - (gone - {x}) == s.snapshots - gone;
      actions := [Delete(x)] + rest;
      RunsOn(s, Delete(x), next, rest + [last], t);
      assert actions + [last] == [Delete(x)] + (rest + [last]);
    }
  }

  /** Once the snapshot is in the log reader: ask for the log, select, delete. */
  lemma CompactRun(s: State, r: Request, gone: set<nat>, last: Action) returns (deletes: seq<Action>)
    requires s.saver == Created(r) && gone <= Selected(s.snapshots, r.index)
    requires if gone == Selected(s.snapshots, r.index) then last == Finish else last == GiveUp
    ensures forall i :: 0 <= i < |deletes| ==> deletes[i].Delete?
    ensures var t := Release(s.(saver := Free), r);
            Runs(s, [Ask] + ([Select] + (deletes + [last])), t.(snapshots := t.snapshots - gone))
  {
    var asked := Next(s, Ask).state;
    var selected := Next(asked, Select).state;
    deletes := DeleteRun(selected, gone, last);
    var t := selected.(snapshots := selected.snapshots - gone, saver := Free);
    RunsOn(asked, Select, selected, deletes + [last], t);
    RunsOn(s, Ask, asked, [Select] + (deletes + [last]), t);
  }

  /** The steps of a save, if its fate is to get as far as recording the snapshot. */
  lemma RecordedRun(s: State, r: Request, ok: bool, rest: seq<Action>, t: State)
    requires s.saver == Free && !r.exported
    requires Runs(RecordSnapshot(s, r).(saver := if ok then Created(r) else Free), rest, t)
    ensures Runs(s, [Save(r)] + ([Record] + ([Create(ok)] + rest)), t)
  {
    var saved := s.(saver := Saved(r));
    var recorded := RecordSnapshot(s, r).(saver := Recorded(r));
    RunsOn(recorded, Create(ok), RecordSnapshot(s, r).(saver := if ok then Created(r) else Free), rest, t);
    RunsOn(saved, Record, recorded, [Create(ok)] + rest, t);
    RunsOn(s, Save(r), saved, [Record] + ([Create(ok)] + rest), t);
  }

  /** A save nobody disturbs is a run of the saver's steps, whatever becomes of it. */
  lemma SaveIsARun(s: State, r: Request, fate: Fate) returns (actions: seq<Action>)
    requires s.saver == Free
    ensures Runs(s, actions, SaveTo(s, r, fate))
    ensures fate == AllWell && !r.exported ==> [Save(r), Record, Create(true), Ask, Select] <= actions
  {
    if fate.SaveStops? {
      actions := [];
    } else if fate.CommitStops? || r.exported {
      var saved := s.(saver := Saved(r));
      var last := if r.exported then Finish else GiveUp;
      RunsOn(saved, last, s, [], s);
      RunsOn(s, Save(r), saved, [last] + [], s);
      actions := [Save(r)] + ([last] + []);
    } else if fate.CreateStops? {
      RecordedRun(s, r, false, [], RecordSnapshot(s, r));
      actions := [Save(r)] + ([Record] + ([Create(false)] + []));
    } else {
      var created := RecordSnapshot(s, r).(saver := Created(r));
      var stale := Selected(created.snapshots, r.index);
      var gone := if fate.CompactFails? then fate.deleted * stale else stale;
      var last := if gone == stale then Finish else GiveUp;
      var deletes := CompactRun(created, r, gone, last);
      RecordedRun(s, r, true, [Ask] + ([Select] + (deletes + [last])), SaveTo(s, r, fate));
      actions := [Save(r)] + ([Record] + ([Create(true)] + ([Ask] + ([Select] + (deletes + [last])))));
    }
  }

  /** A recovery nobody disturbs ends with the old snapshots deleted, as a save does. */
  lemma RecoveryIsARun(s: State, index: nat) returns (deletes: seq<Action>)
    requires s.saver == Free && index > 0
    ensures forall i :: 0 <= i < |deletes| ==> deletes[i].Delete?
    ensures Runs(s, [Recover(index)] + ([Select] + (deletes + [Finish])), DeleteOld(s, index))
  {
    var asked := s.(saver := Asked(index));
    var selected := Next(asked, Select).state;
    deletes := DeleteRun(selected, selected.saver.stale, Finish);
    RunsOn(asked, Select, selected, deletes + [Finish], DeleteOld(s, index));
    RunsOn(s, Recover(index), asked, [Select] + (deletes + [Finish]), DeleteOld(s, index));
  }

  /** A save that gets past the log reader leaves the register holding exactly the log
      below the snapshot less the overhead; any other leaves the register alone. */
  lemma SaveReleases(s: State, r: Request, fate: Fate)
    ensures SaveTo(s, r, fate).toRemove ==
            if (fate == AllWell || fate.CompactFails?) && !r.exported && r.index > r.overhead then r.index - r.overhead else s.toRemove
  {}

  /** What the register holds, the step worker removes and the log database reclaims. */
  lemma ReleasedLogGoes(s: State)
    requires s.remover == Resting && s.toRemove > 0
    ensures Runs(s, [Look] + ([Swap] + ([Remove] + ([Publish] + []))), RemoveTo(s, s.toRemove))
    ensures var t := RemoveTo(s, s.toRemove);
            && t.toRemove == 0 && t.removedTo == Max(s.removedTo, s.toRemove) && t.calls == s.calls + [s.toRemove]
            && Next(t, Compact) == Fine(t.(compactedTo := Max(s.compactedTo, s.toRemove), toCompact := 0))
  {
    var seen := s.(remover := Seen);
    var swapped := s.(remover := Removing(s.toRemove), toRemove := 0);
    var removed := Next(swapped, Remove).state;
    var t := RemoveTo(s, s.toRemove);
    RunsOn(removed, Publish, t, [], t);
    RunsOn(swapped, Remove, removed, [Publish] + [], t);
    RunsOn(seen, Swap, swapped, [Remove] + ([Publish] + []), t);
    RunsOn(s, Look, seen, [Swap] + ([Remove] + ([Publish] + [])), t);
  }

  /** The snapshots a step records: its own, or one from the leader. */
  function RecordedBy(s: State, a: Action): set<nat> {
    if a.Install? then {a.index} else if a == Record && s.saver.Saved? then {s.saver.request.index} else {}
  }

  /** A recorded snapshot is there from that step on until it is deleted. */
  lemma StepRecords(s: State, a: Action)
    requires Enabled(s, a) && Next(s, a).Fine?
    ensures var t := Next(s, a).state;
            && t.ever == s.ever + RecordedBy(s, a)
            && t.snapshots == s.snapshots + RecordedBy(s, a) - if a.Delete? then {a.index} else {}
  {}

  class NodeLog {
    var snapshots: set<nat>
    var removedTo: nat
    var compactedTo: nat
    var toRemove: nat
    var toCompact: nat
    ghost var ever: set<nat>
    ghost var asked: set<(nat, nat)>
    ghost var calls: seq<nat>

    ghost function Now(): State
      reads this
    {
      State(snapshots, removedTo, compactedTo, toRemove, toCompact, Free, Resting, ever, asked, calls)
    }

    /** Record a snapshot, release the log below it, and delete old snapshots, unless
        something goes wrong on the way. */
    method DoSave(r: Request, applied: nat, snapshotIndex: nat, fate: Fate) returns (index: nat, failed: bool)
      modifies this`snapshots, this`toRemove, this`ever, this`asked
      ensures if !r.exported && applied <= snapshotIndex then index == 0 && !failed && unchanged(this)
              else
                && Now() == SaveTo(old(Now()), r, fate)
                && index == (if fate == AllWell then r.index else if r.exported && (fate.CreateStops? || fate.CompactFails?) then r.index else 0)
                && (failed <==> match fate {
                      case AllWell => false
                      case SaveStops(soft) => !soft
                      case CommitStops(soft) => !soft
                      case CreateStops(soft) => !r.exported && !soft
                      case CompactFails(_) => !r.exported
                    })
      ensures applied > snapshotIndex && fate == AllWell && !r.exported && r.index > r.overhead ==>
                toRemove == r.index - r.overhead
    {
      if !r.exported && applied <= snapshotIndex { return 0, false; }
      if fate.SaveStops? || fate.CommitStops? { return 0, !fate.soft; }
      if r.exported { return r.index, false; }
      snapshots, ever := snapshots + {r.index}, ever + {r.index};
      if fate.CreateStops? { return 0, !fate.soft; }
      if r.index > r.overhead {
        toRemove := r.index - r.overhead;
        asked := asked + {(r.index, r.overhead)};
      }
      var selected := Selected(snapshots, r.index);
      if fate.CompactFails? {
        snapshots := snapshots - fate.deleted * selected;
        return 0, true;
      }
      snapshots := snapshots - selected;
      return r.index, false;
    }

    /** Remove the log as far as the register says. */
    method RemoveLog() returns (racy: bool)
      requires Inv(Now())
      modifies this`toRemove, this`removedTo, this`toCompact, this`calls
      ensures !racy && Inv(Now())
      ensures Now() == if old(toRemove) == 0 then old(Now()) else RemoveTo(old(Now()), old(toRemove))
    {
      if toRemove > 0 {
        RemoveToKeeps(Now());
        var to := toRemove;
        toRemove := 0;
        if to == 0 { return true; }
        removedTo, calls := Max(removedTo, to), calls + [to];
        toCompact := to;
      }
      return false;
    }

    method RequestCompaction() returns (accepted: bool)
      requires Inv(Now())
      modifies this`compactedTo, this`toCompact
      ensures Inv(Now()) && toCompact == 0 && accepted == (old(toCompact) > 0)
      ensures compactedTo == Max(old(compactedTo), old(toCompact))
    {
      StepKeeps(Now(), Action.Compact);
      var to := toCompact;
      toCompact := 0;
      if to > 0 { compactedTo := Max(compactedTo, to); }
      return to > 0;
    }
  }
}
