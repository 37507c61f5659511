/** The read tracker as it runs: a queue, a map of batches and their slots, and the
    loops over them. Each method is proved against the step it carries out. */
module ReadIndexMachine {
  import opened Basics
  import opened ReadIndex
  import opened ReadIndexRuns

  datatype Answer = Accepted | TimeoutTooSmall | SystemBusy | ClusterClosed

  lemma ListsMore(walk: seq<Ctx>, keys: set<Ctx>, c: Ctx)
    requires Lists(walk, keys) && c !in keys
    ensures Lists(walk + [c], keys + {c})
  {
    var more := walk + [c];
    forall i, j | 0 <= i < j < |more| ensures more[i] != more[j] { assert walk[i] in keys; }
  }

  /** The order in which a map with these keys happens to be walked. */
  method WalkOf(keys: set<Ctx>) returns (walk: seq<Ctx>)
    ensures Lists(walk, keys)
  {
    walk := [];
    var todo := keys;
    ghost var done: set<Ctx> := {};
    while todo != {}
      invariant todo + done == keys && todo !! done && Lists(walk, done)
      decreases |todo|
    {
      var c :| c in todo;
      ListsMore(walk, done, c);
      walk, todo, done := walk + [c], todo - {c}, done + {c};
    }
    assert done == keys;
  }

  class PendingReadIndex {
    var asks: map<nat, Read>
    var told: Told
    var queue: seq<nat>
    var hands: seq<nat>
    var batches: map<Ctx, Batch>
    // what only the proofs look at
    var filed: map<nat, Ctx>
    var used: set<Ctx>
    var confirmed: set<(Ctx, nat)>
    var phase: Phase
    var queueStopped: bool
    var tick: nat
    var lastGc: nat
    const gcTick: nat
    const size: nat

    constructor (gcTick: nat, size: nat)
      ensures Now() == New(gcTick, size)
    {
      this.gcTick, this.size := gcTick, size;
      asks, told, queue, hands, batches := map[], map[], [], [], map[];
      filed, used, confirmed := map[], {}, {};
      phase, queueStopped, tick, lastGc := Open, false, 0, 0;
    }

    ghost function Now(): Tracker
      reads this
    {
      Tracker(asks, told, queue, hands, batches, filed, used, confirmed, phase, queueStopped, tick, lastGc, gcTick, size)
    }

    /** A client asks to read; `id` is the request it gets. */
    method Ask(id: nat, timeout: nat) returns (r: Answer)
      modifies this
      ensures r == if timeout == 0 then TimeoutTooSmall
                   else if old(queueStopped) then ClusterClosed
                   else if |old(queue)| >= size then SystemBusy else Accepted
      ensures Now() == if timeout == 0 then old(Now()) else Enqueue(old(Now()), id, Wrap64(old(tick) + timeout))
    {
      if timeout == 0 { return TimeoutTooSmall; }
      if |queue| >= size { return if queueStopped then ClusterClosed else SystemBusy; }
      if queueStopped { return ClusterClosed; }
      asks := asks[id := Read(Wrap64(tick + timeout), confirmed)];
      told := told[id := []];
      queue := queue + [id];
      return Accepted;
    }
  
    /** The step worker takes the queue. */
    method TakeQueue()
      modifies this`queue, this`hands
      ensures Now() == Get(old(Now()))
    {
      hands, queue := queue, [];
    }

    /** The step worker files what it took. */
    method Add(c: Ctx) returns (again: bool)
      modifies this`batches, this`hands, this`filed, this`used
      ensures again <==> AddBatch(old(Now()), c) == SameCtx
      ensures !again ==> AddBatch(old(Now()), c) == Fine(Now())
    {
      if phase != Open {
        hands, used := [], used + {c};
        return false;
      }
      if c in batches { return true; }
      batches := batches[c := Batch(0, Slots(hands))];
      filed, used := FiledUnder(filed, hands, c), used + {c};
      hands := [];
      return false;
    }

    method AddReadyAll(ready: seq<(Ctx, nat)>)
      modifies this`batches, this`confirmed
      ensures confirmed == old(confirmed) + set i | 0 <= i < |ready| :: ready[i]
      ensures batches.Keys == old(batches).Keys
      ensures forall c :: c in batches ==> batches[c] == old(batches)[c].(index := LastFor(ready, c, old(batches)[c].index))
    {
      var i := 0;
      while i < |ready|
        invariant 0 <= i <= |ready|
        invariant confirmed == old(confirmed) + set j | 0 <= j < i :: ready[j]
        invariant batches.Keys == old(batches).Keys
        invariant forall c :: c in batches ==> batches[c] == old(batches)[c].(index := LastFor(ready[..i], c, old(batches)[c].index))
      {
        var (c, index) := ready[i];
        assert ready[..i + 1][..i] == ready[..i];
        if c in batches { batches := batches[c := batches[c].(index := index)]; }
        confirmed := confirmed + {ready[i]};
        i := i + 1;
      }
      assert ready[..i] == ready;
    }

    method TellOne(k: nat, x: Result) returns (full: bool)
      modifies this`told
      ensures full <==> Notify(old(told), k, x).None?
      ensures if full then told == old(told) else Notify(old(told), k, x) == Some(told)
    {
      if k !in told || told[k] != [] { return true; }
      told := told[k := [x]];
      return false;
    }

    /** Tell everyone in the slots. */
    method TellAll(slots: seq<Option<nat>>, v: Verdict) returns (full: bool)
      modifies this`told
      ensures full <==> TellSlots(asks, old(told), slots, v).None?
      ensures !full ==> TellSlots(asks, old(told), slots, v) == Some(told)
    {
      var i := 0;
      assert slots[..0] == [];
      while i < |slots|
        invariant 0 <= i <= |slots| && TellSlots(asks, old(told), slots[..i], v) == Some(told)
      {
        assert slots[..i + 1][..i] == slots[..i];
        if slots[i].Some? {
          full := TellOne(slots[i].value, ResultOf(asks, v, slots[i].value));
          if full {
            NoneStays(asks, old(told), slots, v, i + 1);
            return;
          }
        }
        i := i + 1;
      }
      assert slots[..i] == slots;
      return false;
    }

    /** Raft has dropped a context. */
    method DroppedCtx(c: Ctx) returns (full: bool)
      modifies this`told, this`batches
      ensures full <==> DropBatch(old(Now()), c) == ChannelFull
      ensures !full ==> DropBatch(old(Now()), c) == Fine(Now())
    {
      if phase != Open || c !in batches { return false; }
      full := TellAll(batches[c].slots, AsDropped);
      if !full { batches := batches - {c}; }
    }

    method ApplyBatch(c: Ctx, applied: nat) returns (full: bool)
      modifies this`told, this`batches
      ensures full <==> ApplyOne(old(Now()), c, applied) == ChannelFull
      ensures !full ==> ApplyOne(old(Now()), c, applied) == Fine(Now())
    {
      if c !in batches || batches[c].index == 0 || batches[c].index > applied { return false; }
      full := TellAll(batches[c].slots, AsApplied(tick, c, batches[c].index, applied));
      if !full { batches := batches - {c}; }
    }

    /** Complete the batches that are due; `walk` is how the map was walked. */
    method ApplyAll(applied: nat) returns (full: bool, walk: seq<Ctx>)
      modifies this`told, this`batches
      ensures full ==> ApplyWalk(old(Now()), walk, applied) == ChannelFull
      ensures !full ==> Lists(walk, old(batches).Keys) && ApplyWalk(old(Now()), walk, applied) == Fine(Now())
    {
      walk := WalkOf(batches.Keys);
      var i := 0;
      assert walk[..0] == [];
      while i < |walk|
        invariant 0 <= i <= |walk| && ApplyWalk(old(Now()), walk[..i], applied) == Fine(Now())
      {
        var c := walk[i];
        assert walk[..i + 1][..i] == walk[..i];
        full := ApplyBatch(c, applied);
        i := i + 1;
        if full { return true, walk[..i]; }
      }
      assert walk[..i] == walk;
      return false, walk;
    }

    method ExpireBatch(c: Ctx) returns (full: bool)
      modifies this`told, this`batches
      ensures full ==> ExpireOne(old(Now()), c) == ChannelFull
      ensures !full ==> ExpireOne(old(Now()), c) == Fine(Now())
    {
      if c !in batches { return false; }
      var i, n := 0, |batches[c].slots|;
      while i < n
        invariant 0 <= i <= n && c in batches && |batches[c].slots| == n == |old(batches)[c].slots|
        invariant ExpireSlots(old(Now()), c, i) == Fine(Now())
      {
        var slot := batches[c].slots[i];
        if slot.Some? && slot.value in asks && asks[slot.value].deadline < tick {
          full := TellOne(slot.value, Timeout(tick));
          if full {
            FullStays(old(Now()), c, i + 1, n);
            return;
          }
          batches := batches[c := batches[c].(slots := batches[c].slots[i := None])];
        }
        i := i + 1;
      }
      return false;
    }

    /** Time out everyone overdue. */
    method ExpireAll() returns (full: bool, walk: seq<Ctx>)
      modifies this`told, this`batches
      ensures full ==> ExpireWalk(old(Now()), walk) == ChannelFull
      ensures !full ==> Lists(walk, old(batches).Keys) && ExpireWalk(old(Now()), walk) == Fine(Now())
    {
      walk := WalkOf(batches.Keys);
      var i := 0;
      assert walk[..0] == [];
      while i < |walk|
        invariant 0 <= i <= |walk| && ExpireWalk(old(Now()), walk[..i]) == Fine(Now())
      {
        var c := walk[i];
        assert walk[..i + 1][..i] == walk[..i];
        full := ExpireBatch(c);
        i := i + 1;
        if full { return true, walk[..i]; }
      }
      assert walk[..i] == walk;
      return false, walk;
    }

    /** Is nobody left in the slots? */
    method NobodyIn(slots: seq<Option<nat>>) returns (empty: bool)
      ensures empty <==> forall i :: 0 <= i < |slots| ==> slots[i] == None
    {
      for i := 0 to |slots|
        invariant forall j :: 0 <= j < i ==> slots[j] == None
      {
        if slots[i].Some? { return false; }
      }
      return true;
    }

    method ForgetBatch(c: Ctx)
      modifies this`batches
      ensures Now() == ForgetOne(old(Now()), c)
    {
      if c in batches && c.high < tick {
        var empty := NobodyIn(batches[c].slots);
        if empty { batches := batches - {c}; }
      }
    }

    /** Forget the batches that are old and empty. */
    method ForgetAll() returns (walk: seq<Ctx>)
      modifies this`batches
      ensures Lists(walk, old(batches).Keys) && Now() == ForgetWalk(old(Now()), walk)
    {
      walk := WalkOf(batches.Keys);
      var i := 0;
      assert walk[..0] == [];
      while i < |walk|
        invariant 0 <= i <= |walk| && Now() == ForgetWalk(old(Now()), walk[..i])
      {
        assert walk[..i + 1][..i] == walk[..i];
        ForgetBatch(walk[i]);
        i := i + 1;
      }
      assert walk[..i] == walk;
    }

    method Gc() returns (full: bool, expiring: seq<Ctx>, forgetting: seq<Ctx>)
      modifies this`told, this`batches, this`lastGc
      ensures full ==> ExpireWalk(old(Now()).(lastGc := tick), expiring) == ChannelFull
      ensures !full ==> forall applying :: var w := Walks(applying, expiring, forgetting);
                          Sweeps(w, old(batches).Keys) && Collect(old(Now()), w) == Fine(Now())
    {
      forgetting := [];
      lastGc := tick;
      full, expiring := ExpireAll();
      if full { return; }
      ExpireWalkIs(old(Now()).(lastGc := tick), expiring);
      forgetting := ForgetAll();
    }

    /** An index has been applied: complete what is due, then collect unless it is too
        soon. */
    method AppliedTo(applied: nat) returns (full: bool, w: Walks)
      modifies this`told, this`batches, this`lastGc
      ensures full ==> Applied(old(Now()), applied, w) == ChannelFull
      ensures !full ==> Applied(old(Now()), applied, w) == Fine(Now()) && WalksOk(old(Now()), applied, w)
      ensures Inv(old(Now())) && Unlocked(old(Now())) ==> !full && Inv(Now())
    {
      full, w := AppliedLoops(applied);
      if Inv(old(Now())) && Unlocked(old(Now())) { AppliedKeeps(old(Now()), applied, w); }
    }

    method AppliedLoops(applied: nat) returns (full: bool, w: Walks)
      modifies this`told, this`batches, this`lastGc
      ensures full ==> Applied(old(Now()), applied, w) == ChannelFull
      ensures !full ==> Applied(old(Now()), applied, w) == Fine(Now()) && WalksOk(old(Now()), applied, w)
    {
      w := Walks([], [], []);
      if phase != Open || |batches| == 0 { return false, w; }
      var applying, expiring, forgetting;
      full, applying := ApplyAll(applied);
      w := Walks(applying, [], []);
      ApplyWithin(old(Now()), applying, applied);
      if full || Wrap64(tick - lastGc) < gcTick { return; }
      full, expiring, forgetting := Gc();
      w := Walks(applying, expiring, forgetting);
    }

    /** Terminate everyone in the batches. */
    method EndBatches() returns (full: bool, walk: seq<Ctx>)
      modifies this`told
      ensures full ==> EndWalk(old(Now()), old(told), walk) == None && Apart(walk)
      ensures !full ==> Lists(walk, batches.Keys) && EndWalk(old(Now()), old(told), walk) == Some(told)
    {
      walk := WalkOf(batches.Keys);
      var i := 0;
      assert walk[..0] == [];
      while i < |walk|
        invariant 0 <= i <= |walk| && EndWalk(old(Now()), old(told), walk[..i]) == Some(told)
      {
        assert walk[..i + 1][..i] == walk[..i];
        full := TellAll(batches[walk[i]].slots, AsTerminated);
        i := i + 1;
        if full { return true, walk[..i]; }
      }
      assert walk[..i] == walk;
      return false, walk;
    }

    method CloseLoops() returns (full: bool, walk: seq<Ctx>)
      requires phase == Draining
      modifies this`told, this`queue, this`phase
      ensures full ==> Terminate(old(Now()), walk) == ChannelFull && Apart(walk)
      ensures !full ==> Terminate(old(Now()), walk) == Fine(Now()) && Lists(walk, batches.Keys)
    {
      walk := [];
      var rest := queue;
      queue := [];
      full := TellAll(Slots(rest), AsTerminated);
      if full { return; }
      ghost var mid := Now();
      full, walk := EndBatches();
      EndWalkAlike(old(Now()), mid, walk);
      if !full { phase := Closed; }
    }

    /** Stop, and terminate everyone in the queue and in the batches. */
    method Close() returns (full: bool, walk: seq<Ctx>)
      requires phase == Open
      modifies this`told, this`queue, this`phase, this`queueStopped
      ensures full ==> Terminate(Stopped(old(Now())), walk) == ChannelFull
      ensures !full ==> Terminate(Stopped(old(Now())), walk) == Fine(Now()) && Lists(walk, batches.Keys)
      ensures Inv(old(Now())) ==> !full && Inv(Now())
    {
      phase, queueStopped := Draining, true;
      full, walk := CloseLoops();
      if Inv(old(Now())) { StoppedEnds(old(Now()), walk); }
    }
  }

  /** Close has stopped the tracker and its queue. */
  function Stopped(s: Tracker): Tracker {
    s.(phase := Draining, queueStopped := true)
  }

  ghost predicate Apart(walk: seq<Ctx>) {
    forall i, j :: 0 <= i < j < |walk| ==> walk[i] != walk[j]
  }

  lemma StoppedEnds(s: Tracker, walk: seq<Ctx>)
    requires Inv(s) && s.phase == Open && Apart(walk)
    ensures Terminate(Stopped(s), walk).Fine?
    ensures Lists(walk, s.batches.Keys) ==> Good(Terminate(Stopped(s), walk))
  {
    PhaseKeeps(s, Stopped(s));
    TerminateIsFine(Stopped(s), walk);
    if Lists(walk, s.batches.Keys) { TerminateKeeps(Stopped(s), walk); }
  }

  lemma {:induction false} NoneStays(asks: map<nat, Read>, told: Told, slots: seq<Option<nat>>, v: Verdict, n: nat)
    requires n <= |slots| && TellSlots(asks, told, slots[..n], v).None?
    ensures TellSlots(asks, told, slots, v).None?
    decreases |slots|
  {
    if n < |slots| {
      var init := slots[..|slots| - 1];
      assert init[..n] == slots[..n];
      NoneStays(asks, told, init, v, n);
    } else {
      assert slots[..n] == slots;
    }
  }

  lemma {:induction false} FullStays(s: Tracker, c: Ctx, i: nat, n: nat)
    requires i <= n && ExpireSlots(s, c, i) == ChannelFull
    ensures ExpireSlots(s, c, n) == ChannelFull
    decreases n
  {
    if i < n { FullStays(s, c, i, n - 1); }
  }

  /** The last index listed for a context, or `otherwise`. */
  function LastFor(ready: seq<(Ctx, nat)>, c: Ctx, otherwise: nat): nat {
    if ready == [] then otherwise
    else
      var last := ready[|ready| - 1];
      if last.0 == c then last.1 else LastFor(ready[..|ready| - 1], c, otherwise)
  }
}
