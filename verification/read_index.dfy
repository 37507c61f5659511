/** The tracker of linearizable reads. Clients put reads on a queue, the step worker
    takes the whole queue into its hands and files it as a batch under a fresh context,
    raft confirms an index for the context, and the batch completes once that index is
    applied. The loops over batches and their slots are folds here, in the order a map
    is walked; telling a read something twice is a panic. */
module ReadIndex {
  import opened Basics

  /** A read context: a random number, and the tick after which it may be forgotten. */
  datatype Ctx = Ctx(low: nat, high: nat)

  datatype Result =
    | Completed(now: nat, ctx: Ctx, index: nat, applied: nat)
    | Timeout(now: nat)
    | Dropped
    | Terminated

  /** A read, with what raft had already confirmed when it was accepted. */
  datatype Read = Read(deadline: nat, before: set<(Ctx, nat)>)

  /** The index confirmed for a batch, zero until then, and its reads; a slot is emptied
      when its read times out. */
  datatype Batch = Batch(index: nat, slots: seq<Option<nat>>)

  datatype Phase = Open | Stopping | Draining | Closed

  type Told = map<nat, seq<Result>>

  datatype Tracker = Tracker(
    asks: map<nat, Read>,          // every read ever accepted
    told: Told,                     // what each was told
    queue: seq<nat>,
    hands: seq<nat>,                // what the step worker has taken and not filed
    batches: map<Ctx, Batch>,
    filed: map<nat, Ctx>,           // history: the context a read was filed under
    used: set<Ctx>,                 // history: every context ever used
    confirmed: set<(Ctx, nat)>,     // history: everything raft ever confirmed
    phase: Phase,
    queueStopped: bool,
    tick: nat,
    lastGc: nat,
    gcTick: nat,
    size: nat)                      // the queue's capacity

  datatype Outcome = Fine(tracker: Tracker) | ChannelFull | SameCtx

  function New(gcTick: nat, size: nat): Tracker {
    Tracker(map[], map[], [], [], map[], map[], {}, {}, Open, false, 0, 0, gcTick, size)
  }

  predicate Unlocked(s: Tracker) {
    s.phase == Open || s.phase == Closed
  }

  // ---------------------------------------------------------------- telling

  /** What the reads of a batch are told. */
  datatype Verdict = AsDropped | AsTerminated | AsApplied(now: nat, ctx: Ctx, index: nat, applied: nat)

  function ResultOf(asks: map<nat, Read>, v: Verdict, k: nat): Result {
    match v
    case AsDropped => Dropped
    case AsTerminated => Terminated
    case AsApplied(now, c, index, applied) =>
      if k in asks && asks[k].deadline > now then Completed(now, c, index, applied) else Timeout(now)
  }

  /** Put a result into a read's channel, which holds one. */
  function Notify(told: Told, k: nat, x: Result): Option<Told> {
    if k in told && told[k] == [] then Some(told[k := [x]]) else None
  }

  /** Tell the reads in the slots, one after the other. */
  function TellSlots(asks: map<nat, Read>, told: Told, slots: seq<Option<nat>>, v: Verdict): Option<Told> {
    if slots == [] then Some(told)
    else
      var last := slots[|slots| - 1];
      match TellSlots(asks, told, slots[..|slots| - 1], v)
      case None => None
      case Some(t) => if last.None? then Some(t) else Notify(t, last.value, ResultOf(asks, v, last.value))
  }

  // -------------------------------------------------------------- the steps

  /** `read`: the queue takes the request if it has room and is not stopped. */
  function Enqueue(s: Tracker, id: nat, deadline: nat): Tracker {
    if s.queueStopped || |s.queue| >= s.size then s
    else s.(asks := s.asks[id := Read(deadline, s.confirmed)], told := s.told[id := []], queue := s.queue + [id])
  }

  /** The step worker empties the queue. */
  function Get(s: Tracker): Tracker {
    s.(hands := s.queue, queue := [])
  }

  function Slots(ids: seq<nat>): (slots: seq<Option<nat>>)
    ensures |slots| == |ids| && forall i :: 0 <= i < |ids| ==> slots[i] == Some(ids[i])
  {
    seq(|ids|, i requires 0 <= i < |ids| => Some(ids[i]))
  }

  function FiledUnder(filed: map<nat, Ctx>, ids: seq<nat>, c: Ctx): map<nat, Ctx> {
    map k | k in filed.Keys + (set i | 0 <= i < |ids| :: ids[i]) :: if k in ids then c else filed[k]
  }

  /** The step worker files what it took as a batch; after `close` it is let go. */
  function AddBatch(s: Tracker, c: Ctx): Outcome {
    if s.phase != Open then Fine(s.(hands := [], used := s.used + {c}))
    else if c in s.batches then SameCtx
    else
      Fine(s.(batches := s.batches[c := Batch(0, Slots(s.hands))], hands := [],
              filed := FiledUnder(s.filed, s.hands, c), used := s.used + {c}))
  }

  function AddReady(s: Tracker, c: Ctx, index: nat): Tracker {
    s.(batches := if c in s.batches then s.batches[c := s.batches[c].(index := index)] else s.batches,
       confirmed := s.confirmed + {(c, index)})
  }

  /** Tell everyone in a batch, and delete it. */
  function EndBatch(s: Tracker, c: Ctx, v: Verdict): Outcome
    requires c in s.batches
  {
    match TellSlots(s.asks, s.told, s.batches[c].slots, v)
    case None => ChannelFull
    case Some(t) => Fine(s.(told := t, batches := s.batches - {c}))
  }

  function DropBatch(s: Tracker, c: Ctx): Outcome {
    if s.phase != Open || c !in s.batches then Fine(s) else EndBatch(s, c, AsDropped)
  }

  /** Is this batch's index confirmed and applied? */
  predicate Due(batches: map<Ctx, Batch>, c: Ctx, applied: nat) {
    c in batches && 0 < batches[c].index <= applied
  }

  /** Complete a batch if it is due. */
  function ApplyOne(s: Tracker, c: Ctx, applied: nat): Outcome {
    if Due(s.batches, c, applied) then EndBatch(s, c, AsApplied(s.tick, c, s.batches[c].index, applied)) else Fine(s)
  }

  /** Complete the batches on the walk that are due. */
  function ApplyWalk(s: Tracker, walk: seq<Ctx>, applied: nat): Outcome {
    if walk == [] then Fine(s)
    else
      match ApplyWalk(s, walk[..|walk| - 1], applied)
      case Fine(t) => ApplyOne(t, walk[|walk| - 1], applied)
      case o => o
  }

  predicate Overdue(s: Tracker, slot: Option<nat>) {
    slot.Some? && slot.value in s.asks && s.asks[slot.value].deadline < s.tick
  }

  predicate HasSlot(s: Tracker, c: Ctx, i: nat) {
    c in s.batches && i < |s.batches[c].slots|
  }

  /** Time out the read in a slot if it is overdue, and empty the slot. */
  function ExpireSlot(s: Tracker, c: Ctx, i: nat): Outcome {
    if HasSlot(s, c, i) && Overdue(s, s.batches[c].slots[i]) then
      var b := s.batches[c];
      match Notify(s.told, b.slots[i].value, Timeout(s.tick))
      case None => ChannelFull
      case Some(t) => Fine(s.(told := t, batches := s.batches[c := b.(slots := b.slots[i := None])]))
    else Fine(s)
  }

  function ExpireSlots(s: Tracker, c: Ctx, n: nat): Outcome {
    if n == 0 then Fine(s)
    else match ExpireSlots(s, c, n - 1) case Fine(t) => ExpireSlot(t, c, n - 1) case o => o
  }

  function ExpireOne(s: Tracker, c: Ctx): Outcome {
    if c in s.batches then ExpireSlots(s, c, |s.batches[c].slots|) else Fine(s)
  }

  function ExpireWalk(s: Tracker, walk: seq<Ctx>): Outcome {
    if walk == [] then Fine(s)
    else
      match ExpireWalk(s, walk[..|walk| - 1])
      case Fine(t) => ExpireOne(t, walk[|walk| - 1])
      case o => o
  }

  predicate Vacant(b: Batch) {
    forall i :: 0 <= i < |b.slots| ==> b.slots[i] == None
  }

  /** Forget a batch if it is old and empty. */
  function ForgetOne(s: Tracker, c: Ctx): Tracker {
    if c in s.batches && c.high < s.tick && Vacant(s.batches[c]) then s.(batches := s.batches - {c}) else s
  }

  /** Forget the batches on the walk that are old and empty. */
  function ForgetWalk(s: Tracker, walk: seq<Ctx>): Tracker {
    if walk == [] then s else ForgetOne(ForgetWalk(s, walk[..|walk| - 1]), walk[|walk| - 1])
  }

  /** How the three loops of `applied` walk the map of batches. */
  datatype Walks = Walks(applying: seq<Ctx>, expiring: seq<Ctx>, forgetting: seq<Ctx>)

  function Collect(s: Tracker, w: Walks): Outcome {
    match ExpireWalk(s.(lastGc := s.tick), w.expiring)
    case Fine(t) => Fine(ForgetWalk(t, w.forgetting))
    case o => o
  }

  /** Complete what is due, then collect what is overdue unless it is too soon. */
  function Applied(s: Tracker, applied: nat, w: Walks): Outcome {
    if s.phase != Open || s.batches == map[] then Fine(s)
    else
      match ApplyWalk(s, w.applying, applied)
      case Fine(t) => if Wrap64(t.tick - t.lastGc) < t.gcTick then Fine(t) else Collect(t, w)
      case o => o
  }

  /** Terminate everyone in the batches on the walk; the batches stay as they are. */
  function EndWalk(s: Tracker, told: Told, walk: seq<Ctx>): Option<Told> {
    if walk == [] then Some(told)
    else
      var c := walk[|walk| - 1];
      match EndWalk(s, told, walk[..|walk| - 1])
      case None => None
      case Some(t) => if c in s.batches then TellSlots(s.asks, t, s.batches[c].slots, AsTerminated) else Some(t)
  }

  /** Terminate everyone in the queue and in the batches. */
  function Terminate(s: Tracker, walk: seq<Ctx>): Outcome {
    match TellSlots(s.asks, s.told, Slots(s.queue), AsTerminated)
    case None => ChannelFull
    case Some(t) =>
      match EndWalk(s, t, walk)
      case None => ChannelFull
      case Some(u) => Fine(s.(phase := Closed, queue := [], told := u))
  }

  // -------------------------------------------------------------- invariant

  /** What a read was told is true of it; it completes under its own context. */
  predicate Honest(s: Tracker, k: nat, x: Result)
    requires k in s.asks
  {
    match x
    case Completed(now, c, index, applied) =>
      && 0 < index <= applied && now < s.asks[k].deadline
      && k in s.filed && s.filed[k] == c && (c, index) in s.confirmed - s.asks[k].before
    case Timeout(now) => s.asks[k].deadline <= now
    case _ => true
  }

  /** Raft had confirmed nothing under this context when the read was accepted. */
  ghost predicate NewTo(r: Read, c: Ctx) {
    forall index :: (c, index) !in r.before
  }

  ghost predicate ReadOk(s: Tracker, k: nat) {
    && k in s.asks && k in s.told
    && s.asks[k].before <= s.confirmed
    && |s.told[k]| <= 1 && (s.told[k] != [] ==> Honest(s, k, s.told[k][0]))
    && (k in s.filed ==> s.filed[k] in s.used && NewTo(s.asks[k], s.filed[k]))
  }

  ghost predicate Distinct(ids: seq<nat>) {
    forall i, j :: 0 <= i < j < |ids| ==> ids[i] != ids[j]
  }

  ghost predicate DistinctSlots(slots: seq<Option<nat>>) {
    forall i, j :: 0 <= i < j < |slots| && slots[i].Some? ==> slots[i] != slots[j]
  }

  /** A read that waits to be filed. */
  predicate Unfiled(s: Tracker, k: nat) {
    k in s.asks && k in s.told && s.told[k] == [] && k !in s.filed
  }

  /** A read that waits in the batch it was filed in. */
  predicate WaitsIn(s: Tracker, c: Ctx, k: nat) {
    k in s.asks && k in s.told && s.told[k] == [] && k in s.filed && s.filed[k] == c
  }

  ghost predicate SlotsOk(s: Tracker, c: Ctx, slots: seq<Option<nat>>) {
    DistinctSlots(slots) && forall i :: 0 <= i < |slots| && slots[i].Some? ==> WaitsIn(s, c, slots[i].value)
  }

  ghost predicate BatchesOk(s: Tracker) {
    && s.batches.Keys <= s.used
    && (forall x :: x in s.confirmed ==> x.0 in s.used)
    && (forall c :: c in s.batches && s.batches[c].index > 0 ==> (c, s.batches[c].index) in s.confirmed)
  }

  ghost predicate LinesOk(s: Tracker) {
    && Distinct(s.queue) && Distinct(s.hands)
    && (forall i :: 0 <= i < |s.queue| ==> Unfiled(s, s.queue[i]) && s.queue[i] !in s.hands)
    && (forall i :: 0 <= i < |s.hands| ==> Unfiled(s, s.hands[i]))
  }

  /** A read that has not been told is somewhere. */
  predicate Somewhere(s: Tracker, k: nat) {
    || k in s.queue
    || k in s.hands
    || (k in s.filed && s.filed[k] in s.batches && Some(k) in s.batches[s.filed[k]].slots)
  }

  /** What holds until `close` is done. */
  ghost predicate Waiting(s: Tracker) {
    && LinesOk(s)
    && (forall c :: c in s.batches ==> SlotsOk(s, c, s.batches[c].slots))
    && (forall k :: k in s.asks && k in s.told && s.told[k] == [] ==> Somewhere(s, k))
  }

  /** What holds always. */
  ghost predicate Recorded(s: Tracker) {
    && s.told.Keys == s.asks.Keys && s.filed.Keys <= s.asks.Keys
    && (forall k :: k in s.asks ==> ReadOk(s, k))
    && BatchesOk(s)
  }

  ghost predicate Inv(s: Tracker) {
    && Recorded(s)
    && (s.queueStopped <==> s.phase == Draining || s.phase == Closed)
    && (if s.phase == Closed then s.queue == [] else Waiting(s))
  }

  ghost predicate Good(o: Outcome) {
    o.Fine? && Inv(o.tracker)
  }

  ghost predicate Steady(o: Outcome) {
    Good(o) && o.tracker.phase == Open
  }

  // -------------------------------------------------------- telling is exact

  /** If they are distinct and untold, everyone in the slots is told, and nobody else. */
  lemma {:induction false} TellsExactly(asks: map<nat, Read>, told: Told, slots: seq<Option<nat>>, v: Verdict)
    requires DistinctSlots(slots) && forall i :: 0 <= i < |slots| && slots[i].Some? ==> slots[i].value in told && told[slots[i].value] == []
    ensures var r := TellSlots(asks, told, slots, v);
            && r.Some? && r.value.Keys == told.Keys
            && forall k :: k in told ==> r.value[k] == if Some(k) in slots then [ResultOf(asks, v, k)] else told[k]
  {
    if slots != [] {
      var init, last := slots[..|slots| - 1], slots[|slots| - 1];
      TellsExactly(asks, told, init, v);
      assert slots == init + [last];
      assert last.Some? ==> last !in init;
    }
  }

  // ------------------------------------------------ each step keeps the books

  lemma EnqueueKeeps(s: Tracker, id: nat, deadline: nat)
    requires Inv(s) && id !in s.asks
    ensures Good(Fine(Enqueue(s, id, deadline)))
  {
    var t := Enqueue(s, id, deadline);
    if t != s {
      forall k | k in t.asks ensures ReadOk(t, k) { assert k in s.asks ==> ReadOk(s, k); }
      forall i | 0 <= i < |t.queue| ensures Unfiled(t, t.queue[i]) && t.queue[i] !in t.hands {
        assert i < |s.queue| ==> Unfiled(s, s.queue[i]);
      }
      forall i, j | 0 <= i < j < |t.queue| ensures t.queue[i] != t.queue[j] { assert Unfiled(s, s.queue[i]); }
      forall c | c in t.batches ensures SlotsOk(t, c, t.batches[c].slots) { assert SlotsOk(s, c, s.batches[c].slots); }
      forall k | k in t.asks && t.told[k] == [] ensures Somewhere(t, k) {
        if k in s.asks { assert Somewhere(s, k); } else { assert t.queue[|s.queue|] == k; }
      }
    }
  }

  lemma GetKeeps(s: Tracker)
    requires Inv(s) && s.hands == []
    ensures Good(Fine(Get(s)))
  {
    var t := Get(s);
    forall k | k in t.asks ensures ReadOk(t, k) { assert ReadOk(s, k); }
    if s.phase != Closed {
      forall c | c in t.batches ensures SlotsOk(t, c, t.batches[c].slots) { assert SlotsOk(s, c, s.batches[c].slots); }
      forall k | k in t.asks && t.told[k] == [] ensures Somewhere(t, k) { assert Somewhere(s, k); }
    }
  }

  lemma LetGoKeeps(s: Tracker, c: Ctx)
    requires Inv(s) && s.phase == Closed
    ensures Good(AddBatch(s, c))
  {
    var t := AddBatch(s, c).tracker;
    forall k | k in t.asks ensures ReadOk(t, k) { assert ReadOk(s, k); }
  }

  lemma FileRecords(s: Tracker, c: Ctx)
    requires Inv(s) && s.phase == Open && c !in s.used
    ensures AddBatch(s, c).Fine? && Recorded(AddBatch(s, c).tracker)
  {
    var t := AddBatch(s, c).tracker;
    forall k | k in t.asks ensures ReadOk(t, k) {
      assert ReadOk(s, k);
      if k in s.hands { assert NewTo(s.asks[k], c); }
    }
    forall k | k in t.filed ensures k in t.asks { if k in s.hands { assert Unfiled(s, k); } }
  }

  lemma FileKeeps(s: Tracker, c: Ctx)
    requires Inv(s) && s.phase == Open && c !in s.used
    ensures Good(AddBatch(s, c))
  {
    FileRecords(s, c);
    var t := AddBatch(s, c).tracker;
    forall i | 0 <= i < |s.hands| ensures WaitsIn(t, c, s.hands[i]) { assert Unfiled(s, s.hands[i]); }
    assert SlotsOk(t, c, Slots(s.hands));
    forall d | d in t.batches ensures SlotsOk(t, d, t.batches[d].slots) {
      if d != c {
        assert SlotsOk(s, d, s.batches[d].slots);
        FiledStay(s, t, d, s.batches[d].slots);
      }
    }
    forall k | k in t.asks && t.told[k] == [] ensures Somewhere(t, k) {
      assert Somewhere(s, k);
      if k in s.hands {
        var i :| 0 <= i < |s.hands| && s.hands[i] == k;
        assert Slots(s.hands)[i] == Some(k);
      } else if k in s.filed {
        assert s.filed[k] in s.used;
      }
    }
  }

  lemma FiledStay(s: Tracker, t: Tracker, d: Ctx, slots: seq<Option<nat>>)
    requires SlotsOk(s, d, slots) && t.asks == s.asks && t.told == s.told && LinesOk(s)
    requires forall k :: k in s.filed && k !in s.hands ==> k in t.filed && t.filed[k] == s.filed[k]
    ensures SlotsOk(t, d, slots)
  {
    forall i | 0 <= i < |slots| && slots[i].Some? ensures WaitsIn(t, d, slots[i].value) {
      NotInHands(s, d, slots[i].value);
    }
  }

  lemma NotInHands(s: Tracker, d: Ctx, k: nat)
    requires LinesOk(s) && WaitsIn(s, d, k)
    ensures k !in s.hands
  {
    forall j | 0 <= j < |s.hands| ensures s.hands[j] != k { assert Unfiled(s, s.hands[j]); }
  }

  lemma ConfirmKeeps(s: Tracker, c: Ctx, index: nat)
    requires Inv(s) && c in s.used
    ensures Good(Fine(AddReady(s, c, index)))
  {
    var t := AddReady(s, c, index);
    forall k | k in t.asks ensures ReadOk(t, k) { assert ReadOk(s, k); }
    if s.phase != Closed {
      forall d | d in t.batches ensures SlotsOk(t, d, t.batches[d].slots) { assert SlotsOk(s, d, s.batches[d].slots); }
      forall k | k in t.asks && t.told[k] == [] ensures Somewhere(t, k) { assert Somewhere(s, k); }
    }
  }

  /** An index a batch may be completed with. */
  predicate Truthful(s: Tracker, c: Ctx, v: Verdict) {
    v.AsApplied? ==> c in s.batches && v.ctx == c && v.index == s.batches[c].index && 0 < v.index <= v.applied
  }

  lemma SlotsUntold(s: Tracker, c: Ctx, v: Verdict)
    requires Waiting(s) && c in s.batches
    ensures var r := TellSlots(s.asks, s.told, s.batches[c].slots, v);
            && r.Some? && r.value.Keys == s.told.Keys
            && forall k :: k in s.told ==> r.value[k] == if Some(k) in s.batches[c].slots then [ResultOf(s.asks, v, k)] else s.told[k]
  {
    var slots := s.batches[c].slots;
    assert SlotsOk(s, c, slots);
    forall i | 0 <= i < |slots| && slots[i].Some? ensures slots[i].value in s.told && s.told[slots[i].value] == [] {
      assert WaitsIn(s, c, slots[i].value);
    }
    TellsExactly(s.asks, s.told, slots, v);
  }

  lemma SlotWaits(s: Tracker, c: Ctx, k: nat)
    requires Waiting(s) && c in s.batches && Some(k) in s.batches[c].slots
    ensures WaitsIn(s, c, k)
  {
    var slots := s.batches[c].slots;
    assert SlotsOk(s, c, slots);
    var i :| 0 <= i < |slots| && slots[i] == Some(k);
    assert WaitsIn(s, c, slots[i].value);
  }

  lemma EndRecords(s: Tracker, c: Ctx, v: Verdict)
    requires Inv(s) && s.phase != Closed && c in s.batches && Truthful(s, c, v)
    ensures EndBatch(s, c, v).Fine? && Recorded(EndBatch(s, c, v).tracker)
  {
    SlotsUntold(s, c, v);
    var t := EndBatch(s, c, v).tracker;
    forall k | k in t.asks ensures ReadOk(t, k) {
      assert ReadOk(s, k);
      if Some(k) in s.batches[c].slots { SlotWaits(s, c, k); }
    }
  }

  lemma EndBatchKeeps(s: Tracker, c: Ctx, v: Verdict)
    requires Inv(s) && s.phase != Closed && c in s.batches && Truthful(s, c, v)
    ensures Good(EndBatch(s, c, v))
  {
    EndRecords(s, c, v);
    SlotsUntold(s, c, v);
    var t := EndBatch(s, c, v).tracker;
    OthersStay(s, t, c);
    forall k | k in t.asks && t.told[k] == [] ensures Somewhere(t, k) {
      assert Somewhere(s, k) && Some(k) !in s.batches[c].slots;
    }
  }

  /** Telling the reads of one batch leaves the lines and the other batches in order. */
  lemma OthersStay(s: Tracker, t: Tracker, c: Ctx)
    requires Waiting(s) && c in s.batches && t == s.(told := t.told, batches := s.batches - {c}) && t.told.Keys == s.told.Keys
    requires forall k :: k in s.told && Some(k) !in s.batches[c].slots ==> t.told[k] == s.told[k]
    ensures LinesOk(t) && forall d :: d in t.batches ==> SlotsOk(t, d, t.batches[d].slots)
  {
    forall k: nat | Unfiled(s, k) ensures Unfiled(t, k) {
      if Some(k) in s.batches[c].slots { SlotWaits(s, c, k); }
    }
    forall d | d in t.batches ensures SlotsOk(t, d, t.batches[d].slots) {
      assert SlotsOk(s, d, s.batches[d].slots);
      forall k: nat | WaitsIn(s, d, k) ensures WaitsIn(t, d, k) {
        if Some(k) in s.batches[c].slots { SlotWaits(s, c, k); }
      }
    }
  }

  lemma {:induction false} ApplyWalkKeeps(s: Tracker, walk: seq<Ctx>, applied: nat)
    requires Inv(s) && s.phase == Open
    ensures Steady(ApplyWalk(s, walk, applied))
  {
    if walk != [] {
      var c := walk[|walk| - 1];
      ApplyWalkKeeps(s, walk[..|walk| - 1], applied);
      var t := ApplyWalk(s, walk[..|walk| - 1], applied).tracker;
      if Due(t.batches, c, applied) { EndBatchKeeps(t, c, AsApplied(t.tick, c, t.batches[c].index, applied)); }
    }
  }

  lemma ExpireSlotKeeps(s: Tracker, c: Ctx, i: nat)
    requires Inv(s) && s.phase == Open
    ensures Steady(ExpireSlot(s, c, i))
  {
    if HasSlot(s, c, i) && Overdue(s, s.batches[c].slots[i]) {
      var slots := s.batches[c].slots;
      var id := slots[i].value;
      SlotWaits(s, c, id);
      var t := ExpireSlot(s, c, i).tracker;
      forall k | k in t.asks ensures ReadOk(t, k) { assert ReadOk(s, k); }
      forall k: nat | Unfiled(s, k) ensures Unfiled(t, k) {}
      assert SlotsOk(s, c, slots);
      forall d | d in t.batches ensures SlotsOk(t, d, t.batches[d].slots) { ExpiredSlotsOk(s, t, c, i, d); }
      forall k | k in t.asks && t.told[k] == [] ensures Somewhere(t, k) {
        assert Somewhere(s, k);
        if k in s.filed && s.filed[k] == c && Some(k) in slots {
          var j :| 0 <= j < |slots| && slots[j] == Some(k);
          assert t.batches[c].slots[j] == Some(k);
        }
      }
    }
  }

  lemma ExpiredSlotsOk(s: Tracker, t: Tracker, c: Ctx, i: nat, d: Ctx)
    requires Waiting(s) && HasSlot(s, c, i) && s.batches[c].slots[i].Some? && ExpireSlot(s, c, i) == Fine(t) && t != s
    requires d in s.batches
    ensures SlotsOk(t, d, t.batches[d].slots)
  {
    var slots, id := s.batches[d].slots, s.batches[c].slots[i].value;
    assert SlotsOk(s, c, s.batches[c].slots) && SlotsOk(s, d, slots);
    SlotWaits(s, c, id);
    forall j | 0 <= j < |slots| && t.batches[d].slots[j].Some? ensures WaitsIn(t, d, t.batches[d].slots[j].value) {
      assert WaitsIn(s, d, slots[j].value);
    }
  }

  lemma {:induction false} ExpireSlotsKeeps(s: Tracker, c: Ctx, n: nat)
    requires Inv(s) && s.phase == Open
    ensures Steady(ExpireSlots(s, c, n))
  {
    if n > 0 {
      ExpireSlotsKeeps(s, c, n - 1);
      ExpireOn(ExpireSlots(s, c, n - 1), c, n - 1);
    }
  }

  lemma ExpireOn(o: Outcome, c: Ctx, i: nat)
    requires Steady(o)
    ensures Steady(ExpireSlot(o.tracker, c, i))
  {
    ExpireSlotKeeps(o.tracker, c, i);
  }

  lemma {:induction false} ExpireWalkKeeps(s: Tracker, walk: seq<Ctx>)
    requires Inv(s) && s.phase == Open
    ensures Steady(ExpireWalk(s, walk))
  {
    if walk != [] {
      var c := walk[|walk| - 1];
      ExpireWalkKeeps(s, walk[..|walk| - 1]);
      var t := ExpireWalk(s, walk[..|walk| - 1]).tracker;
      if c in t.batches { ExpireSlotsKeeps(t, c, |t.batches[c].slots|); }
    }
  }

  lemma ForgetOneKeeps(s: Tracker, c: Ctx)
    requires Inv(s) && s.phase == Open && c in s.batches && Vacant(s.batches[c])
    ensures Inv(s.(batches := s.batches - {c}))
  {
    var t := s.(batches := s.batches - {c});
    forall k | k in t.asks ensures ReadOk(t, k) { assert ReadOk(s, k); }
    forall d | d in t.batches ensures SlotsOk(t, d, t.batches[d].slots) { assert SlotsOk(s, d, s.batches[d].slots); }
    forall k | k in t.asks && t.told[k] == [] ensures Somewhere(t, k) { assert Somewhere(s, k); }
  }

  lemma {:induction false} ForgetWalkKeeps(s: Tracker, walk: seq<Ctx>)
    requires Inv(s) && s.phase == Open
    ensures Inv(ForgetWalk(s, walk)) && ForgetWalk(s, walk).phase == Open
  {
    if walk != [] {
      var c := walk[|walk| - 1];
      ForgetWalkKeeps(s, walk[..|walk| - 1]);
      var t := ForgetWalk(s, walk[..|walk| - 1]);
      if c in t.batches && Vacant(t.batches[c]) { ForgetOneKeeps(t, c); }
    }
  }

  lemma CollectKeeps(s: Tracker, w: Walks)
    requires Inv(s) && s.phase == Open
    ensures Steady(Collect(s, w))
  {
    var t := s.(lastGc := s.tick);
    HistoryAlike(s, t);
    ExpireWalkKeeps(t, w.expiring);
    ForgetWalkKeeps(ExpireWalk(t, w.expiring).tracker, w.forgetting);
  }

  /** Clocks do not matter to the invariant. */
  lemma HistoryAlike(s: Tracker, t: Tracker)
    requires Inv(s) && t == s.(tick := t.tick, lastGc := t.lastGc)
    ensures Good(Fine(t))
  {
    forall k | k in t.asks ensures ReadOk(t, k) { assert ReadOk(s, k); }
    if s.phase != Closed {
      forall d | d in t.batches ensures SlotsOk(t, d, t.batches[d].slots) { assert SlotsOk(s, d, s.batches[d].slots); }
      forall k | k in t.asks && t.told[k] == [] ensures Somewhere(t, k) { assert Somewhere(s, k); }
    }
  }

  lemma AppliedKeeps(s: Tracker, applied: nat, w: Walks)
    requires Inv(s) && Unlocked(s)
    ensures Good(Applied(s, applied, w))
  {
    if s.phase == Open && s.batches != map[] {
      ApplyWalkKeeps(s, w.applying, applied);
      CollectKeeps(ApplyWalk(s, w.applying, applied).tracker, w);
    }
  }

  // ------------------------------------------------------------------- close

  /** `walk` lists the keys of the map, once each. */
  ghost predicate Lists(walk: seq<Ctx>, keys: set<Ctx>) {
    && (forall c :: c in walk <==> c in keys)
    && (forall i, j :: 0 <= i < j < |walk| ==> walk[i] != walk[j])
  }

  lemma QueueUntold(s: Tracker, v: Verdict)
    requires LinesOk(s)
    ensures var r := TellSlots(s.asks, s.told, Slots(s.queue), v);
            && r.Some? && r.value.Keys == s.told.Keys
            && forall k :: k in s.told ==> r.value[k] == if k in s.queue then [ResultOf(s.asks, v, k)] else s.told[k]
  {
    var slots := Slots(s.queue);
    forall i | 0 <= i < |slots| && slots[i].Some? ensures slots[i].value in s.told && s.told[slots[i].value] == [] {
      assert Unfiled(s, s.queue[i]);
    }
    TellsExactly(s.asks, s.told, slots, v);
    forall k | k in s.told ensures Some(k) in slots <==> k in s.queue {
      if k in s.queue {
        var i :| 0 <= i < |s.queue| && s.queue[i] == k;
        assert slots[i] == Some(k);
      }
    }
  }

  /** The queue has been terminated, the batches not yet. */
  function QueueEnded(s: Tracker): Tracker
    requires TellSlots(s.asks, s.told, Slots(s.queue), AsTerminated).Some?
  {
    s.(queue := [], told := TellSlots(s.asks, s.told, Slots(s.queue), AsTerminated).value)
  }

  lemma QueuedWaits(s: Tracker, k: nat)
    requires LinesOk(s) && k in s.queue
    ensures Unfiled(s, k) && k !in s.hands
  {
    var i :| 0 <= i < |s.queue| && s.queue[i] == k;
    assert Unfiled(s, s.queue[i]);
  }

  lemma QueueEndKeeps(s: Tracker)
    requires Inv(s) && s.phase == Draining
    ensures TellSlots(s.asks, s.told, Slots(s.queue), AsTerminated).Some? && Inv(QueueEnded(s))
  {
    QueueUntold(s, AsTerminated);
    var t := QueueEnded(s);
    forall k | k in t.asks ensures ReadOk(t, k) { assert ReadOk(s, k); }
    forall i | 0 <= i < |t.hands| ensures Unfiled(t, t.hands[i]) {
      assert Unfiled(s, s.hands[i]);
      if s.hands[i] in s.queue { QueuedWaits(s, s.hands[i]); }
    }
    forall d | d in t.batches ensures SlotsOk(t, d, t.batches[d].slots) {
      assert SlotsOk(s, d, s.batches[d].slots);
      forall k: nat | WaitsIn(s, d, k) ensures WaitsIn(t, d, k) { if k in s.queue { QueuedWaits(s, k); } }
    }
    forall k | k in t.asks && t.told[k] == [] ensures Somewhere(t, k) { assert Somewhere(s, k); }
  }

  /** The same walk, with every batch deleted once its reads are told. */
  function EndAll(s: Tracker, walk: seq<Ctx>): Outcome {
    if walk == [] then Fine(s)
    else
      match EndAll(s, walk[..|walk| - 1])
      case Fine(t) => if walk[|walk| - 1] in t.batches then EndBatch(t, walk[|walk| - 1], AsTerminated) else Fine(t)
      case o => o
  }

  ghost predicate EndedLike(s: Tracker, o: Outcome, walk: seq<Ctx>) {
    && Good(o) && o.tracker == s.(told := o.tracker.told, batches := o.tracker.batches)
    && o.tracker.batches == map c | c in s.batches && c !in walk :: s.batches[c]
  }

  lemma {:induction false} EndAllKeeps(s: Tracker, walk: seq<Ctx>)
    requires Inv(s) && s.phase == Draining
    requires forall i, j :: 0 <= i < j < |walk| ==> walk[i] != walk[j]
    ensures EndedLike(s, EndAll(s, walk), walk)
    ensures EndWalk(s, s.told, walk) == Some(EndAll(s, walk).tracker.told)
  {
    if walk != [] {
      var init, c := walk[..|walk| - 1], walk[|walk| - 1];
      assert walk == init + [c] && c !in init;
      EndAllKeeps(s, init);
      EndAllOn(s, EndAll(s, init), init, c);
    }
  }

  lemma EndAllOn(s: Tracker, o: Outcome, init: seq<Ctx>, c: Ctx)
    requires s.phase == Draining && EndedLike(s, o, init) && c !in init
    ensures c in s.batches <==> c in o.tracker.batches
    ensures c in s.batches ==>
              && s.batches[c] == o.tracker.batches[c]
              && EndedLike(s, EndBatch(o.tracker, c, AsTerminated), init + [c])
              && TellSlots(s.asks, o.tracker.told, s.batches[c].slots, AsTerminated) == Some(EndBatch(o.tracker, c, AsTerminated).tracker.told)
    ensures c !in s.batches ==> EndedLike(s, o, init + [c])
  {
    if c in s.batches { EndBatchKeeps(o.tracker, c, AsTerminated); }
  }

  /** `close` tells everyone but those in the step worker's hands. */
  lemma TerminateKeeps(s: Tracker, walk: seq<Ctx>)
    requires Inv(s) && s.phase == Draining && Lists(walk, s.batches.Keys)
    ensures Good(Terminate(s, walk))
    ensures forall k :: k in s.asks ==> (Terminate(s, walk).tracker.told[k] == [] <==> k in s.hands)
  {
    QueueEndKeeps(s);
    var q := QueueEnded(s);
    EndAllKeeps(q, walk);
    EndWalkAlike(s, q, walk);
    var e := EndAll(q, walk).tracker;
    assert e.batches == map[];
    var t := Terminate(s, walk).tracker;
    forall k | k in t.asks ensures ReadOk(t, k) { assert ReadOk(e, k); }
    forall k | k in s.asks ensures e.told[k] == [] <==> k in s.hands {
      if e.told[k] == [] { assert Somewhere(e, k); }
      if k in s.hands {
        var i :| 0 <= i < |e.hands| && e.hands[i] == k;
        assert Unfiled(e, e.hands[i]);
      }
    }
  }

  lemma TerminateIsFine(s: Tracker, walk: seq<Ctx>)
    requires Inv(s) && s.phase == Draining && forall i, j :: 0 <= i < j < |walk| ==> walk[i] != walk[j]
    ensures Terminate(s, walk).Fine?
  {
    QueueEndKeeps(s);
    EndAllKeeps(QueueEnded(s), walk);
    EndWalkAlike(s, QueueEnded(s), walk);
  }

  lemma {:induction false} EndWalkAlike(s: Tracker, t: Tracker, walk: seq<Ctx>)
    requires t.asks == s.asks && t.batches == s.batches
    ensures forall told :: EndWalk(s, told, walk) == EndWalk(t, told, walk)
  {
    if walk != [] { EndWalkAlike(s, t, walk[..|walk| - 1]); }
  }
}
