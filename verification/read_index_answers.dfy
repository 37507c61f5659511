/** What every step of the read tracker tells whom, read off the tables before the
    step: the context a read is filed under, that batch's index, the read's deadline. */
module ReadIndexAnswers {
  import opened Basics
  import opened ReadIndex
  import opened ReadIndexRuns

  /** A filed read that has not been told stands in its batch. */
  lemma FiledStands(s: Tracker, k: nat)
    requires Waiting(s) && k in s.asks && k in s.told && s.told[k] == [] && k in s.filed
    ensures s.filed[k] in s.batches && Some(k) in s.batches[s.filed[k]].slots
  {
    assert Somewhere(s, k);
    NotInHands(s, s.filed[k], k);
    if k in s.queue { QueuedWaits(s, k); }
  }

  // ----------------------------------------------------------------- applied

  /** What is said of the read by its batch being due at `applied`. */
  predicate IsDue(s: Tracker, k: nat, applied: nat) {
    k in s.filed && s.filed[k] in s.batches && 0 < s.batches[s.filed[k]].index <= applied
  }

  /** The batch of the read, if it has one, is as it was. */
  ghost predicate Spared(s: Tracker, t: Tracker, k: nat) {
    && k in t.told && t.told[k] == [] && t.filed == s.filed
    && (k in s.filed && s.filed[k] in s.batches ==> s.filed[k] in t.batches && t.batches[s.filed[k]] == s.batches[s.filed[k]])
  }

  lemma OneSpares(s: Tracker, c: Ctx, applied: nat, k: nat)
    requires Inv(s) && s.phase == Open && k in s.asks && k in s.told && s.told[k] == [] && !IsDue(s, k, applied)
    ensures Steady(ApplyOne(s, c, applied)) && Spared(s, ApplyOne(s, c, applied).tracker, k)
  {
    if Due(s.batches, c, applied) {
      var v := AsApplied(s.tick, c, s.batches[c].index, applied);
      EndBatchKeeps(s, c, v);
      SlotsUntold(s, c, v);
      if Some(k) in s.batches[c].slots { SlotWaits(s, c, k); }
    }
  }

  /** A read whose batch is not due is not told, and its batch stays as it is. */
  lemma {:induction false} ApplySpares(s: Tracker, walk: seq<Ctx>, applied: nat, k: nat)
    requires Inv(s) && s.phase == Open && k in s.asks && k in s.told && s.told[k] == [] && !IsDue(s, k, applied)
    ensures Steady(ApplyWalk(s, walk, applied)) && Spared(s, ApplyWalk(s, walk, applied).tracker, k)
  {
    if walk != [] {
      var init := walk[..|walk| - 1];
      ApplySpares(s, init, applied, k);
      ApplyWithin(s, init, applied);
      var t := ApplyWalk(s, init, applied).tracker;
      if k in s.filed { FiledStands(s, k); }
      OneSpares(t, walk[|walk| - 1], applied, k);
    }
  }

  /** Collection tells exactly the filed reads that are overdue. */
  lemma CollectTells(s: Tracker, w: Walks, k: nat)
    requires Inv(s) && s.phase == Open && Sweeps(w, s.batches.Keys) && k in s.asks && k in s.told && s.told[k] == []
    ensures Good(Collect(s, w)) && k in Collect(s, w).tracker.told
    ensures Collect(s, w).tracker.told[k] == if k in s.filed && s.asks[k].deadline < s.tick then [Timeout(s.tick)] else []
  {
    CollectKeeps(s, w);
    var m := CollectMidway(s, w);
    ExpireWithin(s.(lastGc := s.tick), w.expiring);
    WalkTimesOut(s.(lastGc := s.tick), w.expiring);
    if k in s.filed {
      FiledStands(s, k);
      SlotTells(s, m, s.filed[k], k);
    } else {
      assert Somewhere(s, k);
      if k in m.queue { QueuedWaits(m, k); } else { HandWaits(m, k); }
    }
  }

  lemma HandWaits(s: Tracker, k: nat)
    requires LinesOk(s) && k in s.hands
    ensures Unfiled(s, k)
  {
    var i :| 0 <= i < |s.hands| && s.hands[i] == k;
    assert Unfiled(s, s.hands[i]);
  }

  lemma SlotTells(s: Tracker, m: Tracker, c: Ctx, k: nat)
    requires Waiting(s) && Waiting(m) && c in s.batches && Some(k) in s.batches[c].slots
    requires SlotsExpired(s, m, c, |s.batches[c].slots|) && m.asks == s.asks && m.filed == s.filed && k in s.told && k in m.told
    requires m.told[k] == s.told[k] || m.told[k] == [Timeout(s.tick)]
    ensures k in s.asks && m.told[k] == if s.asks[k].deadline < s.tick then [Timeout(s.tick)] else []
  {
    SlotWaits(s, c, k);
    var slots := s.batches[c].slots;
    var i :| 0 <= i < |slots| && slots[i] == Some(k);
    assert m.batches[c].slots[i] == Emptied(s, slots[i], true);
    if s.asks[k].deadline < s.tick {
      assert SlotsOk(s, c, slots);
      if m.told[k] == [] { FiledStands(m, k); }
    } else {
      SlotWaits(m, c, k);
    }
  }

  /** `applied` tells a read at most one thing, and when: a read whose batch has a
      confirmed index that is now applied completes, or times out if its deadline has
      come; any other filed read times out if its deadline has passed and the collection
      is due; nobody else is told anything. */
  lemma AppliedTells(s: Tracker, applied: nat, w: Walks, k: nat)
    requires Inv(s) && s.phase == Open && WalksOk(s, applied, w) && k in s.asks && k in s.told
    ensures Good(Applied(s, applied, w)) && k in Applied(s, applied, w).tracker.told
    ensures Applied(s, applied, w).tracker.told[k] ==
            if s.told[k] != [] then s.told[k]
            else if IsDue(s, k, applied) then
              [if s.tick < s.asks[k].deadline
               then Completed(s.tick, s.filed[k], s.batches[s.filed[k]].index, applied) else Timeout(s.tick)]
            else if k in s.filed && s.asks[k].deadline < s.tick && Wrap64(s.tick - s.lastGc) >= s.gcTick then [Timeout(s.tick)]
            else []
  {
    AppliedKeeps(s, applied, w);
    AppliedWithin(s, applied, w);
    if s.told[k] != [] {
      ToldStays(s, Applied(s, applied, w), k);
    } else if IsDue(s, k, applied) {
      FiledStands(s, k);
      DueReadIsTold(s, s.filed[k], applied, w, k);
    } else {
      UndueTells(s, applied, w, k);
    }
  }

  lemma UndueTells(s: Tracker, applied: nat, w: Walks, k: nat)
    requires Inv(s) && s.phase == Open && WalksOk(s, applied, w) && k in s.asks && k in s.told && s.told[k] == []
    requires !IsDue(s, k, applied)
    ensures Applied(s, applied, w).Fine? && k in Applied(s, applied, w).tracker.told
    ensures Applied(s, applied, w).tracker.told[k] ==
            if k in s.filed && s.asks[k].deadline < s.tick && Wrap64(s.tick - s.lastGc) >= s.gcTick then [Timeout(s.tick)] else []
  {
    if k in s.filed { FiledStands(s, k); }
    if s.batches != map[] {
      ApplySpares(s, w.applying, applied, k);
      ApplyWithin(s, w.applying, applied);
      ApplyClock(s, w.applying, applied);
      var t := ApplyWalk(s, w.applying, applied).tracker;
      if Wrap64(s.tick - s.lastGc) >= s.gcTick { CollectTells(t, w, k); }
    }
  }

  lemma {:induction false} ApplyClock(s: Tracker, walk: seq<Ctx>, applied: nat)
    ensures ApplyWalk(s, walk, applied).Fine? ==> ApplyWalk(s, walk, applied).tracker.lastGc == s.lastGc
  {
    if walk != [] { ApplyClock(s, walk[..|walk| - 1], applied); }
  }

  // ------------------------------------------------------- dropped and closed

  /** Dropping a context tells everyone in its batch, and nobody else, and forgets the
      batch and no other. */
  lemma DropTells(s: Tracker, c: Ctx, k: nat)
    requires Inv(s) && s.phase == Open && k in s.asks && k in s.told
    ensures Good(DropBatch(s, c)) && k in DropBatch(s, c).tracker.told
    ensures var t := DropBatch(s, c).tracker;
            && t.batches == s.batches - {c}
            && t.told[k] == if s.told[k] == [] && k in s.filed && s.filed[k] == c then [Dropped] else s.told[k]
  {
    DropKeeps(s, c);
    if k in s.filed && s.told[k] == [] { FiledStands(s, k); }
    if c in s.batches {
      SlotsUntold(s, c, AsDropped);
      if Some(k) in s.batches[c].slots { SlotWaits(s, c, k); }
    }
  }

  lemma {:induction false} EndWalkSays(s: Tracker, told: Told, walk: seq<Ctx>, k: nat)
    requires k in told && EndWalk(s, told, walk).Some?
    ensures var r := EndWalk(s, told, walk).value; k in r && (r[k] == told[k] || r[k] == [Terminated])
  {
    if walk != [] {
      var c := walk[|walk| - 1];
      EndWalkSays(s, told, walk[..|walk| - 1], k);
      var r := EndWalk(s, told, walk[..|walk| - 1]).value;
      if c in s.batches { TellSays(s.asks, r, s.batches[c].slots, k); }
    }
  }

  lemma {:induction false} TellSays(asks: map<nat, Read>, told: Told, slots: seq<Option<nat>>, k: nat)
    requires k in told && TellSlots(asks, told, slots, AsTerminated).Some?
    ensures var r := TellSlots(asks, told, slots, AsTerminated).value; k in r && (r[k] == told[k] || r[k] == [Terminated])
  {
    if slots != [] { TellSays(asks, told, slots[..|slots| - 1], k); }
  }

  /** `close` tells everyone who is still waiting, except in the step worker's hands,
      that the read is terminated, and nobody anything else. */
  lemma CloseTells(s: Tracker, walk: seq<Ctx>, k: nat)
    requires Inv(s) && s.phase == Draining && Lists(walk, s.batches.Keys) && k in s.asks && k in s.told
    ensures Good(Terminate(s, walk)) && k in Terminate(s, walk).tracker.told
    ensures Terminate(s, walk).tracker.told[k] == if s.told[k] == [] && k !in s.hands then [Terminated] else s.told[k]
  {
    TerminateKeeps(s, walk);
    TerminateIsLater(s, walk);
    assert ReadOk(s, k) && ReadOk(Terminate(s, walk).tracker, k);
    QueueEndKeeps(s);
    var t := TellSlots(s.asks, s.told, Slots(s.queue), AsTerminated).value;
    TellSays(s.asks, s.told, Slots(s.queue), k);
    EndWalkSays(s, t, walk, k);
  }

  // ------------------------------------------------------- from ask to answer

  /** The tracker after a read was asked for, taken off the queue and filed. */
  function Filing(s: Tracker, id: nat, deadline: nat, c: Ctx): Outcome {
    AddBatch(Get(Enqueue(s, id, deadline)), c)
  }

  lemma FilingFiles(s: Tracker, id: nat, deadline: nat, c: Ctx)
    requires Inv(s) && s.phase == Open && id !in s.asks && |s.queue| < s.size && s.hands == [] && c !in s.used
    ensures Steady(Filing(s, id, deadline, c))
    ensures var t := Filing(s, id, deadline, c).tracker;
            && t.batches == s.batches[c := Batch(0, Slots(s.queue + [id]))] && t.queue == [] && t.hands == []
            && t.asks == s.asks[id := Read(deadline, s.confirmed)] && t.tick == s.tick
            && (forall k :: k in s.queue + [id] ==> k in t.filed && t.filed[k] == c)
            && Some(id) in t.batches[c].slots
  {
    EnqueueKeeps(s, id, deadline);
    GetKeeps(Enqueue(s, id, deadline));
    var g := Get(Enqueue(s, id, deadline));
    FileKeeps(g, c);
    assert g.hands == s.queue + [id] && Slots(g.hands)[|s.queue|] == Some(id);
  }

  /** A read accepted by an open tracker, filed with everyone queued before it, and
      confirmed, completes when the confirmed index is applied; if its deadline has come
      by then it times out instead. */
  lemma AskedReadIsAnswered(s: Tracker, id: nat, deadline: nat, c: Ctx, to: nat, index: nat, applied: nat, w: Walks)
    requires Inv(s) && s.phase == Open && id !in s.asks && |s.queue| < s.size && s.hands == [] && c !in s.used
    requires 0 < index <= applied && Lists(w.applying, s.batches.Keys + {c}) && s.tick <= to
    ensures Steady(Filing(s, id, deadline, c))
    ensures var t := Filing(s, id, deadline, c).tracker.(tick := to);
            var o := Applied(AddReady(t, c, index), applied, w);
            && Good(o) && id in o.tracker.told
            && o.tracker.told[id] == [if to < deadline then Completed(to, c, index, applied) else Timeout(to)]
  {
    FilingFiles(s, id, deadline, c);
    var f := Filing(s, id, deadline, c).tracker;
    var t := f.(tick := to);
    HistoryAlike(f, t);
    assert t.batches.Keys == s.batches.Keys + {c};
    ConfirmedReadCompletes(t, c, index, applied, w, id);
  }

  /** A read the queue has no room for, or that comes after `close` stopped it, leaves no
      trace; any other is last on the queue, untold. */
  lemma AskQueues(s: Tracker, id: nat, readAt: nat, timeout: nat)
    requires Inv(s) && Enabled(s, Ask(id, readAt, timeout))
    ensures var t := Enqueue(s, id, Wrap64(readAt + timeout));
            if s.phase == Draining || s.phase == Closed || |s.queue| >= s.size then t == s
            else
              && t.queue == s.queue + [id] && t.told == s.told[id := []]
              && t.asks.Keys == s.asks.Keys + {id} && t.asks[id].deadline == Wrap64(readAt + timeout)
              && t.asks[id].before == s.confirmed && (forall k :: k in s.asks ==> t.asks[k] == s.asks[k])
  {}
}
