/** Dropping a lease: what it does to every key, whatever number of keys the
    client held or waited on. */
module LockDrop {
  import opened Basics
  import opened SortedStrings
  import opened LockState
  import opened LockInvariant

  /** The invariant while client `c` is being dropped: `c` holds and waits on
      exactly the two given sets, whatever its lease still lists. */
  ghost predicate Dropping(s: State, c: string, held: set<string>, waiting: set<string>) {
    && LocksOk(s)
    && "" !in s.leases
    && c in s.leases
    && (forall d :: d in s.leases && d != c ==> Indexed(s, d))
    && (forall k :: k in held <==> Holds(s, k, c))
    && (forall k :: k in waiting <==> Waits(s, k, c))
  }

  ghost predicate Distinct(names: seq<string>) {
    forall i, j :: 0 <= i < j < |names| ==> names[i] != names[j]
  }

  /** Key `k` went from its holder to the head of its queue, with a token newer
      than every earlier one, or away when the queue was empty. */
  ghost predicate Passed(s: State, k: string, s': State)
    requires k in s.locks
  {
    var q := s.locks[k].queue;
    if q == [] then k !in s'.locks
    else
      && k in s'.locks
      && s'.locks[k].holder == q[0].client
      && s'.locks[k].value == q[0].value
      && s'.locks[k].queue == q[1..]
      && s.seqNo < s'.locks[k].token
  }

  ghost predicate Kept(s: State, k: string, s': State) {
    && (k in s'.locks <==> k in s.locks)
    && (k in s.locks ==> s'.locks[k] == s.locks[k])
  }

  /** What dropping client `c` does to one key. */
  ghost predicate DroppedFrom(s: State, c: string, k: string, s': State) {
    if Holds(s, k, c) then Passed(s, k, s')
    else if Waits(s, k, c) then
      k in s'.locks && s'.locks[k] == s.locks[k].(queue := Dequeue(s.locks[k].queue, c))
    else Kept(s, k, s')
  }

  lemma PromotePasses(s: State, name: string)
    requires LocksOk(s) && name in s.locks
    ensures Passed(s, name, Promote(s, name).state)
    ensures s.seqNo <= Promote(s, name).state.seqNo
    ensures Promote(s, name).state.revision == s.revision
  {
    PromoteHead(s, name);
    assert LockOk(s, s.locks[name]);
  }

  lemma PromoteDropping(s: State, c: string, name: string, held: set<string>, waiting: set<string>)
    requires Dropping(s, c, held, waiting) && name in held
    ensures Dropping(Promote(s, name).state, c, held - {name}, waiting)
    ensures Promote(s, name).state.leases.Keys == s.leases.Keys
    ensures Promote(s, name).state.leases[c] == s.leases[c]
  {
    assert Holds(s, name, c);
    var s' := Promote(s, name).state;
    var q := s.locks[name].queue;
    assert LockOk(s, s.locks[name]);
    PromoteLocks(s, name);
    PromoteHead(s, name);
    PromoteFrame(s, name, c);
    forall d | d in s'.leases && d != c ensures Indexed(s', d) {
      PromoteFrame(s, name, d);
      assert IndexedAt(s, name, d);
      PromoteIndexAt(s, name, d);
      SetIndex(s, s', name, d);
    }
    forall k ensures k in waiting <==> Waits(s', k, c) {
      if k == name && q != [] { TailQueued(q, c); }
    }
  }

  lemma PassedLater(s: State, s1: State, k: string, s': State)
    requires k in s.locks && s.seqNo <= s1.seqNo
    requires (Passed(s, k, s1) && Kept(s1, k, s')) || (Kept(s, k, s1) && Passed(s1, k, s'))
    ensures Passed(s, k, s')
  {}

  lemma TailNames(names: seq<string>, all: set<string>)
    requires names != [] && Distinct(names) && Elements(names) == all
    ensures Distinct(names[1..]) && Elements(names[1..]) == all - {names[0]}
  {
    assert names == [names[0]] + names[1..];
    assert forall i :: 0 <= i < |names[1..]| ==> names[1..][i] == names[i + 1];
  }

  lemma {:induction false} ReleaseEachDrops(s: State, c: string, names: seq<string>, held: set<string>, waiting: set<string>)
    requires Dropping(s, c, held, waiting)
    requires Distinct(names) && Elements(names) == held
    ensures var s' := ReleaseEach(s, c, names).state;
            && Dropping(s', c, {}, waiting)
            && s'.leases.Keys == s.leases.Keys && s'.leases[c] == s.leases[c]
            && s.seqNo <= s'.seqNo && s'.revision == s.revision
    ensures forall k :: k in held ==> Holds(s, k, c) && Passed(s, k, ReleaseEach(s, c, names).state)
    ensures forall k :: k !in held ==> Kept(s, k, ReleaseEach(s, c, names).state)
    decreases |names|
  {
    if names == [] {
      assert held == {};
    } else {
      var name := names[0];
      assert name in held && Holds(s, name, c);
      var s1 := Promote(s, name).state;
      PromotePasses(s, name);
      PromoteFrame(s, name, c);
      PromoteDropping(s, c, name, held, waiting);
      TailNames(names, held);
      ReleaseEachDrops(s1, c, names[1..], held - {name}, waiting);
      var s' := ReleaseEach(s1, c, names[1..]).state;
      assert Kept(s1, name, s');
      forall k | k in held ensures Holds(s, k, c) && Passed(s, k, s') {
        assert Holds(s, k, c);
        PassedLater(s, s1, k, s');
      }
      forall k | k !in held ensures Kept(s, k, s') { assert Kept(s1, k, s'); }
    }
  }

  lemma DequeueDropping(s: State, c: string, name: string, waiting: set<string>)
    requires Dropping(s, c, {}, waiting) && name in waiting
    ensures var s' := s.(locks := s.locks[name := s.locks[name].(queue := Dequeue(s.locks[name].queue, c))]);
            Waits(s, name, c) && Dropping(s', c, {}, waiting - {name})
  {
    assert Waits(s, name, c);
    var lk := s.locks[name];
    var s' := s.(locks := s.locks[name := lk.(queue := Dequeue(lk.queue, c))]);
    assert LockOk(s, lk);
    DequeueOk(s, lk, c);
    SetLock(s, s', name, s'.locks[name]);
    forall d | d in s'.leases && d != c ensures Indexed(s', d) {
      assert IndexedAt(s, name, d);
      DequeueQueued(lk.queue, c, d);
      SetIndex(s, s', name, d);
    }
    DequeueQueued(lk.queue, c, c);
    forall k ensures k in waiting - {name} <==> Waits(s', k, c) {}
    forall k ensures !Holds(s', k, c) { assert !Holds(s, k, c); }
  }

  lemma {:induction false} DequeueEachDrops(s: State, c: string, names: seq<string>, waiting: set<string>)
    requires Dropping(s, c, {}, waiting)
    requires Distinct(names) && Elements(names) == waiting
    ensures var s' := DequeueEach(s, c, names);
            && Dropping(s', c, {}, {})
            && s'.leases == s.leases && s'.seqNo == s.seqNo && s'.revision == s.revision
    ensures forall k :: k in waiting ==> Waits(s, k, c) && DroppedFrom(s, c, k, DequeueEach(s, c, names))
    ensures forall k :: k !in waiting ==> Kept(s, k, DequeueEach(s, c, names))
    decreases |names|
  {
    if names == [] {
      assert waiting == {};
    } else {
      var name := names[0];
      DequeueDropping(s, c, name, waiting);
      var lk := s.locks[name];
      var s1 := s.(locks := s.locks[name := lk.(queue := Dequeue(lk.queue, c))]);
      TailNames(names, waiting);
      DequeueEachDrops(s1, c, names[1..], waiting - {name});
      var s' := DequeueEach(s1, c, names[1..]);
      assert Kept(s1, name, s');
      forall k | k in waiting ensures Waits(s, k, c) && DroppedFrom(s, c, k, s') {
        assert !Holds(s, k, c);
        if k != name { assert DroppedFrom(s1, c, k, s') && !Holds(s1, k, c); }
      }
      forall k | k !in waiting ensures Kept(s, k, s') { assert Kept(s1, k, s'); }
    }
  }

  lemma AscendingDistinct(r: seq<string>)
    requires Ascending(r)
    ensures Distinct(r)
  {
    forall i, j | 0 <= i < j < |r| ensures r[i] != r[j] {
      BelowIrreflexive(r[i]);
    }
  }

  /** Under the invariant a lease lists exactly what its client holds and waits on. */
  lemma IndexSets(s: State, c: string)
    requires Inv(s) && c in s.leases
    ensures Dropping(s, c, s.leases[c].held, s.leases[c].waiting)
  {
    assert Indexed(s, c);
    forall k ensures k in s.leases[c].held <==> Holds(s, k, c) { assert IndexedAt(s, k, c); }
    forall k ensures k in s.leases[c].waiting <==> Waits(s, k, c) { assert IndexedAt(s, k, c); }
  }

  lemma ForgetLease(s: State, c: string)
    requires Dropping(s, c, {}, {})
    ensures Inv(s.(leases := s.leases - {c}))
  {
    var s' := s.(leases := s.leases - {c});
    forall k | k in s'.locks ensures LockOk(s', s'.locks[k]) {
      var lk := s.locks[k];
      assert LockOk(s, lk) && !Holds(s, k, c) && !Waits(s, k, c);
      forall i | 0 <= i < |lk.queue| ensures lk.queue[i].client in s'.leases {
        assert IsQueued(lk.queue, lk.queue[i].client);
      }
    }
    forall d | d in s'.leases ensures Indexed(s', d) {
      forall k ensures IndexedAt(s', k, d) { assert IndexedAt(s, k, d); }
    }
  }

  /** Dropping a lease keeps the invariant, passes on every key the client held
      to the head of that key's queue, takes it out of every queue it was in,
      and leaves every other key as it was. */
  lemma DropLeaseEffect(s: State, c: string)
    requires Inv(s) && c in s.leases
    ensures var s' := DropLease(s, c).state;
            && Inv(s')
            && s'.leases.Keys == s.leases.Keys - {c}
            && s.seqNo <= s'.seqNo && s'.revision == s.revision
            && forall k :: DroppedFrom(s, c, k, s')
  {
    var held, waiting := s.leases[c].held, s.leases[c].waiting;
    IndexSets(s, c);
    var names := Sorted(held);
    AscendingDistinct(names);
    ReleaseEachDrops(s, c, names, held, waiting);
    var s1 := ReleaseEach(s, c, names).state;
    AscendingDistinct(Sorted(waiting));
    DequeueEachDrops(s1, c, Sorted(waiting), waiting);
    var s2 := DequeueEach(s1, c, Sorted(waiting));
    ForgetLease(s2, c);
    var s' := DropLease(s, c).state;
    assert s' == s2.(leases := s2.leases - {c});
    forall k ensures DroppedFrom(s, c, k, s') {
      if k in held {
        assert Passed(s, k, s1);
        assert Holds(s, k, c) && LockOk(s, s.locks[k]);
        assert k !in waiting;
        assert Kept(s1, k, s2);
      } else {
        assert Kept(s, k, s1);
        if k in waiting { assert DroppedFrom(s1, c, k, s2) && !Holds(s1, k, c); } else { assert Kept(s1, k, s2); }
      }
    }
  }
}
