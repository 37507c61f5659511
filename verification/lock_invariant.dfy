/** What every committed command keeps true of a shard. */
module LockInvariant {
  import opened SortedStrings
  import opened LockState

  ghost predicate Holds(s: State, k: string, c: string) {
    k in s.locks && s.locks[k].holder == c
  }

  ghost predicate Waits(s: State, k: string, c: string) {
    k in s.locks && IsQueued(s.locks[k].queue, c)
  }

  /** A queue holds each client once, oldest first, each with a lease, and never
      the holder itself. */
  ghost predicate QueueOk(s: State, lk: Lock) {
    && (forall i :: 0 <= i < |lk.queue| ==>
          && lk.queue[i].client in s.leases
          && lk.queue[i].client != lk.holder
          && 0 < lk.queue[i].seqNo <= s.seqNo)
    && (forall i, j :: 0 <= i < j < |lk.queue| ==>
          && lk.queue[i].client != lk.queue[j].client
          && lk.queue[i].seqNo < lk.queue[j].seqNo)
  }

  ghost predicate LockOk(s: State, lk: Lock) {
    && lk.holder in s.leases
    && 0 < lk.token <= s.seqNo
    && QueueOk(s, lk)
  }

  ghost predicate LocksOk(s: State) {
    && (forall k :: k in s.locks ==> LockOk(s, s.locks[k]))
    && (forall k, l :: k in s.locks && l in s.locks && k != l ==> s.locks[k].token != s.locks[l].token)
  }

  /** The lease of `d` lists key `k` exactly when `d` holds it or waits on it. */
  ghost predicate IndexedAt(s: State, k: string, d: string)
    requires d in s.leases
  {
    && (k in s.leases[d].held <==> Holds(s, k, d))
    && (k in s.leases[d].waiting <==> Waits(s, k, d))
  }

  ghost predicate Indexed(s: State, d: string)
    requires d in s.leases
  {
    forall k :: IndexedAt(s, k, d)
  }

  /** Every key in the table is held by a client with a live lease, its queue is
      in arrival order, tokens name one ownership each, and the lease indexes
      agree with the lock table. */
  ghost predicate Inv(s: State) {
    && LocksOk(s)
    && "" !in s.leases
    && forall d :: d in s.leases ==> Indexed(s, d)
  }

  lemma {:induction false} DequeueAt(q: seq<Waiter>, c: string, p: nat)
    requires p == QueuePos(q, c) > 0
    ensures |Dequeue(q, c)| == |q| - 1
    ensures forall i :: 0 <= i < p - 1 ==> Dequeue(q, c)[i] == q[i]
    ensures forall i :: p - 1 <= i < |q| - 1 ==> Dequeue(q, c)[i] == q[i + 1]
  {
    assert Dequeue(q, c) == q[..p - 1] + q[p..];
  }

  lemma {:induction false} DequeueOk(s: State, lk: Lock, c: string)
    requires QueueOk(s, lk)
    ensures QueueOk(s, lk.(queue := Dequeue(lk.queue, c)))
  {
    if QueuePos(lk.queue, c) > 0 { DequeueAt(lk.queue, c, QueuePos(lk.queue, c)); }
  }

  lemma {:induction false} DequeueQueued(q: seq<Waiter>, c: string, d: string)
    requires forall i, j :: 0 <= i < j < |q| ==> q[i].client != q[j].client
    ensures IsQueued(Dequeue(q, c), d) <==> IsQueued(q, d) && d != c
  {
    var p, q' := QueuePos(q, c), Dequeue(q, c);
    if p > 0 {
      DequeueAt(q, c, p);
      if IsQueued(q, d) && d != c {
        var i :| 0 <= i < |q| && q[i].client == d;
        assert q'[if i < p - 1 then i else i - 1].client == d;
      }
    }
  }

  lemma AppendQueued(q: seq<Waiter>, w: Waiter, d: string)
    ensures IsQueued(q + [w], d) <==> IsQueued(q, d) || d == w.client
  {
    var q' := q + [w];
    assert q'[|q|] == w;
    if IsQueued(q, d) {
      var i :| 0 <= i < |q| && q[i].client == d;
      assert q'[i].client == d;
    }
  }

  lemma TailQueued(q: seq<Waiter>, d: string)
    requires q != []
    requires forall i :: 0 < i < |q| ==> q[i].client != q[0].client
    ensures IsQueued(q[1..], d) <==> IsQueued(q, d) && d != q[0].client
  {
    if IsQueued(q, d) && d != q[0].client {
      var i :| 0 <= i < |q| && q[i].client == d;
      assert q[1..][i - 1].client == d;
    }
  }

  lemma LockStaysOk(s: State, s': State, lk: Lock)
    requires LockOk(s, lk)
    requires s.leases.Keys <= s'.leases.Keys && s.seqNo <= s'.seqNo
    ensures LockOk(s', lk)
  {}

  /** Rewriting one key keeps the table well-formed when the new entry is. */
  lemma SetLock(s: State, s': State, name: string, lk: Lock)
    requires LocksOk(s)
    requires s.leases.Keys <= s'.leases.Keys && s.seqNo <= s'.seqNo
    requires s'.locks == s.locks[name := lk]
    requires LockOk(s', lk)
    requires lk.token > s.seqNo || (name in s.locks && lk.token == s.locks[name].token)
    ensures LocksOk(s')
  {
    forall k | k in s'.locks && k != name ensures LockOk(s', s'.locks[k]) {
      LockStaysOk(s, s', s.locks[k]);
    }
  }

  /** Changes confined to one key leave every other key's index entries right. */
  lemma SetIndex(s: State, s': State, name: string, d: string)
    requires d in s.leases && d in s'.leases && Indexed(s, d)
    requires forall k :: k != name ==> (k in s.locks <==> k in s'.locks) && (k in s.locks ==> s.locks[k] == s'.locks[k])
    requires s'.leases[d].held - {name} == s.leases[d].held - {name}
    requires s'.leases[d].waiting - {name} == s.leases[d].waiting - {name}
    requires IndexedAt(s', name, d)
    ensures Indexed(s', d)
  {
    forall k | k != name ensures IndexedAt(s', k, d) {
      assert IndexedAt(s, k, d);
      assert k in s'.leases[d].held - {name} <==> k in s.leases[d].held;
      assert k in s'.leases[d].waiting - {name} <==> k in s.leases[d].waiting;
    }
  }

  lemma GrantFreeKeeps(s: State, name: string, c: string, value: Value)
    requires Inv(s) && c in s.leases && name !in s.locks
    ensures Inv(Grant(s, name, c, value).state)
  {
    var s' := Grant(s, name, c, value).state;
    SetLock(s, s', name, s'.locks[name]);
    forall d | d in s'.leases ensures Indexed(s', d) {
      assert IndexedAt(s, name, d);
      assert !IsQueued([], d);
      SetIndex(s, s', name, d);
    }
  }

  /** Asking for a key that is not free changes no ownership. */
  lemma {:induction false} AcquireHeldShape(s: State, name: string, c: string, value: Value, try: bool)
    requires c !in s.leases || (name in s.locks && s.locks[name].holder != "")
    ensures var r := Acquire(s, name, c, value, try);
            && r.events == []
            && r.state.locks.Keys == s.locks.Keys
            && (forall k :: k in s.locks ==> r.state.locks[k] == s.locks[k].(queue := r.state.locks[k].queue))
            && (r.reply.result.outcome == Granted ==> r.reply.result.key == name && name in s.locks && s.locks[name].holder == c)
  {}

  lemma EnqueuedOk(s: State, s': State, lk: Lock, lk': Lock, w: Waiter)
    requires LockOk(s, lk) && lk' == lk.(queue := lk.queue + [w])
    requires s.leases.Keys <= s'.leases.Keys && w.seqNo == s'.seqNo == s.seqNo + 1
    requires w.client in s'.leases && w.client != lk.holder && !IsQueued(lk.queue, w.client)
    ensures LockOk(s', lk')
  {}

  lemma EnqueueKeeps(s: State, name: string, c: string, value: Value)
    requires Inv(s) && c in s.leases && name in s.locks
    requires s.locks[name].holder != c && name !in s.leases[c].waiting
    ensures Inv(Enqueue(s, name, c, value))
  {
    var s' := Enqueue(s, name, c, value);
    var lk, w := s.locks[name], Waiter(c, s.seqNo + 1, value);
    assert IndexedAt(s, name, c);
    EnqueuedOk(s, s', lk, s'.locks[name], w);
    SetLock(s, s', name, s'.locks[name]);
    forall d | d in s'.leases ensures Indexed(s', d) {
      assert IndexedAt(s, name, d);
      AppendQueued(lk.queue, w, d);
      SetIndex(s, s', name, d);
    }
  }

  /** Promotion gives the key to the head of the queue, or drops it. */
  lemma PromoteHead(s: State, name: string)
    requires LocksOk(s) && name in s.locks
    ensures var q := s.locks[name].queue;
            Promote(s, name) ==
            if q == [] then Effect(s.(locks := s.locks - {name}), [Event(name, "", 0, NoValue, s.revision)])
            else Grant(s.(locks := s.locks[name := s.locks[name].(queue := q[1..])]), name, q[0].client, q[0].value)
  {
    assert LockOk(s, s.locks[name]);
  }

  lemma PromotedOk(s: State, s': State, lk: Lock, lk': Lock)
    requires LockOk(s, lk) && lk.queue != []
    requires s'.leases.Keys == s.leases.Keys && s'.seqNo == s.seqNo + 1
    requires lk'.holder == lk.queue[0].client && lk'.token == s'.seqNo && lk'.queue == lk.queue[1..]
    ensures LockOk(s', lk')
  {}

  lemma RemoveLock(s: State, s': State, name: string)
    requires LocksOk(s) && s' == s.(locks := s.locks - {name})
    ensures LocksOk(s')
  {
    forall k | k in s'.locks ensures LockOk(s', s'.locks[k]) {
      LockStaysOk(s, s', s.locks[k]);
    }
  }

  lemma {:induction false} PromoteLocks(s: State, name: string)
    requires LocksOk(s) && name in s.locks
    ensures LocksOk(Promote(s, name).state)
  {
    PromoteHead(s, name);
    var s' := Promote(s, name).state;
    var lk := s.locks[name];
    assert LockOk(s, lk);
    if lk.queue == [] {
      RemoveLock(s, s', name);
    } else {
      assert s'.leases.Keys == s.leases.Keys;
      PromotedOk(s, s', lk, s'.locks[name]);
      SetLock(s, s', name, s'.locks[name]);
    }
  }

  /** A client that was not the holder stays indexed right; the old holder ends
      up neither holding nor waiting. */
  lemma PromoteIndexAt(s: State, name: string, d: string)
    requires LocksOk(s) && name in s.locks && d in s.leases
    requires d != s.locks[name].holder ==> IndexedAt(s, name, d)
    requires d == s.locks[name].holder ==> name !in s.leases[d].held && name !in s.leases[d].waiting
    ensures IndexedAt(Promote(s, name).state, name, d)
  {
    PromoteHead(s, name);
    var lk := s.locks[name];
    assert LockOk(s, lk);
    if lk.queue != [] { TailQueued(lk.queue, d); }
  }

  lemma PromoteFrame(s: State, name: string, d: string)
    requires LocksOk(s) && name in s.locks && d in s.leases
    ensures var s' := Promote(s, name).state;
            && s'.leases.Keys == s.leases.Keys
            && s'.leases[d].held - {name} == s.leases[d].held - {name}
            && s'.leases[d].waiting - {name} == s.leases[d].waiting - {name}
            && forall k :: k != name ==> (k in s.locks <==> k in s'.locks) && (k in s.locks ==> s.locks[k] == s'.locks[k])
  {
    PromoteHead(s, name);
    assert LockOk(s, s.locks[name]);
  }

  lemma UnholdOk(s: State, name: string, c: string)
    requires LocksOk(s)
    ensures LocksOk(Unhold(s, name, c))
  {
    var s1 := Unhold(s, name, c);
    forall k | k in s1.locks ensures LockOk(s1, s1.locks[k]) { LockStaysOk(s, s1, s.locks[k]); }
  }

  lemma ReleaseKeeps(s: State, name: string, c: string, token: nat)
    requires Inv(s)
    ensures Inv(Release(s, name, c, token).state)
  {
    if HeldBy(s, name, c) && s.locks[name].token == token {
      var s1 := Unhold(s, name, c);
      var s' := Promote(s1, name).state;
      assert LockOk(s, s.locks[name]);
      UnholdOk(s, name, c);
      PromoteLocks(s1, name);
      forall d | d in s'.leases ensures Indexed(s', d) {
        PromoteFrame(s1, name, d);
        assert IndexedAt(s, name, d);
        PromoteIndexAt(s1, name, d);
        SetIndex(s, s', name, d);
      }
    }
  }

  lemma CancelKeeps(s: State, name: string, c: string)
    requires Inv(s)
    ensures Inv(Cancel(s, name, c).state)
  {
    if name in s.locks && QueuePos(s.locks[name].queue, c) > 0 {
      var s' := Cancel(s, name, c).state;
      var lk := s.locks[name];
      assert LockOk(s, lk);
      DequeueOk(s, lk, c);
      LockStaysOk(s, s', s'.locks[name]);
      SetLock(s, s', name, s'.locks[name]);
      forall d | d in s'.leases ensures Indexed(s', d) {
        assert IndexedAt(s, name, d);
        DequeueQueued(lk.queue, c, d);
        SetIndex(s, s', name, d);
      }
    }
  }

  lemma PublishKeeps(s: State, name: string, c: string, token: nat, value: Value)
    requires Inv(s)
    ensures Inv(Publish(s, name, c, token, value).state)
  {
    if HeldBy(s, name, c) && s.locks[name].token == token {
      var s' := Publish(s, name, c, token, value).state;
      assert LockOk(s, s.locks[name]);
      SetLock(s, s', name, s'.locks[name]);
      forall d | d in s'.leases ensures Indexed(s', d) {
        assert IndexedAt(s, name, d);
        SetIndex(s, s', name, d);
      }
    }
  }

  /** Moving a deadline, or adding a client with empty indexes, keeps the
      invariant; a client named "" is the one that must not get a lease. */
  lemma LeaseKeeps(s: State, s': State, c: string)
    requires Inv(s) && c != ""
    requires s'.locks == s.locks && s'.seqNo == s.seqNo
    requires c in s'.leases && s'.leases - {c} == s.leases - {c}
    requires c in s.leases ==> s'.leases[c].held == s.leases[c].held && s'.leases[c].waiting == s.leases[c].waiting
    requires c !in s.leases ==> s'.leases[c].held == {} && s'.leases[c].waiting == {}
    ensures Inv(s')
  {
    assert s'.leases.Keys == s.leases.Keys + {c} by {
      assert forall d :: d != c ==> (d in s'.leases <==> d in s'.leases - {c}) && (d in s.leases <==> d in s.leases - {c});
    }
    forall k | k in s'.locks ensures LockOk(s', s'.locks[k]) { LockStaysOk(s, s', s.locks[k]); }
    forall d | d in s'.leases ensures Indexed(s', d) {
      if d in s.leases {
        if d != c { assert s'.leases[d] == (s'.leases - {c})[d] == (s.leases - {c})[d]; }
        forall k ensures IndexedAt(s', k, d) { assert IndexedAt(s, k, d); }
      } else {
        forall k ensures IndexedAt(s', k, d) {
          if k in s.locks { assert LockOk(s, s.locks[k]); }
        }
      }
    }
  }
}
