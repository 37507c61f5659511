/** Strings in the order `slices.Sort` gives them. Sorting is what makes a Go
    map iteration reproducible on every replica: whatever order the keys came
    in, the sorted sequence is the same one. */
module SortedStrings {
  import opened Basics


  predicate Below(a: string, b: string) {
    if b == [] then false
    else if a == [] then true
    else if a[0] != b[0] then a[0] < b[0]
    else Below(a[1..], b[1..])
  }

  predicate Ascending(r: seq<string>) {
    forall i, j :: 0 <= i < j < |r| ==> Below(r[i], r[j])
  }

  lemma {:induction false} BelowIrreflexive(a: string)
    ensures !Below(a, a)
  {
    if a != [] { BelowIrreflexive(a[1..]); }
  }

  lemma {:induction false} BelowTransitive(a: string, b: string, c: string)
    requires Below(a, b) && Below(b, c)
    ensures Below(a, c)
  {
    if a != [] && a[0] == b[0] == c[0] {
      BelowTransitive(a[1..], b[1..], c[1..]);
    }
  }

  lemma {:induction false} BelowTotal(a: string, b: string)
    ensures a == b || Below(a, b) || Below(b, a)
  {
    if a != [] && b != [] && a[0] == b[0] {
      BelowTotal(a[1..], b[1..]);
      assert a == [a[0]] + a[1..] && b == [b[0]] + b[1..];
    }
  }

  ghost predicate IsLeast(m: string, keys: set<string>) {
    m in keys && forall k :: k in keys && k != m ==> Below(m, k)
  }

  lemma {:induction false} LeastExists(keys: set<string>)
    requires keys != {}
    ensures exists m :: IsLeast(m, keys)
    decreases |keys|
  {
    var m :| m in keys;
    if keys == {m} {
      assert IsLeast(m, keys);
    } else {
      LeastExists(keys - {m});
      var rest :| IsLeast(rest, keys - {m});
      BelowTotal(m, rest);
      if Below(rest, m) {
        assert IsLeast(rest, keys);
      } else {
        forall k | k in keys && k != m && k != rest ensures Below(m, k) {
          BelowTransitive(m, rest, k);
        }
        assert IsLeast(m, keys);
      }
    }
  }

  /** The keys in ascending order. */
  ghost function Sorted(keys: set<string>): (r: seq<string>)
    ensures Ascending(r)
    ensures Elements(r) == keys
    decreases |keys|
  {
    if keys == {} then []
    else
      LeastExists(keys);
      var m :| IsLeast(m, keys);
      var rest := Sorted(keys - {m});
      assert forall k :: k in rest <==> k in Elements(rest);
      assert forall i :: 0 <= i < |rest| ==> rest[i] in Elements(rest) && Below(m, rest[i]);
      [m] + rest
  }

  /** There is one ascending sequence of a set of keys. */
  lemma {:induction false} SortedIsUnique(r: seq<string>, keys: set<string>)
    requires Ascending(r) && Elements(r) == keys
    ensures r == Sorted(keys)
    decreases |keys|
  {
    var want := Sorted(keys);
    assert forall k :: k in r <==> k in Elements(r);
    assert forall k :: k in want <==> k in Elements(want);
    if r == [] {
      assert keys == {};
    } else {
      assert r[0] in keys;
      FirstIsLeast(r);
      FirstIsLeast(want);
      if Below(r[0], want[0]) && Below(want[0], r[0]) {
        BelowTransitive(r[0], want[0], r[0]);
        BelowIrreflexive(r[0]);
      }
      assert r[0] == want[0];
      TailElements(r);
      SortedIsUnique(r[1..], keys - {r[0]});
      TailElements(want);
      SortedIsUnique(want[1..], keys - {want[0]});
    }
  }

  lemma FirstIsLeast(r: seq<string>)
    requires Ascending(r) && r != []
    ensures IsLeast(r[0], Elements(r))
  {
    assert r[0] in r;
    forall k | k in Elements(r) && k != r[0] ensures Below(r[0], k) {
      var i :| 0 <= i < |r| && r[i] == k;
    }
  }

  lemma TailElements(r: seq<string>)
    requires Ascending(r) && r != []
    ensures Ascending(r[1..])
    ensures Elements(r[1..]) == Elements(r) - {r[0]}
  {
    forall k | k in r[1..] ensures k != r[0] {
      var i :| 0 <= i < |r[1..]| && r[1..][i] == k;
      assert r[i + 1] == k;
      if k == r[0] { BelowIrreflexive(k); }
    }
    assert r == [r[0]] + r[1..];
  }

  /** `sortedKeys`: the map is ranged over in whatever order the runtime picks,
      then sorted. */
  method SortedKeys(keys: set<string>) returns (r: seq<string>)
    ensures r == Sorted(keys)
  {
    r := [];
    var todo := keys;
    while todo != {}
      invariant todo <= keys
      invariant Ascending(r) && Elements(r) == keys - todo
      decreases |todo|
    {
      var k :| k in todo;
      r := Insert(r, k);
      todo := todo - {k};
      assert Elements(r) == keys - todo;
    }
    SortedIsUnique(r, keys);
  }

  method Insert(r: seq<string>, k: string) returns (r': seq<string>)
    requires Ascending(r) && k !in Elements(r)
    ensures Ascending(r') && Elements(r') == Elements(r) + {k}
  {
    var i := 0;
    while i < |r| && Below(r[i], k)
      invariant 0 <= i <= |r|
      invariant forall j :: 0 <= j < i ==> Below(r[j], k)
    {
      i := i + 1;
    }
    r' := r[..i] + [k] + r[i..];
    InsertAscending(r, i, k);
  }

  lemma InsertAscending(r: seq<string>, i: nat, k: string)
    requires Ascending(r) && k !in Elements(r) && i <= |r|
    requires forall j :: 0 <= j < i ==> Below(r[j], k)
    requires i < |r| ==> !Below(r[i], k)
    ensures Ascending(r[..i] + [k] + r[i..])
    ensures Elements(r[..i] + [k] + r[i..]) == Elements(r) + {k}
  {
    var r' := r[..i] + [k] + r[i..];
    assert forall x :: x in r' <==> x in r || x == k by {
      assert r == r[..i] + r[i..];
    }
    forall j | i <= j < |r| ensures Below(k, r[j]) {
      AboveGap(r, i, j, k);
    }
    AscendingAround(r, i, k, r');
  }

  lemma AboveGap(r: seq<string>, i: nat, j: nat, k: string)
    requires Ascending(r) && i <= j < |r| && k !in r && !Below(r[i], k)
    ensures Below(k, r[j])
  {
    BelowTotal(k, r[i]);
    if i < j { BelowTransitive(k, r[i], r[j]); }
  }

  lemma AscendingAround(r: seq<string>, i: nat, k: string, r': seq<string>)
    requires Ascending(r) && i <= |r| && r' == r[..i] + [k] + r[i..]
    requires forall j :: 0 <= j < i ==> Below(r[j], k)
    requires forall j :: i <= j < |r| ==> Below(k, r[j])
    ensures Ascending(r')
  {
    assert forall a :: 0 <= a < |r'| ==> r'[a] == if a < i then r[a] else if a == i then k else r[a - 1];
  }
}
