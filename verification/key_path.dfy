/** Resource paths, `/<user>/<dir.../><name>`: what a canonical path is, and what it
    means for one to lie under another. */
module KeyPath {

  const MAX_SEGMENT: nat := 255
  const MAX_PATH: nat := 1024

  predicate SegmentRune(r: char) {
    'a' <= r <= 'z' || 'A' <= r <= 'Z' || '0' <= r <= '9' || r in {'.', '_', '@', '-'}
  }

  predicate ValidSegment(s: string) {
    && s != "" && s != "." && s != ".." && |s| <= MAX_SEGMENT
    && (forall i :: 0 <= i < |s| ==> SegmentRune(s[i]))
  }

  /** The first slash at or after `i`, or the length. */
  function Slash(s: string, i: nat): (r: nat)
    requires i <= |s|
    ensures i <= r <= |s| && (r < |s| ==> s[r] == '/') && (forall k :: i <= k < r ==> s[k] != '/')
    decreases |s| - i
  {
    if i == |s| || s[i] == '/' then i else Slash(s, i + 1)
  }

  function Split(s: string): (segs: seq<string>)
    ensures |segs| > 0
    decreases |s|
  {
    var i := Slash(s, 0);
    if i == |s| then [s] else [s[..i]] + Split(s[i + 1..])
  }

  predicate Validate(key: string) {
    && key != "" && |key| <= MAX_PATH && key[0] == '/' && key[|key| - 1] != '/'
    && var segs := Split(key[1..]);
       |segs| >= 2 && forall i :: 0 <= i < |segs| ==> ValidSegment(segs[i])
  }

  function TrimSlash(s: string): string {
    if s != "" && s[|s| - 1] == '/' then s[..|s| - 1] else s
  }

  /** Is the key the prefix, or below it? */
  predicate HasPrefix(prefix: string, key: string) {
    prefix == "" || (var p := TrimSlash(prefix); key == p || p + "/" <= key)
  }

  datatype Owned = Owner(name: string) | NotCanonical

  function OwnerOf(key: string): Owned {
    if !Validate(key) then NotCanonical
    else
      var rest := key[1..];
      Owner(rest[..Slash(rest, 0)])
  }

  // --------------------------------------------------------- what they mean

  /** A path is its segments, each behind a slash. */
  function Join(segs: seq<string>): string {
    if segs == [] then "" else "/" + segs[0] + Join(segs[1..])
  }

  predicate SlashFree(s: string) {
    forall i :: 0 <= i < |s| ==> s[i] != '/'
  }

  ghost predicate AllSlashFree(segs: seq<string>) {
    forall i :: 0 <= i < |segs| ==> SlashFree(segs[i])
  }

  lemma SlashAfter(s: string, rest: string)
    requires SlashFree(s) && (rest == "" || rest[0] == '/')
    ensures Slash(s + rest, 0) == |s|
  {
    assert forall i :: 0 <= i < |s| ==> (s + rest)[i] == s[i];
    if rest != "" { assert (s + rest)[|s|] == '/'; }
  }

  lemma SplitOff(seg: string, rest: string)
    requires SlashFree(seg) && (rest == "" || rest[0] == '/')
    ensures Split(seg + rest) == if rest == "" then [seg] else [seg] + Split(rest[1..])
  {
    SlashAfter(seg, rest);
    assert (seg + rest)[..|seg|] == seg;
    if rest == "" { assert seg + rest == seg; } else { assert (seg + rest)[|seg| + 1..] == rest[1..]; }
  }

  /** Splitting undoes joining ... */
  lemma {:induction false} SplitJoin(segs: seq<string>)
    requires segs != [] && AllSlashFree(segs)
    ensures Join(segs) != "" && Join(segs)[0] == '/' && Split(Join(segs)[1..]) == segs
  {
    var rest := Join(segs[1..]);
    assert Join(segs)[1..] == segs[0] + rest;
    if |segs| > 1 { SplitJoin(segs[1..]); } else { assert rest == ""; }
    SplitOff(segs[0], rest);
  }

  /** ... and joining undoes splitting. */
  lemma {:induction false} JoinSplit(s: string)
    ensures Join(Split(s)) == "/" + s
    decreases |s|
  {
    var i := Slash(s, 0);
    if i == |s| {
      assert Join([s]) == "/" + s + Join([]);
    } else {
      var tail := Split(s[i + 1..]);
      JoinSplit(s[i + 1..]);
      assert Split(s)[1..] == tail;
      Parts(s, i);
    }
  }

  lemma Parts(s: string, i: nat)
    requires i < |s| && s[i] == '/'
    ensures "/" + s[..i] + ("/" + s[i + 1..]) == "/" + s
  {}

  lemma {:induction false} SplitSlashFree(s: string)
    ensures AllSlashFree(Split(s))
    decreases |s|
  {
    var i := Slash(s, 0);
    if i < |s| {
      SplitSlashFree(s[i + 1..]);
      forall k | 0 <= k < |Split(s)| ensures SlashFree(Split(s)[k]) {
        if k > 0 { assert Split(s)[k] == Split(s[i + 1..])[k - 1]; }
      }
    }
  }

  /** A path of legal segments. */
  ghost predicate Canonical(segs: seq<string>) {
    |segs| >= 2 && (forall i :: 0 <= i < |segs| ==> ValidSegment(segs[i])) && |Join(segs)| <= MAX_PATH
  }

  lemma ValidIsSlashFree(s: string)
    requires ValidSegment(s)
    ensures SlashFree(s)
  {
    forall i | 0 <= i < |s| ensures s[i] != '/' { assert SegmentRune(s[i]); }
  }

  lemma {:induction false} JoinEnds(segs: seq<string>)
    requires segs != [] && segs[|segs| - 1] != ""
    ensures Join(segs) != "" && Join(segs)[0] == '/'
    ensures Join(segs)[|Join(segs)| - 1] == segs[|segs| - 1][|segs[|segs| - 1]| - 1]
  {
    if |segs| > 1 {
      JoinEnds(segs[1..]);
    } else {
      assert Join(segs) == "/" + segs[0] + "";
    }
  }

  /** The valid keys are exactly the paths of two or more legal segments. */
  lemma ValidIffCanonical(key: string)
    ensures Validate(key) <==> exists segs :: Canonical(segs) && key == Join(segs)
  {
    if Validate(key) {
      JoinSplit(key[1..]);
      assert key == "/" + key[1..];
      assert Canonical(Split(key[1..]));
    }
    if segs :| Canonical(segs) && key == Join(segs) {
      forall i | 0 <= i < |segs| ensures SlashFree(segs[i]) { ValidIsSlashFree(segs[i]); }
      SplitJoin(segs);
      assert ValidSegment(segs[|segs| - 1]);
      JoinEnds(segs);
    }
  }

  /** The owner of a path is its first segment. */
  lemma OwnerIsFirst(segs: seq<string>)
    requires Canonical(segs)
    ensures OwnerOf(Join(segs)) == Owner(segs[0])
  {
    ValidIffCanonical(Join(segs));
    assert ValidSegment(segs[0]);
    ValidIsSlashFree(segs[0]);
    assert Join(segs)[1..] == segs[0] + Join(segs[1..]);
    SlashAfter(segs[0], Join(segs[1..]));
  }

  // ---------------------------------------------------------------- prefixes

  /** A path with a closing slash. */
  function Closed(segs: seq<string>): string {
    if segs == [] then "/" else "/" + segs[0] + Closed(segs[1..])
  }

  lemma {:induction false} ClosedIsJoin(segs: seq<string>)
    ensures Closed(segs) == Join(segs) + "/" && Closed(segs) != "" && Closed(segs)[0] == '/'
  {
    if segs != [] { ClosedIsJoin(segs[1..]); }
  }

  /** With closing slashes, being below is being a prefix. */
  lemma {:induction false} ClosedPrefix(a: seq<string>, b: seq<string>)
    requires AllSlashFree(a) && AllSlashFree(b)
    ensures Closed(a) <= Closed(b) <==> a <= b
    decreases |a|
  {
    ClosedIsJoin(b);
    if a != [] && b != [] {
      ClosedIsJoin(a[1..]);
      ClosedIsJoin(b[1..]);
      ClosedPrefix(a[1..], b[1..]);
      HeadPrefix(a[0], Closed(a[1..]), b[0], Closed(b[1..]));
      assert a == [a[0]] + a[1..] && b == [b[0]] + b[1..];
    } else if a != [] {
      ClosedIsJoin(a[1..]);
      assert |Closed(a)| >= 2;
    }
  }

  lemma OneFirstSlash(s: string, i: nat, j: nat)
    requires i < |s| && j < |s| && s[i] == '/' && s[j] == '/'
    requires (forall k :: 0 <= k < i ==> s[k] != '/') && (forall k :: 0 <= k < j ==> s[k] != '/')
    ensures i == j
  {}

  lemma HeadPrefix(x: string, u: string, y: string, v: string)
    requires SlashFree(x) && SlashFree(y) && u != "" && v != "" && u[0] == '/' && v[0] == '/'
    ensures "/" + x + u <= "/" + y + v <==> x == y && u <= v
  {
    var p, q := "/" + x + u, "/" + y + v;
    assert p[1..] == x + u && q[1..] == y + v;
    if p <= q {
      var s := y + v;
      assert forall k :: 0 <= k < |x + u| ==> p[1 + k] == q[1 + k] && s[k] == (x + u)[k];
      OneFirstSlash(s, |x|, |y|);
      assert s[..|x|] == x && s[..|y|] == y;
      assert (x + u)[|x|..] == u && s[|y|..] == v;
    }
  }

  lemma PrefixByClosing(p: string, key: string)
    ensures (key == p || p + "/" <= key) <==> p + "/" <= key + "/"
  {
    if p + "/" <= key + "/" && |p| < |key| {
      assert (p + "/") == (key + "/")[..|p| + 1] == key[..|p| + 1];
    }
    if p + "/" <= key + "/" && |p| == |key| {
      assert (p + "/")[..|p|] == p && (key + "/")[..|p|] == key;
    }
  }

  datatype Directory = Dir(segs: seq<string>) | NoPath

  /** The directory a prefix names. The wildcard "" and "/" name the root; one closing
      slash is ignored; what does not begin with a slash names none. */
  function DirectoryOf(prefix: string): Directory {
    var p := TrimSlash(prefix);
    if p == "" then Dir([]) else if p[0] == '/' then Dir(Split(p[1..])) else NoPath
  }

  /** On keys that are no paths the wildcard and the root differ: the wildcard covers every
      key, the root those that begin with a slash. */
  lemma WildcardCoversAll(key: string)
    ensures HasPrefix("", key)
    ensures HasPrefix("/", key) <==> key == "" || key[0] == '/'
  {
    assert TrimSlash("/") == "";
    assert "" + "/" <= key <==> key != "" && key[0] == '/';
  }

  /** A prefix covers a path if and only if the segments of the directory it names start
      the path's segments: no sibling whose name merely starts the same way is covered. */
  lemma PrefixIsSegmentwise(prefix: string, b: seq<string>)
    requires AllSlashFree(b)
    ensures HasPrefix(prefix, Join(b)) <==> DirectoryOf(prefix).Dir? && DirectoryOf(prefix).segs <= b
  {
    var p, key := TrimSlash(prefix), Join(b);
    PathStarts(b);
    if p == "" {
      assert key == p || p + "/" <= key;
    } else if p[0] == '/' {
      var a := Split(p[1..]);
      JoinSplit(p[1..]);
      SplitSlashFree(p[1..]);
      assert p == "/" + p[1..] == Join(a);
      PrefixByClosing(p, key);
      ClosedIsJoin(a);
      ClosedIsJoin(b);
      ClosedPrefix(a, b);
    } else {
      assert (p + "/")[0] == p[0];
    }
  }

  lemma PathStarts(b: seq<string>)
    ensures if b == [] then Join(b) == "" else Join(b) != "" && Join(b)[0] == '/'
  {}

  /** A closing slash on a prefix changes nothing, unless it is the wildcard. */
  lemma ClosingSlashIsIgnored(prefix: string, key: string)
    requires prefix != "" && prefix[|prefix| - 1] != '/'
    ensures HasPrefix(prefix + "/", key) <==> HasPrefix(prefix, key)
    ensures DirectoryOf(prefix + "/") == DirectoryOf(prefix)
  {
    assert TrimSlash(prefix + "/") == prefix;
  }

  /** A user owns exactly the canonical paths under the user's own directory. */
  lemma OwnsIffBelow(segs: seq<string>, user: string)
    requires Canonical(segs) && SlashFree(user) && user != ""
    ensures OwnerOf(Join(segs)) == Owner(user) <==> HasPrefix("/" + user, Join(segs))
  {
    OwnerIsFirst(segs);
    forall i | 0 <= i < |segs| ensures SlashFree(segs[i]) { ValidIsSlashFree(segs[i]); }
    assert TrimSlash("/" + user) == "/" + user && ("/" + user)[1..] == user;
    SplitOff(user, "");
    assert user + "" == user;
    PrefixIsSegmentwise("/" + user, segs);
    assert [user] <= segs <==> segs[0] == user;
  }
}
