/** Who may do what: rules per identity, and a home directory for everyone. */
module Authz {
  import opened KeyPath

  datatype Op = UnknownOp | Read | Write | Admin

  datatype Rule = Rule(prefix: string, write: bool, admin: bool)

  datatype Policy = AllowAll | Prefix(rules: map<string, seq<Rule>>) | HomeDir(inner: Policy)

  /** Does the rule grant the right, if it covers the key? */
  predicate Grants(r: Rule, op: Op) {
    op == Read || (op == Write && r.write) || (op == Admin && r.admin)
  }

  function RulesFor(rules: map<string, seq<Rule>>, identity: string): seq<Rule> {
    if identity in rules then rules[identity] else []
  }

  /** Some rule covers the key and grants the right. */
  ghost predicate Covered(rs: seq<Rule>, key: string, op: Op) {
    exists i :: 0 <= i < |rs| && HasPrefix(rs[i].prefix, key) && Grants(rs[i], op)
  }

  /** The rules in order, as the policy tries them. */
  method AuthorizeByRules(rs: seq<Rule>, key: string, op: Op) returns (ok: bool)
    ensures ok <==> Covered(rs, key, op)
  {
    var i := 0;
    while i < |rs|
      invariant 0 <= i <= |rs|
      invariant forall k :: 0 <= k < i ==> !(HasPrefix(rs[k].prefix, key) && Grants(rs[k], op))
    {
      if HasPrefix(rs[i].prefix, key) {
        match op {
          case Read => return true;
          case Write => if rs[i].write { return true; }
          case Admin => if rs[i].admin { return true; }
          case UnknownOp =>
        }
      }
      i := i + 1;
    }
    return false;
  }

  ghost predicate Allowed(p: Policy, identity: string, key: string, op: Op) {
    match p
    case AllowAll => true
    case Prefix(rules) => Covered(RulesFor(rules, identity), key, op)
    case HomeDir(inner) =>
      || (identity != "" && (op == Read || op == Write) && OwnerOf(key) == Owner(identity))
      || Allowed(inner, identity, key, op)
  }

  method Authorize(p: Policy, identity: string, key: string, op: Op) returns (ok: bool)
    ensures ok <==> Allowed(p, identity, key, op)
    decreases p
  {
    match p {
      case AllowAll => return true;
      case Prefix(rules) => ok := AuthorizeByRules(RulesFor(rules, identity), key, op);
      case HomeDir(inner) =>
        if identity != "" && (op == Read || op == Write) {
          if OwnerOf(key) == Owner(identity) { return true; }
        }
        ok := Authorize(inner, identity, key, op);
    }
  }

  /** Without `AllowAll` a right is never had for nothing: an unknown operation is
      refused, and administration takes a rule that says so. */
  predicate Restrictive(p: Policy) {
    match p case AllowAll => false case Prefix(_) => true case HomeDir(inner) => Restrictive(inner)
  }

  function AllRules(p: Policy, identity: string): seq<Rule> {
    match p case AllowAll => [] case Prefix(rules) => RulesFor(rules, identity) case HomeDir(inner) => AllRules(inner, identity)
  }

  ghost predicate AdminRule(rs: seq<Rule>, key: string) {
    exists i :: 0 <= i < |rs| && rs[i].admin && HasPrefix(rs[i].prefix, key)
  }

  lemma {:induction false} AdminNeedsARule(p: Policy, identity: string, key: string, op: Op)
    requires Restrictive(p) && Allowed(p, identity, key, op)
    ensures op != UnknownOp
    ensures op == Admin ==> AdminRule(AllRules(p, identity), key)
  {
    match p
    case Prefix(rules) =>
      var rs := RulesFor(rules, identity);
      var i :| 0 <= i < |rs| && HasPrefix(rs[i].prefix, key) && Grants(rs[i], op);
      assert AllRules(p, identity) == rs;
    case HomeDir(inner) =>
      assert AllRules(p, identity) == AllRules(inner, identity);
      if Allowed(inner, identity, key, op) { AdminNeedsARule(inner, identity, key, op); }
  }

  /** Some rule names a directory at or above the path and grants the right. */
  ghost predicate GrantedAbove(rs: seq<Rule>, segs: seq<string>, op: Op) {
    exists i :: 0 <= i < |rs| && DirectoryOf(rs[i].prefix).Dir? && DirectoryOf(rs[i].prefix).segs <= segs &&
      match op { case Read => true case Write => rs[i].write case Admin => rs[i].admin case UnknownOp => false }
  }

  /** What a home directory over rules allows, in terms of segments: reading and
      writing under one's own name, and whatever a rule grants on a directory at or
      above the key. */
  lemma AccessBySegments(rules: map<string, seq<Rule>>, identity: string, segs: seq<string>, op: Op)
    requires Canonical(segs)
    ensures Allowed(HomeDir(Prefix(rules)), identity, Join(segs), op) <==>
              ((op == Read || op == Write) && segs[0] == identity) || GrantedAbove(RulesFor(rules, identity), segs, op)
  {
    var rs := RulesFor(rules, identity);
    OwnerIsFirst(segs);
    assert ValidSegment(segs[0]);
    forall i | 0 <= i < |segs| ensures SlashFree(segs[i]) { ValidIsSlashFree(segs[i]); }
    forall i | 0 <= i < |rs|
      ensures HasPrefix(rs[i].prefix, Join(segs)) <==> DirectoryOf(rs[i].prefix).Dir? && DirectoryOf(rs[i].prefix).segs <= segs
    {
      PrefixIsSegmentwise(rs[i].prefix, segs);
    }
    assert Allowed(Prefix(rules), identity, Join(segs), op) <==> Covered(rs, Join(segs), op);
  }
}
