/** The rule table of SimplePermissionMapper as values: a rule (Mapping), the combination mode,
    the match test, and Resolve, the specification of what mapPermissions returns for a table. */
module MappingRules {
  import opened Checks
  import opened Permissions

  /** How the verdicts of several matching rules are combined (MappingMode). */
  datatype MappingMode = FirstMatch | AndMode | OrMode | XorMode | UnlessMode

  /** The principal test of a rule: membership in a fixed set of names (addMapping),
      or a test that accepts every name (addMatchAllPrincipals). */
  datatype PrincipalPredicate = MatchSet(names: set<string>) | MatchAll

  /** One rule of the table (class Mapping). */
  datatype Mapping = Mapping(principal: PrincipalPredicate, roles: set<string>, verifier: PermissionVerifier)

  /** The Mapping constructor: the role set is checked first, then the verifier. */
  function NewMapping(principal: PrincipalPredicate, roles: Nullable<set<string>>,
                      verifier: Nullable<PermissionVerifier>): (r: Result<Mapping>)
    ensures r.Ok? <==> roles.Ref? && verifier.Ref?
    ensures roles.Null? ==> r == Err(NullParameter("roles"))
    ensures roles.Ref? && verifier.Null? ==> r == Err(NullParameter("permissionVerifier"))
    ensures r.Ok? ==> r.value == Mapping(principal, roles.value, verifier.value)
  {
    match CheckNotNull("roles", roles)
    case Err(e) => Err(e)
    case Ok(rs) =>
      match CheckNotNull("permissionVerifier", verifier)
      case Err(e) => Err(e)
      case Ok(v) => Ok(Mapping(principal, rs, v))
  }

  predicate Accepts(p: PrincipalPredicate, name: string) {
    match p
    case MatchSet(names) => name in names
    case MatchAll => true
  }

  /** Roles.containsAny: the caller's roles share at least one name with the rule's roles. */
  predicate ContainsAny(held: set<string>, wanted: set<string>) {
    held * wanted != {}
  }

  /** A rule matches when its principal test accepts the name or, failing that, the roles overlap. */
  predicate Matches(m: Mapping, name: string, roles: set<string>) {
    Accepts(m.principal, name) || ContainsAny(roles, m.roles)
  }

  predicate HasMatch(ms: seq<Mapping>, name: string, roles: set<string>) {
    exists i :: 0 <= i < |ms| && Matches(ms[i], name, roles)
  }

  /** The position of the first matching rule. */
  function FirstMatchIndex(ms: seq<Mapping>, name: string, roles: set<string>): (k: nat)
    requires HasMatch(ms, name, roles)
    ensures k < |ms| && Matches(ms[k], name, roles)
    ensures forall j :: 0 <= j < k ==> !Matches(ms[j], name, roles)
  {
    if Matches(ms[0], name, roles) then 0
    else
      assert HasMatch(ms[1..], name, roles) by {
        var i :| 0 <= i < |ms| && Matches(ms[i], name, roles);
        assert ms[1..][i - 1] == ms[i];
      }
      1 + FirstMatchIndex(ms[1..], name, roles)
  }

  /** The verdicts of the matching rules, in table order. */
  function MatchingVerifiers(ms: seq<Mapping>, name: string, roles: set<string>): (vs: seq<PermissionVerifier>)
    ensures |vs| <= |ms|
  {
    if ms == [] then []
    else (if Matches(ms[0], name, roles) then [ms[0].verifier] else [])
         + MatchingVerifiers(ms[1..], name, roles)
  }

  /** The combinator a combining mode applies (PermissionVerifier.and/or/xor/unless). */
  function Combine(mode: MappingMode, acc: PermissionVerifier, v: PermissionVerifier): (r: PermissionVerifier)
    requires mode != FirstMatch
    ensures (r.And? <==> mode == AndMode) && (r.Or? <==> mode == OrMode)
    ensures (r.Xor? <==> mode == XorMode) && (r.Unless? <==> mode == UnlessMode)
    ensures !r.Leaf? && !r.None? && r.left == acc && r.right == v
  {
    match mode
    case AndMode => PermissionVerifier.And(acc, v)
    case OrMode => PermissionVerifier.Or(acc, v)
    case XorMode => PermissionVerifier.Xor(acc, v)
    case UnlessMode => PermissionVerifier.Unless(acc, v)
  }

  /** ((v1 op v2) op v3) ... : the left fold seeded with the first verdict. */
  function Fold(mode: MappingMode, vs: seq<PermissionVerifier>): PermissionVerifier
    requires mode != FirstMatch && vs != []
    decreases |vs|
  {
    if |vs| == 1 then vs[0]
    else Combine(mode, Fold(mode, vs[..|vs| - 1]), vs[|vs| - 1])
  }

  /** An independent statement of the left fold, with an explicit accumulator. */
  function FoldLeft(mode: MappingMode, acc: PermissionVerifier, vs: seq<PermissionVerifier>): PermissionVerifier
    requires mode != FirstMatch
    decreases |vs|
  {
    if vs == [] then acc else FoldLeft(mode, Combine(mode, acc, vs[0]), vs[1..])
  }

  /** What mapPermissions returns for a table, a principal name and a role set. */
  function Resolve(mode: MappingMode, ms: seq<Mapping>, name: string, roles: set<string>): PermissionVerifier {
    var vs := MatchingVerifiers(ms, name, roles);
    if vs == [] then None
    else if mode == FirstMatch then vs[0]
    else Fold(mode, vs)
  }

  // ---------------------------------------------------------------------------------------------
  // Matching

  /** The match test spelled out: a rule matches when its principal predicate accepts the name, or
      when some role the caller holds is one of the rule's roles. A rule without roles matches by
      name alone. */
  lemma MatchTest(m: Mapping, name: string, roles: set<string>)
    ensures Matches(m, name, roles) <==>
      (m.principal.MatchAll? || name in m.principal.names) || (exists r :: r in roles && r in m.roles)
    ensures m.roles == {} ==> (Matches(m, name, roles) <==> Accepts(m.principal, name))
  {
    if exists r :: r in roles && r in m.roles {
      var r :| r in roles && r in m.roles;
      assert r in roles * m.roles;
    }
  }

  /** A rule added by addMatchAllPrincipals matches every name and every role set. */
  lemma MatchAllMatchesEverything(v: PermissionVerifier, name: string, roles: set<string>)
    ensures NewMapping(MatchAll, Ref({}), Ref(v)) == Ok(Mapping(MatchAll, {}, v))
    ensures Matches(Mapping(MatchAll, {}, v), name, roles)
  {
  }

  /** A rule for principal "alice" and role "admin" matches alice without roles and bob holding
      "admin", but not bob holding only "user". */
  lemma NameOrRoleMatch(v: PermissionVerifier)
    ensures var m := Mapping(MatchSet({"alice"}), {"admin"}, v);
      && Matches(m, "alice", {})
      && Matches(m, "bob", {"admin", "user"})
      && !Matches(m, "bob", {"user"})
  {
    assert "admin" in {"admin", "user"} * {"admin"};
    assert "bob" != "alice";
    assert {"user"} * {"admin"} == {};
  }

  // ---------------------------------------------------------------------------------------------
  // The filtered verdict sequence

  lemma {:induction false} MatchingConcat(a: seq<Mapping>, b: seq<Mapping>, name: string, roles: set<string>)
    ensures MatchingVerifiers(a + b, name, roles) == MatchingVerifiers(a, name, roles) + MatchingVerifiers(b, name, roles)
    decreases |a|
  {
    if a == [] {
      assert a + b == b;
    } else {
      var head := if Matches(a[0], name, roles) then [a[0].verifier] else [];
      assert (a + b)[0] == a[0];
      assert (a + b)[1..] == a[1..] + b;
      assert MatchingVerifiers(a + b, name, roles) == head + MatchingVerifiers(a[1..] + b, name, roles);
      MatchingConcat(a[1..], b, name, roles);
      assert head + (MatchingVerifiers(a[1..], name, roles) + MatchingVerifiers(b, name, roles))
          == (head + MatchingVerifiers(a[1..], name, roles)) + MatchingVerifiers(b, name, roles);
    }
  }

  /** No verdict is collected exactly when no rule matches. */
  lemma {:induction false} NoMatchIffEmpty(ms: seq<Mapping>, name: string, roles: set<string>)
    ensures MatchingVerifiers(ms, name, roles) == [] <==> !HasMatch(ms, name, roles)
    decreases |ms|
  {
    if ms != [] {
      NoMatchIffEmpty(ms[1..], name, roles);
      if HasMatch(ms[1..], name, roles) {
        var i :| 0 <= i < |ms[1..]| && Matches(ms[1..][i], name, roles);
        assert Matches(ms[i + 1], name, roles);
      }
      if HasMatch(ms, name, roles) && !Matches(ms[0], name, roles) {
        var i :| 0 <= i < |ms| && Matches(ms[i], name, roles);
        assert ms[1..][i - 1] == ms[i];
      }
    }
  }

  lemma {:induction false} FirstMatchingVerifier(ms: seq<Mapping>, name: string, roles: set<string>)
    requires HasMatch(ms, name, roles)
    ensures MatchingVerifiers(ms, name, roles) != []
    ensures MatchingVerifiers(ms, name, roles)[0] == ms[FirstMatchIndex(ms, name, roles)].verifier
    decreases |ms|
  {
    if !Matches(ms[0], name, roles) {
      var k := FirstMatchIndex(ms[1..], name, roles);
      FirstMatchingVerifier(ms[1..], name, roles);
      assert ms[1..][k] == ms[k + 1];
    }
  }

  // ---------------------------------------------------------------------------------------------
  // Resolution

  /** With no matching rule (in particular with an empty table) every mode yields NONE. */
  lemma NoMatchYieldsNone(mode: MappingMode, ms: seq<Mapping>, name: string, roles: set<string>)
    requires !HasMatch(ms, name, roles)
    ensures Resolve(mode, ms, name, roles) == None
  {
    NoMatchIffEmpty(ms, name, roles);
  }

  /** FIRST_MATCH yields the verdict of the lowest-indexed matching rule. */
  lemma {:induction false} FirstMatchIsLowestIndex(ms: seq<Mapping>, name: string, roles: set<string>)
    requires HasMatch(ms, name, roles)
    ensures Resolve(FirstMatch, ms, name, roles) == ms[FirstMatchIndex(ms, name, roles)].verifier
  {
    FirstMatchingVerifier(ms, name, roles);
  }

  /** FIRST_MATCH does not depend on any rule after a matching one. */
  lemma FirstMatchIgnoresLater(ms: seq<Mapping>, rest: seq<Mapping>, name: string, roles: set<string>)
    requires HasMatch(ms, name, roles)
    ensures Resolve(FirstMatch, ms + rest, name, roles) == Resolve(FirstMatch, ms, name, roles)
  {
    MatchingConcat(ms, rest, name, roles);
    NoMatchIffEmpty(ms, name, roles);
  }

  /** Appending one rule to the table in a combining mode: a rule that does not match changes
      nothing, the first matching rule seeds the result, and every later one is folded in on the
      right of what was there. */
  lemma ResolveStep(mode: MappingMode, ms: seq<Mapping>, m: Mapping, name: string, roles: set<string>)
    requires mode != FirstMatch
    ensures HasMatch(ms + [m], name, roles) <==> HasMatch(ms, name, roles) || Matches(m, name, roles)
    ensures Resolve(mode, ms + [m], name, roles) ==
      if !Matches(m, name, roles) then Resolve(mode, ms, name, roles)
      else if !HasMatch(ms, name, roles) then m.verifier
      else Combine(mode, Resolve(mode, ms, name, roles), m.verifier)
  {
    MatchingConcat(ms, [m], name, roles);
    assert [m][1..] == [];
    NoMatchIffEmpty(ms, name, roles);
    NoMatchIffEmpty(ms + [m], name, roles);
    var vs := MatchingVerifiers(ms, name, roles);
    if Matches(m, name, roles) {
      var vs' := vs + [m.verifier];
      assert MatchingVerifiers(ms + [m], name, roles) == vs';
      if vs != [] {
        assert vs'[..|vs'| - 1] == vs;
        assert Fold(mode, vs') == Combine(mode, Fold(mode, vs), m.verifier);
      }
    } else {
      assert MatchingVerifiers(ms + [m], name, roles) == vs;
    }
  }

  /** With exactly one matching rule, every mode yields that rule's verdict unchanged. */
  lemma SingleMatchUnchanged(mode: MappingMode, ms: seq<Mapping>, k: nat, name: string, roles: set<string>)
    requires k < |ms| && Matches(ms[k], name, roles)
    requires forall j :: 0 <= j < |ms| && j != k ==> !Matches(ms[j], name, roles)
    ensures Resolve(mode, ms, name, roles) == ms[k].verifier
  {
    var before, after := ms[..k], ms[k + 1..];
    assert ms == before + [ms[k]] + after;
    assert !HasMatch(before, name, roles) by {
      forall j | 0 <= j < |before| ensures !Matches(before[j], name, roles) {
        assert before[j] == ms[j];
      }
    }
    assert !HasMatch(after, name, roles) by {
      forall j | 0 <= j < |after| ensures !Matches(after[j], name, roles) {
        assert after[j] == ms[k + 1 + j];
      }
    }
    NoMatchIffEmpty(before, name, roles);
    NoMatchIffEmpty(after, name, roles);
    MatchingConcat(before + [ms[k]], after, name, roles);
    MatchingConcat(before, [ms[k]], name, roles);
    assert [ms[k]][1..] == [];
  }

  lemma {:induction false} FoldLeftSnoc(mode: MappingMode, acc: PermissionVerifier, vs: seq<PermissionVerifier>, v: PermissionVerifier)
    requires mode != FirstMatch
    ensures FoldLeft(mode, acc, vs + [v]) == Combine(mode, FoldLeft(mode, acc, vs), v)
    decreases |vs|
  {
    if vs == [] {
      assert [v][1..] == [];
    } else {
      assert (vs + [v])[1..] == vs[1..] + [v];
      FoldLeftSnoc(mode, Combine(mode, acc, vs[0]), vs[1..], v);
    }
  }

  /** The fold Resolve applies is the ordinary left fold seeded with the first verdict,
      not with an identity element. */
  lemma {:induction false} FoldIsSeededLeftFold(mode: MappingMode, vs: seq<PermissionVerifier>)
    requires mode != FirstMatch && vs != []
    ensures Fold(mode, vs) == FoldLeft(mode, vs[0], vs[1..])
    decreases |vs|
  {
    if |vs| > 1 {
      var init := vs[..|vs| - 1];
      FoldIsSeededLeftFold(mode, init);
      assert init[1..] + [vs[|vs| - 1]] == vs[1..];
      FoldLeftSnoc(mode, vs[0], init[1..], vs[|vs| - 1]);
    }
  }

  /** Three matching rules under XOR give (V1 xor V2) xor V3, never V1 xor (V2 xor V3): the
      grouping of the fold is observable. The rules match by name, by role and by match-all. */
  lemma XorFoldIsLeftAssociative(v1: PermissionVerifier, v2: PermissionVerifier, v3: PermissionVerifier)
    ensures var ms := [Mapping(MatchSet({"a"}), {}, v1), Mapping(MatchSet({"b"}), {"admin"}, v2), Mapping(MatchAll, {}, v3)];
      && Resolve(XorMode, ms, "a", {"admin"}) == PermissionVerifier.Xor(PermissionVerifier.Xor(v1, v2), v3)
      && Resolve(XorMode, ms, "a", {"admin"}) != PermissionVerifier.Xor(v1, PermissionVerifier.Xor(v2, v3))
  {
    var ms := [Mapping(MatchSet({"a"}), {}, v1), Mapping(MatchSet({"b"}), {"admin"}, v2), Mapping(MatchAll, {}, v3)];
    assert "admin" in {"admin"} * {"admin"};
    assert "a" !in {"b"};
    assert ms[1..][1..] == [ms[2]] && [ms[2]][1..] == [];
    assert MatchingVerifiers([ms[2]], "a", {"admin"}) == [v3];
    assert MatchingVerifiers(ms[1..], "a", {"admin"}) == [v2] + [v3];
    assert MatchingVerifiers(ms, "a", {"admin"}) == [v1] + ([v2] + [v3]);
    assert [v1] + ([v2] + [v3]) == [v1, v2, v3];
    assert [v1, v2, v3][..2] == [v1, v2] && [v1, v2][..1] == [v1];
    assert Fold(XorMode, [v1, v2]) == PermissionVerifier.Xor(v1, v2);
    assert Fold(XorMode, [v1, v2, v3]) == PermissionVerifier.Xor(PermissionVerifier.Xor(v1, v2), v3);
    assert v1 < PermissionVerifier.Xor(v1, v2);
  }
}
