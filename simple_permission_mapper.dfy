/** SimplePermissionMapper and its single-use Builder. */
module Authz {
  import opened Checks
  import opened Permissions
  import opened MappingRules

  /** The built mapper: a combination mode and an ordered rule table, both fixed for its lifetime. */
  class SimplePermissionMapper {
    const mode: MappingMode
    const mappings: seq<Mapping>

    constructor (mode: MappingMode, mappings: seq<Mapping>)
      ensures this.mode == mode && this.mappings == mappings
    {
      this.mode := mode;
      this.mappings := mappings;
    }

    /** mapPermissions. The principal is given by its name, the caller's roles by their set.
        The ghost out-parameter examined records how many rules were tested before it returned. */
    method MapPermissions(principalName: Nullable<string>, roles: Nullable<set<string>>)
      returns (r: Result<PermissionVerifier>, ghost examined: nat)
      ensures principalName.Null? ==> r == Err(NullParameter("permissionMappable")) && examined == 0
      ensures principalName.Ref? && roles.Null? ==> r == Err(NullParameter("roles")) && examined == 0
      ensures principalName.Ref? && roles.Ref? ==>
        r == Ok(Resolve(mode, mappings, principalName.value, roles.value))
      ensures principalName.Ref? && roles.Ref? && mode == FirstMatch && HasMatch(mappings, principalName.value, roles.value) ==>
        examined == FirstMatchIndex(mappings, principalName.value, roles.value) + 1
      ensures principalName.Ref? && roles.Ref? && !(mode == FirstMatch && HasMatch(mappings, principalName.value, roles.value)) ==>
        examined == |mappings|
    {
      examined := 0;
      var nameCheck := CheckNotNull("permissionMappable", principalName);
      if nameCheck.Err? {
        return Err(nameCheck.error), 0;
      }
      var rolesCheck := CheckNotNull("roles", roles);
      if rolesCheck.Err? {
        return Err(rolesCheck.error), 0;
      }
      var name, held := nameCheck.value, rolesCheck.value;

      var result: Nullable<PermissionVerifier> := Null;
      var i := 0;
      while i < |mappings|
        invariant 0 <= i <= |mappings|
        invariant mode == FirstMatch ==> result == Null
        invariant mode == FirstMatch ==> forall j :: 0 <= j < i ==> !Matches(mappings[j], name, held)
        invariant mode != FirstMatch ==>
          result == if HasMatch(mappings[..i], name, held) then Ref(Resolve(mode, mappings[..i], name, held)) else Null
      {
        var current := mappings[i];
        if Accepts(current.principal, name) || ContainsAny(held, current.roles) {
          match mode
          case FirstMatch =>
            assert Matches(mappings[i], name, held);
            FirstMatchIsLowestIndex(mappings, name, held);
            assert FirstMatchIndex(mappings, name, held) == i;
            return Ok(current.verifier), i + 1;
          case AndMode =>
            result := Ref(if result.Ref? then PermissionVerifier.And(result.value, current.verifier) else current.verifier);
          case OrMode =>
            result := Ref(if result.Ref? then PermissionVerifier.Or(result.value, current.verifier) else current.verifier);
          case UnlessMode =>
            result := Ref(if result.Ref? then PermissionVerifier.Unless(result.value, current.verifier) else current.verifier);
          case XorMode =>
            result := Ref(if result.Ref? then PermissionVerifier.Xor(result.value, current.verifier) else current.verifier);
        }
        if mode != FirstMatch {
          assert mappings[..i + 1] == mappings[..i] + [current];
          ResolveStep(mode, mappings[..i], current, name, held);
        }
        i := i + 1;
      }
      assert mappings[..i] == mappings;
      if mode == FirstMatch {
        assert !HasMatch(mappings, name, held);
      }
      if result.Null? {
        NoMatchYieldsNone(mode, mappings, name, held);
      }
      r, examined := Ok(if result.Ref? then result.value else None), i;
    }
  }

  /** SimplePermissionMapper.Builder: open until build succeeds, closed for good afterwards. */
  class Builder {
    var built: bool
    var mode: MappingMode
    var mappings: seq<Mapping>

    /** SimplePermissionMapper.builder() */
    constructor ()
      ensures !built && mode == FirstMatch && mappings == []
    {
      built := false;
      mode := FirstMatch;
      mappings := [];
    }

    /** assertNotBuilt */
    function NotBuilt(): (r: Result<()>)
      reads this
      ensures r.Ok? <==> !built
      ensures r.Err? ==> r.error == BuilderAlreadyBuilt
    {
      if built then Err(BuilderAlreadyBuilt) else Ok(())
    }

    method SetMappingMode(mode: MappingMode) returns (r: Result<Builder>)
      modifies this
      ensures old(built) ==> r == Err(BuilderAlreadyBuilt) && unchanged(this)
      ensures !old(built) ==> r == Ok(this) && this.mode == mode
      ensures built == old(built) && mappings == old(mappings)
    {
      var check := NotBuilt();
      if check.Err? {
        return Err(check.error);
      }
      this.mode := mode;
      return Ok(this);
    }

    /** Appends a rule matching the principal names in principals or any role in roles. The
        builder is checked first, then principals, roles and the verifier in that order; a
        failed call appends nothing. */
    method AddMapping(principals: Nullable<set<string>>, roles: Nullable<set<string>>,
                      verifier: Nullable<PermissionVerifier>) returns (r: Result<Builder>)
      modifies this
      ensures old(built) ==> r == Err(BuilderAlreadyBuilt)
      ensures !old(built) && principals.Null? ==> r == Err(NullParameter("principals"))
      ensures !old(built) && principals.Ref? && roles.Null? ==> r == Err(NullParameter("roles"))
      ensures !old(built) && principals.Ref? && roles.Ref? && verifier.Null? ==>
        r == Err(NullParameter("permissionVerifier"))
      ensures r.Ok? <==> !old(built) && principals.Ref? && roles.Ref? && verifier.Ref?
      ensures r.Ok? ==>
        r.value == this && mappings == old(mappings) + [Mapping(MatchSet(principals.value), roles.value, verifier.value)]
      ensures r.Err? ==> mappings == old(mappings)
      ensures built == old(built) && mode == old(mode)
    {
      var check := NotBuilt();
      if check.Err? {
        return Err(check.error);
      }
      var names := CheckNotNull("principals", principals);
      if names.Err? {
        return Err(names.error);
      }
      var mapping := NewMapping(MatchSet(names.value), roles, verifier);
      if mapping.Err? {
        return Err(mapping.error);
      }
      mappings := mappings + [mapping.value];
      return Ok(this);
    }

    /** Appends a rule whose principal test accepts every name, with no roles. */
    method AddMatchAllPrincipals(verifier: Nullable<PermissionVerifier>) returns (r: Result<Builder>)
      modifies this
      ensures old(built) ==> r == Err(BuilderAlreadyBuilt)
      ensures !old(built) && verifier.Null? ==> r == Err(NullParameter("permissionVerifier"))
      ensures r.Ok? <==> !old(built) && verifier.Ref?
      ensures r.Ok? ==> r.value == this && mappings == old(mappings) + [Mapping(MatchAll, {}, verifier.value)]
      ensures r.Err? ==> mappings == old(mappings)
      ensures built == old(built) && mode == old(mode)
    {
      var check := NotBuilt();
      if check.Err? {
        return Err(check.error);
      }
      var mapping := NewMapping(MatchAll, Ref({}), verifier);
      if mapping.Err? {
        return Err(mapping.error);
      }
      mappings := mappings + [mapping.value];
      return Ok(this);
    }

    /** Closes the builder and hands its mode and its rules, in append order, to a new mapper. */
    method Build() returns (r: Result<SimplePermissionMapper>)
      modifies this
      ensures old(built) ==> r == Err(BuilderAlreadyBuilt) && unchanged(this)
      ensures !old(built) ==> r.Ok? && fresh(r.value) && built
      ensures r.Ok? ==> r.value.mode == old(mode) && r.value.mappings == old(mappings)
      ensures mode == old(mode) && mappings == old(mappings)
    {
      var check := NotBuilt();
      if check.Err? {
        return Err(check.error);
      }
      built := true;
      var mapper := new SimplePermissionMapper(mode, mappings);
      return Ok(mapper);
    }
  }

  /** A built builder refuses every further call, before looking at the arguments. */
  method RejectsAfterBuild(mode: MappingMode, principals: Nullable<set<string>>, roles: Nullable<set<string>>,
                           verifier: Nullable<PermissionVerifier>)
    returns (first: Result<SimplePermissionMapper>, setMode: Result<Builder>, add: Result<Builder>,
             addAll: Result<Builder>, second: Result<SimplePermissionMapper>)
    ensures first.Ok?
    ensures setMode == Err(BuilderAlreadyBuilt) && add == Err(BuilderAlreadyBuilt)
    ensures addAll == Err(BuilderAlreadyBuilt) && second == Err(BuilderAlreadyBuilt)
  {
    var b := new Builder();
    first := b.Build();
    setMode := b.SetMappingMode(mode);
    add := b.AddMapping(principals, roles, verifier);
    addAll := b.AddMatchAllPrincipals(verifier);
    second := b.Build();
  }

  /** The last mode set wins, and the built mapper holds the rules in the order they were added. */
  method BuildKeepsOrderAndLastMode(m1: MappingMode, m2: MappingMode, principals: set<string>,
                                    roles: set<string>, v1: PermissionVerifier, v2: PermissionVerifier)
    returns (r: Result<SimplePermissionMapper>)
    ensures r.Ok? && r.value.mode == m2
    ensures r.value.mappings == [Mapping(MatchAll, {}, v1), Mapping(MatchSet(principals), roles, v2)]
  {
    var b := new Builder();
    var step := b.SetMappingMode(m1);
    step := b.AddMatchAllPrincipals(Ref(v1));
    step := b.SetMappingMode(m2);
    step := b.AddMapping(Ref(principals), Ref(roles), Ref(v2));
    r := b.Build();
  }
}
