# SimplePermissionMapper in Dafny

This project models `SimplePermissionMapper` from WildFly Elytron, a rule-based permission mapper.
A single-use `Builder` collects an ordered table of rules and a mapping mode. Each rule holds a
principal-name test, a role set and a `PermissionVerifier`. `build()` hands the table to the mapper.
`mapPermissions` then scans the table for a principal and its roles and returns one verifier. In
`FIRST_MATCH` mode it returns the first matching rule's verifier. In `AND`, `OR`, `XOR` and `UNLESS`
mode it left-folds the verifiers of all matching rules, seeded with the first one. With no match it
returns `PermissionVerifier.NONE`.

Files:

- `checks.dfy` (module `Checks`) covers Java's nullable references (`Nullable`) and the two errors:
  a null argument (`checkNotNullParam`) and a builder that was already built. Calls that can throw
  return a `Result`.
- `permissions.dfy` (module `Permissions`) makes `PermissionVerifier` an uninterpreted term
  datatype. `And`, `Or`, `Xor`, `Unless` and `None` are constructors, so a result's shape shows
  which verifiers were combined, in what order and how.
- `mapping_rules.dfy` (module `MappingRules`) holds the rules as values.
  - `PrincipalPredicate` is `MatchSet(names)` for `addMapping` or `MatchAll` for
    `addMatchAllPrincipals`.
  - `Matches` is the match test: the name test, or else a non-empty intersection with the
    caller's roles.
  - `Resolve` specifies what `mapPermissions` returns.
  - The lemmas cover first match, the left fold, a single match and no match.
- `simple_permission_mapper.dfy` (module `Authz`) holds the two classes.
  - `Builder` has the source's three mutable fields: `built`, `mode` and `mappings`.
  - `SimplePermissionMapper` has a constant mode and rule table. Its `MapPermissions` is the
    source's loop with a nullable accumulator and an early return. It is proved equal to
    `Resolve`.
  - `MapPermissions` also has a ghost out-parameter `examined`, the number of rules it tested.
    It exists only for the proof, and shows that `FIRST_MATCH` does not look past the first match.

`addMapping` rejects a null `roles`: the `Mapping` constructor calls
`checkNotNullParam("roles", roles)` (SimplePermissionMapper.java line 185). `addMapping` checks, in this order:

1. the builder is not yet built;
2. `principals` is not null (evaluated in the argument list, line 137);
3. `roles` is not null (line 185);
4. the verifier is not null (line 186).

## Model

| member | source | states |
|---|---|---|
| Checks.CheckNotNull | src/main/java/org/wildfly/security/authz/SimplePermissionMapper.java:64-65 | a null argument fails with an invalid-argument error that names the parameter; a non-null one passes through unchanged |
| MappingRules.NewMapping | src/main/java/org/wildfly/security/authz/SimplePermissionMapper.java:183-187 | building a rule succeeds exactly when roles and verifier are both non-null; a null role set is reported before a null verifier; on success the rule holds the given predicate, roles and verifier |
| MappingRules.MatchAllMatchesEverything | src/main/java/org/wildfly/security/authz/SimplePermissionMapper.java:150 | the rule addMatchAllPrincipals creates has an empty role set and matches every principal name and every role set |
| MappingRules.MatchTest | src/main/java/org/wildfly/security/authz/SimplePermissionMapper.java:70 | the match test (Matches, over Accepts for the name sets of line 137 and the match-all predicate of line 150): a rule matches exactly when its principal predicate accepts the name or some role the caller holds is one of the rule's roles; a rule without roles matches by name alone |
| MappingRules.NameOrRoleMatch | src/main/java/org/wildfly/security/authz/SimplePermissionMapper.java:70 | an example of the Matches test: the rule for principal "alice" with role "admin" matches "alice" with no roles and "bob" holding "admin", and does not match "bob" holding only "user" |
| MappingRules.FirstMatchIndex | src/main/java/org/wildfly/security/authz/SimplePermissionMapper.java:69-73 | when some rule matches, the index returned is in range, that rule matches, and no earlier rule matches |
| MappingRules.NoMatchIffEmpty | src/main/java/org/wildfly/security/authz/SimplePermissionMapper.java:67-91 | the filtered sequence of matching verdicts (MatchingVerifiers, which the fold consumes) is empty exactly when no rule of the table matches |
| MappingRules.NoMatchYieldsNone | src/main/java/org/wildfly/security/authz/SimplePermissionMapper.java:67-91 | in every mode, a table with no matching rule (an empty one included) resolves to NONE |
| MappingRules.FirstMatchIsLowestIndex | src/main/java/org/wildfly/security/authz/SimplePermissionMapper.java:69-73 | in FIRST_MATCH mode the result is the verifier of the lowest-indexed matching rule |
| MappingRules.FirstMatchIgnoresLater | src/main/java/org/wildfly/security/authz/SimplePermissionMapper.java:72-73 | in FIRST_MATCH mode, rules appended after a matching rule never change the result |
| MappingRules.Combine | src/main/java/org/wildfly/security/authz/SimplePermissionMapper.java:75-84 | each combining mode applies its own combinator (AND to and, OR to or, XOR to xor, UNLESS to unless), with the accumulated result as the left operand and the current rule's verifier as the right one |
| MappingRules.ResolveStep | src/main/java/org/wildfly/security/authz/SimplePermissionMapper.java:74-85 | in a combining mode, an appended rule that does not match changes nothing; the first match seeds the result; a later match is combined on the right of the result so far |
| MappingRules.SingleMatchUnchanged | src/main/java/org/wildfly/security/authz/SimplePermissionMapper.java:67-91 | with exactly one matching rule, every mode returns that rule's verifier unchanged |
| MappingRules.FoldIsSeededLeftFold | src/main/java/org/wildfly/security/authz/SimplePermissionMapper.java:74-85 | the combination is the ordinary left fold with an accumulator, seeded with the first matching verifier rather than an identity element |
| MappingRules.XorFoldIsLeftAssociative | src/main/java/org/wildfly/security/authz/SimplePermissionMapper.java:83-84 | three matching rules under XOR give (V1 xor V2) xor V3, never V1 xor (V2 xor V3) |
| Authz.SimplePermissionMapper.MapPermissions | src/main/java/org/wildfly/security/authz/SimplePermissionMapper.java:63-92 | a null principal or null roles fail in that order; otherwise the result is Resolve of the mode and table; FIRST_MATCH stops right after the first matching rule; every other case tests all rules |
| Authz.SimplePermissionMapper.constructor | src/main/java/org/wildfly/security/authz/SimplePermissionMapper.java:57-60 | the mapper keeps exactly the mode and the rule table it was given |
| Authz.Builder.constructor | src/main/java/org/wildfly/security/authz/SimplePermissionMapper.java:105-112 | a new builder is not built, its mode is FIRST_MATCH and it has no rules |
| Authz.Builder.NotBuilt | src/main/java/org/wildfly/security/authz/SimplePermissionMapper.java:168-172 | the guard fails with builderAlreadyBuilt exactly when the builder has been built |
| Authz.Builder.SetMappingMode | src/main/java/org/wildfly/security/authz/SimplePermissionMapper.java:120-125 | on an open builder the mode is overwritten (the last write wins); on a built one the call fails and changes nothing; the rules are never touched |
| Authz.Builder.AddMapping | src/main/java/org/wildfly/security/authz/SimplePermissionMapper.java:135-140 | succeeds exactly when the builder is open and principals, roles and verifier are non-null, and then appends the rule for that name set; failures are reported in the order built, principals, roles, verifier and append nothing |
| Authz.Builder.AddMatchAllPrincipals | src/main/java/org/wildfly/security/authz/SimplePermissionMapper.java:148-153 | succeeds exactly when the builder is open and the verifier is non-null, and then appends a match-all rule with no roles; otherwise the rules are unchanged |
| Authz.Builder.Build | src/main/java/org/wildfly/security/authz/SimplePermissionMapper.java:161-166 | on an open builder, closes it and returns a fresh mapper with the builder's mode and rules in append order; on a built one it fails and changes nothing |
| Authz.RejectsAfterBuild | src/main/java/org/wildfly/security/authz/SimplePermissionMapper.java:161-172 | after a successful build, setMappingMode, addMapping, addMatchAllPrincipals and build all fail with builderAlreadyBuilt, whatever their arguments, nulls included |
| Authz.BuildKeepsOrderAndLastMode | src/main/java/org/wildfly/security/authz/SimplePermissionMapper.java:107-166 | with two setMappingMode calls and two added rules, the built mapper has the second mode and the rules in the order they were added |

## Left out

- The meaning of `PermissionVerifier.and/or/xor/unless` and of `NONE` is defined outside this class. They are uninterpreted constructors here.
- `Predicate<String>` lambdas become the two-case `PrincipalPredicate`, since the source only ever builds these two.
- The `Principal`, `PermissionMappable` and `Roles` interfaces are left out. The caller passes the principal name and a set of role names, and `Roles.containsAny` is set intersection. A mappable whose `getPrincipal()` or `getName()` returns null is not modelled.
- The short-circuit of `||` on line 70 has no observable effect, because `containsAny` is pure here. Dafny's `||` short-circuits too.
- The `HashSet` and `unmodifiableSet` defensive copies (lines 137 and 185) are left out. Dafny sets are immutable values.
- Aliasing is left out. `build` passes the builder's own `ArrayList` to the mapper without copying it, while the model passes a sequence value. The two agree because a built builder can no longer append.
- A null `MappingMode` given to `setMappingMode` is not modelled. The source does not check it, and it would only fail later, in the `switch` of `mapPermissions`. The mode is a non-null enum here.
- Concurrency is left out, including the non-atomic check of `built`.
- Exceptions become `Err` results, and the builder's fluent `return this` becomes `Ok(this)`.
