/** The shared key-value cache and its key scheme (core/cache.py).
    Entries never expire in this model; eviction is just another deletion. */
module Cache {
  import opened Base
  import opened Models

  /** What the selectors put in the cache: a project row, a role string
      (or the "no role" sentinel), or a boolean answer. */
  datatype CachedValue = CachedProject(project: Project) | CachedRole(role: string) | CachedBool(flag: bool)

  /** `CACHE_NONE_SENTINEL`: stored for "this user has no role here". */
  const Sentinel: string := "__CACHE_NONE__"

  /** The sentinel can never be confused with a role stored in the table. */
  lemma SentinelIsNotARole(r: Role)
    ensures RoleValue(r) != Sentinel
    ensures ParseRole(Sentinel).None?
  {
    assert |RoleValue(r)| < |Sentinel|;
  }

  /** The four families of `CacheKeys`, before formatting. */
  datatype CacheKey =
    | ProjectByIdKey(project: nat)
    | MemberRoleKey(project: nat, user: nat)
    | ExistsMemberKey(project: nat, user: nat)
    | IsAdminOrOwnerKey(project: nat, user: nat)

  const ProjectByIdPrefix: string := "projects:by_id:"
  const MemberRolePrefix: string := "projects:member_role:"
  const ExistsMemberPrefix: string := "projects:exists_member:"
  const IsAdminOrOwnerPrefix: string := "projects:is_admin_or_owner:"

  /** `CacheKeys.X.format(project_id=..., user_id=...)`: the family's
      fixed prefix, then the id, or "project:user". */
  function Format(k: CacheKey): string
  {
    Prefix(k) + Rest(k)
  }

  function ProjectKey(p: nat): string { Format(ProjectByIdKey(p)) }
  function RoleKey(p: nat, u: nat): string { Format(MemberRoleKey(p, u)) }
  function ExistsKey(p: nat, u: nat): string { Format(ExistsMemberKey(p, u)) }
  function AdminKey(p: nat, u: nat): string { Format(IsAdminOrOwnerKey(p, u)) }

  /** The keys `invalidate_membership_cache(p, u)` deletes. */
  function MembershipKeys(p: nat, u: nat): set<string>
  {
    {RoleKey(p, u), ExistsKey(p, u), AdminKey(p, u)}
  }

  /** The three keys of a pair are three different strings. */
  lemma MembershipKeysDistinct(p: nat, u: nat)
    ensures |MembershipKeys(p, u)| == 3
  {
    FormatInjective(MemberRoleKey(p, u), ExistsMemberKey(p, u));
    FormatInjective(MemberRoleKey(p, u), IsAdminOrOwnerKey(p, u));
    FormatInjective(ExistsMemberKey(p, u), IsAdminOrOwnerKey(p, u));
  }

  /** In a digit string followed by ':', the first ':' is right after the digits. */
  lemma FirstColon(a: string, b: string)
    requires AllDigits(a)
    ensures FirstIndex(a + ":" + b, ':') == |a|
  {
    var s := a + ":" + b;
    assert s[|a|] == ':';
    assert forall i :: 0 <= i < |a| ==> s[i] == a[i];
  }

  /** Two digit strings followed by ':' line up: the first ':' ends both. */
  lemma ColonSplit(a: string, b: string, c: string, d: string)
    requires AllDigits(a) && AllDigits(c)
    requires a + ":" + b == c + ":" + d
    ensures a == c && b == d
  {
    var s := a + ":" + b;
    FirstColon(a, b);
    FirstColon(c, d);
    assert a == s[..|a|] == c;
    assert b == s[|a| + 1..] == d;
  }

  /** Cancelling a common prefix. */
  lemma DropPrefix(p: string, x: string, y: string)
    requires p + x == p + y
    ensures x == y
  {
    assert x == (p + x)[|p|..];
    assert y == (p + y)[|p|..];
  }

  /** The family of a formatted key is told by its tenth character. */
  function FamilyChar(k: CacheKey): char
  {
    match k
    case ProjectByIdKey(_) => 'b'
    case MemberRoleKey(_, _) => 'm'
    case ExistsMemberKey(_, _) => 'e'
    case IsAdminOrOwnerKey(_, _) => 'i'
  }

  lemma FormatFamily(k: CacheKey)
    ensures |Format(k)| > 9 && Format(k)[9] == FamilyChar(k)
  {
  }

  /** After the fixed prefix, what follows: the id, or "project:user". */
  function Rest(k: CacheKey): string
  {
    match k
    case ProjectByIdKey(p) => NatToString(p)
    case MemberRoleKey(p, u) => NatToString(p) + ":" + NatToString(u)
    case ExistsMemberKey(p, u) => NatToString(p) + ":" + NatToString(u)
    case IsAdminOrOwnerKey(p, u) => NatToString(p) + ":" + NatToString(u)
  }

  function Prefix(k: CacheKey): string
  {
    match k
    case ProjectByIdKey(_) => ProjectByIdPrefix
    case MemberRoleKey(_, _) => MemberRolePrefix
    case ExistsMemberKey(_, _) => ExistsMemberPrefix
    case IsAdminOrOwnerKey(_, _) => IsAdminOrOwnerPrefix
  }

  /** The key scheme is injective: distinct (family, project, user) triples
      never share a cache entry. */
  lemma FormatInjective(k1: CacheKey, k2: CacheKey)
    ensures Format(k1) == Format(k2) ==> k1 == k2
  {
    if Format(k1) == Format(k2) {
      FormatFamily(k1);
      FormatFamily(k2);
      assert FamilyChar(k1) == FamilyChar(k2);
      assert Prefix(k1) == Prefix(k2);
      DropPrefix(Prefix(k1), Rest(k1), Rest(k2));
      match k1
      case ProjectByIdKey(p) =>
        NatToStringInjective(p, k2.project);
      case MemberRoleKey(p, u) =>
        ColonSplit(NatToString(p), NatToString(u), NatToString(k2.project), NatToString(k2.user));
        NatToStringInjective(p, k2.project);
        NatToStringInjective(u, k2.user);
      case ExistsMemberKey(p, u) =>
        ColonSplit(NatToString(p), NatToString(u), NatToString(k2.project), NatToString(k2.user));
        NatToStringInjective(p, k2.project);
        NatToStringInjective(u, k2.user);
      case IsAdminOrOwnerKey(p, u) =>
        ColonSplit(NatToString(p), NatToString(u), NatToString(k2.project), NatToString(k2.user));
        NatToStringInjective(p, k2.project);
        NatToStringInjective(u, k2.user);
    }
  }

  // ------------------------------------------------- invalidation, purely

  /** `invalidate_project_cache(p)` on the entries. */
  function WithoutProject(e: map<string, CachedValue>, p: nat): map<string, CachedValue>
  {
    e - {ProjectKey(p)}
  }

  /** `invalidate_membership_cache(p, u)` on the entries. */
  function WithoutMembership(e: map<string, CachedValue>, p: nat, u: nat): map<string, CachedValue>
  {
    e - MembershipKeys(p, u)
  }

  /** The membership keys of every listed user. */
  function UsersKeys(p: nat, users: seq<Id>): set<string>
    decreases |users|
  {
    if users == [] then {} else UsersKeys(p, users[..|users| - 1]) + MembershipKeys(p, users[|users| - 1])
  }

  /** Exactly the three keys of the pair go; every other entry stays as it was. */
  lemma MembershipInvalidationExact(e: map<string, CachedValue>, p: nat, u: nat, key: string)
    ensures key in WithoutMembership(e, p, u) <==>
      key in e && key != RoleKey(p, u) && key != ExistsKey(p, u) && key != AdminKey(p, u)
    ensures key in WithoutMembership(e, p, u) ==> WithoutMembership(e, p, u)[key] == e[key]
  {
  }

  /** Invalidating a pair leaves the cached answers of every other pair, and
      every project entry, alone. */
  lemma MembershipInvalidationIsLocal(e: map<string, CachedValue>, p: nat, u: nat, k: CacheKey)
    requires Format(k) in e
    requires !(k.MemberRoleKey? || k.ExistsMemberKey? || k.IsAdminOrOwnerKey?) || k.project != p || k.user != u
    ensures Format(k) in WithoutMembership(e, p, u)
  {
    FormatInjective(k, MemberRoleKey(p, u));
    FormatInjective(k, ExistsMemberKey(p, u));
    FormatInjective(k, IsAdminOrOwnerKey(p, u));
  }

  /** Deleting keys twice is deleting them once. */
  lemma InvalidationIdempotent(e: map<string, CachedValue>, p: nat, u: nat)
    ensures WithoutMembership(WithoutMembership(e, p, u), p, u) == WithoutMembership(e, p, u)
    ensures WithoutProject(WithoutProject(e, p), p) == WithoutProject(e, p)
  {
  }

  lemma ProjectInvalidationIsLocal(e: map<string, CachedValue>, p: nat, k: CacheKey)
    requires Format(k) in e && k != ProjectByIdKey(p)
    ensures Format(k) in WithoutProject(e, p) && WithoutProject(e, p)[Format(k)] == e[Format(k)]
  {
    FormatInjective(k, ProjectByIdKey(p));
  }

  /** Every listed user's three keys are among the listed users' keys. */
  lemma {:induction false} UsersKeysCoverListed(p: nat, users: seq<Id>, i: nat)
    requires i < |users|
    ensures MembershipKeys(p, users[i]) <= UsersKeys(p, users)
    decreases |users|
  {
    var n := |users| - 1;
    if i < n {
      assert users[..n][i] == users[i];
      UsersKeysCoverListed(p, users[..n], i);
    }
  }

  /** And no key of an unlisted user is: every key in the union belongs to
      some listed user. */
  lemma {:induction false} UsersKeysOnlyListed(p: nat, users: seq<Id>, key: string)
    requires key in UsersKeys(p, users)
    ensures exists i :: 0 <= i < |users| && key in MembershipKeys(p, users[i])
    decreases |users|
  {
    var n := |users| - 1;
    if key !in MembershipKeys(p, users[n]) {
      UsersKeysOnlyListed(p, users[..n], key);
      var i :| 0 <= i < n && key in MembershipKeys(p, users[..n][i]);
      assert users[..n][i] == users[i];
    }
  }

  lemma UsersKeysSnoc(p: nat, users: seq<Id>, i: nat)
    requires i < |users|
    ensures UsersKeys(p, users[..i + 1]) == UsersKeys(p, users[..i]) + MembershipKeys(p, users[i])
  {
    assert users[..i + 1][..i] == users[..i];
  }

  /** One more user's keys dropped is one more user in the list. */
  lemma InvalidateAllStep(e: map<string, CachedValue>, p: nat, userIds: seq<Id>, i: nat)
    requires i < |userIds|
    ensures WithoutMembership(e - ({ProjectKey(p)} + UsersKeys(p, userIds[..i])), p, userIds[i])
         == e - ({ProjectKey(p)} + UsersKeys(p, userIds[..i + 1]))
  {
    var a := {ProjectKey(p)} + UsersKeys(p, userIds[..i]);
    var b := MembershipKeys(p, userIds[i]);
    UsersKeysSnoc(p, userIds, i);
    assert {ProjectKey(p)} + UsersKeys(p, userIds[..i + 1]) == a + b;
    RemoveTwice(e, a, b);
  }

  lemma RemoveTwice(e: map<string, CachedValue>, a: set<string>, b: set<string>)
    ensures (e - a) - b == e - (a + b)
  {
  }

  // ----------------------------------------------------------- the store

  class CacheStore {
    var entries: map<string, CachedValue>

    constructor ()
      ensures entries == map[]
    {
      entries := map[];
    }

    /** `cache.get(key)`: None on a miss. */
    method Get(key: string) returns (v: Option<CachedValue>)
      ensures key in entries ==> v == Some(entries[key])
      ensures key !in entries ==> v.None?
    {
      v := if key in entries then Some(entries[key]) else None;
    }

    /** `cache.set(key, value, ttl)`; the TTL is not modelled. */
    method Set(key: string, v: CachedValue)
      modifies this
      ensures entries == old(entries)[key := v]
    {
      entries := entries[key := v];
    }

    /** `cache.delete(key)`; deleting an absent key is a no-op. */
    method Delete(key: string)
      modifies this
      ensures entries == old(entries) - {key}
    {
      entries := entries - {key};
    }

    /** `cache.delete_many(keys)`. */
    method DeleteMany(keys: set<string>)
      modifies this
      ensures entries == old(entries) - keys
    {
      entries := entries - keys;
    }
  }

  method InvalidateProjectCache(cache: CacheStore, p: nat)
    modifies cache
    ensures cache.entries == WithoutProject(old(cache.entries), p)
  {
    cache.Delete(ProjectKey(p));
  }

  method InvalidateMembershipCache(cache: CacheStore, p: nat, u: nat)
    modifies cache
    ensures cache.entries == WithoutMembership(old(cache.entries), p, u)
  {
    cache.DeleteMany(MembershipKeys(p, u));
  }

  /** `invalidate_all_project_caches(p, user_ids)`: the project key, then
      each listed user's three keys, one user at a time. */
  method InvalidateAllProjectCaches(cache: CacheStore, p: nat, userIds: seq<Id>)
    modifies cache
    ensures cache.entries == old(cache.entries) - ({ProjectKey(p)} + UsersKeys(p, userIds))
  {
    InvalidateProjectCache(cache, p);
    for i := 0 to |userIds|
      invariant cache.entries == old(cache.entries) - ({ProjectKey(p)} + UsersKeys(p, userIds[..i]))
    {
      InvalidateMembershipCache(cache, p, userIds[i]);
      InvalidateAllStep(old(cache.entries), p, userIds, i);
    }
    assert userIds[..|userIds|] == userIds;
  }
}
