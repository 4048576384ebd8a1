/** Read-through cached reads of projects and memberships
    (apps/projects/selectors.py), and what it means for the cache to agree
    with the tables. */
module ProjectSelectors {
  import opened Base
  import opened Models
  import opened Exceptions
  import opened Cache
  import opened Store

  // ----------------------------------------------- answers from the tables

  /** The role column of the (project, user) row, if there is one. */
  function StoreRole(members: map<(Id, Id), Role>, p: Id, u: Id): Option<Role>
  {
    if (p, u) in members then Some(members[(p, u)]) else None
  }

  predicate StoreExistsMember(members: map<(Id, Id), Role>, p: Id, u: Id)
  {
    (p, u) in members
  }

  /** `role__in=[OWNER, ADMIN]` on the pair's row. */
  predicate StoreIsAdminOrOwner(members: map<(Id, Id), Role>, p: Id, u: Id)
  {
    (p, u) in members && (members[(p, u)] == Owner || members[(p, u)] == Admin)
  }

  /** Read from the tables, the three membership answers agree: a role
      exists exactly for members, and an admin or owner is a member. */
  lemma SelectorsConsistent(members: map<(Id, Id), Role>, p: Id, u: Id)
    ensures StoreRole(members, p, u).Some? <==> StoreExistsMember(members, p, u)
    ensures StoreIsAdminOrOwner(members, p, u) ==> StoreExistsMember(members, p, u)
    ensures StoreIsAdminOrOwner(members, p, u) <==> StoreRole(members, p, u) in {Some(Owner), Some(Admin)}
  {
  }

  /** `get_by_id` answered from the table: the row, or NotFound. */
  function StoreGetById(projects: map<Id, Project>, p: nat): (r: Result<Project, ServiceError>)
    ensures r.Ok? <==> p in projects
    ensures r.Ok? ==> r.value == projects[p]
    ensures r.Err? ==> r.error.kind == NotFound
  {
    if p in projects then Ok(projects[p])
    else Err(NewServiceError(NotFound, Some("Проект не найден"), map[]))
  }

  /** `get_member`: the membership row, or NotFound. */
  function GetMember(members: map<(Id, Id), Role>, p: Id, u: Id): (r: Result<Role, ServiceError>)
    ensures r.Ok? <==> StoreExistsMember(members, p, u)
    ensures r.Ok? ==> Some(r.value) == StoreRole(members, p, u)
    ensures r.Err? ==> r.error.kind == NotFound
  {
    if (p, u) in members then Ok(members[(p, u)])
    else Err(NewServiceError(NotFound, Some("Участник не найден"), map[]))
  }

  // ------------------------------------------------ what the cache holds

  /** What `get_member_role` stores for an answer: the role string, or the
      sentinel for "no role". */
  function RoleCacheValue(r: Option<Role>): CachedValue
  {
    CachedRole(if r.None? then Sentinel else RoleValue(r.value))
  }

  /** What `get_member_role` returns for a cached string. */
  function DecodeRole(v: CachedValue): Option<Role>
  {
    if v.CachedRole? && v.role != Sentinel then ParseRole(v.role) else None
  }

  /** The sentinel round trip: a cached "no role" reads back as None, a
      cached role as itself, and None is never confused with a role. */
  lemma RoleCacheRoundTrip(r: Option<Role>)
    ensures DecodeRole(RoleCacheValue(r)) == r
  {
    if r.Some? {
      SentinelIsNotARole(r.value);
      RoleRoundTrip(r.value);
    }
  }

  /** Each family of keys holds values of its own kind. */
  ghost predicate WellTyped(e: map<string, CachedValue>)
  {
    (forall p: nat :: ProjectKey(p) in e ==> e[ProjectKey(p)].CachedProject?)
    && (forall p: nat, u: nat :: RoleKey(p, u) in e ==> e[RoleKey(p, u)].CachedRole?)
    && (forall p: nat, u: nat :: ExistsKey(p, u) in e ==> e[ExistsKey(p, u)].CachedBool?)
    && (forall p: nat, u: nat :: AdminKey(p, u) in e ==> e[AdminKey(p, u)].CachedBool?)
  }

  /** The cache agrees with the tables: every cached answer is the one the
      tables give now, and membership answers are only cached for ids the
      database has already handed out. */
  ghost predicate Coherent(e: map<string, CachedValue>, projects: map<Id, Project>, members: map<(Id, Id), Role>, next: Id)
  {
    (forall p: nat :: ProjectKey(p) in e ==> p in projects && e[ProjectKey(p)] == CachedProject(projects[p]))
    && (forall p: nat, u: nat :: RoleKey(p, u) in e ==>
          1 <= p < next && 1 <= u && e[RoleKey(p, u)] == RoleCacheValue(StoreRole(members, p, u)))
    && (forall p: nat, u: nat :: ExistsKey(p, u) in e ==>
          1 <= p < next && 1 <= u && e[ExistsKey(p, u)] == CachedBool(StoreExistsMember(members, p, u)))
    && (forall p: nat, u: nat :: AdminKey(p, u) in e ==>
          1 <= p < next && 1 <= u && e[AdminKey(p, u)] == CachedBool(StoreIsAdminOrOwner(members, p, u)))
  }

  lemma CoherentIsWellTyped(e: map<string, CachedValue>, projects: map<Id, Project>, members: map<(Id, Id), Role>, next: Id)
    requires Coherent(e, projects, members, next)
    ensures WellTyped(e)
  {
  }

  /** The empty cache agrees with any tables. */
  lemma EmptyCacheCoherent(projects: map<Id, Project>, members: map<(Id, Id), Role>, next: Id)
    ensures Coherent(map[], projects, members, next)
  {
  }

  /** The coherence story: when the tables change only at the projects in
      `P` and the pairs in `M`, and every cached key of those is gone, the
      cache agrees with the new tables. Deleting keys is all invalidation
      does, so this is the law each service's commit callbacks rely on. */
  lemma {:induction false} CoherentAfterChange(
    e: map<string, CachedValue>, projects: map<Id, Project>, members: map<(Id, Id), Role>, next: Id,
    e2: map<string, CachedValue>, projects2: map<Id, Project>, members2: map<(Id, Id), Role>, next2: Id,
    P: set<Id>, M: set<(Id, Id)>)
    requires Coherent(e, projects, members, next) && next <= next2
    requires forall k :: k in e2 ==> k in e && e2[k] == e[k]
    requires forall p :: p in projects && p !in P ==> p in projects2 && projects2[p] == projects[p]
    requires forall p: Id, u: Id :: (p, u) !in M ==> StoreRole(members2, p, u) == StoreRole(members, p, u)
    requires forall p :: p in P ==> ProjectKey(p) !in e2
    requires forall p, u :: (p, u) in M ==> RoleKey(p, u) !in e2 && ExistsKey(p, u) !in e2 && AdminKey(p, u) !in e2
    ensures Coherent(e2, projects2, members2, next2)
  {
    forall p: nat | ProjectKey(p) in e2
      ensures p in projects2 && e2[ProjectKey(p)] == CachedProject(projects2[p])
    {
      assert p in projects;
      assert p as Id !in P;
    }
    forall p: nat, u: nat | RoleKey(p, u) in e2
      ensures 1 <= p < next2 && 1 <= u && e2[RoleKey(p, u)] == RoleCacheValue(StoreRole(members2, p, u))
    {
      assert 1 <= p && 1 <= u;
      assert (p, u) !in M;
    }
    forall p: nat, u: nat | ExistsKey(p, u) in e2
      ensures 1 <= p < next2 && 1 <= u && e2[ExistsKey(p, u)] == CachedBool(StoreExistsMember(members2, p, u))
    {
      assert 1 <= p && 1 <= u;
      assert (p, u) !in M;
      assert StoreRole(members2, p, u) == StoreRole(members, p, u);
    }
    forall p: nat, u: nat | AdminKey(p, u) in e2
      ensures 1 <= p < next2 && 1 <= u && e2[AdminKey(p, u)] == CachedBool(StoreIsAdminOrOwner(members2, p, u))
    {
      assert 1 <= p && 1 <= u;
      assert (p, u) !in M;
      assert StoreRole(members2, p, u) == StoreRole(members, p, u);
    }
  }

  /** Changes the cache does not see: the membership and project tables are
      untouched, only later ids are handed out. */
  lemma CoherentUnderOtherWrites(e: map<string, CachedValue>, projects: map<Id, Project>, members: map<(Id, Id), Role>, next: Id, next2: Id)
    requires Coherent(e, projects, members, next) && next <= next2
    ensures Coherent(e, projects, members, next2)
  {
  }

  // ---------------------------------------------- the read-through reads

  /** `get_by_id`: a hit is returned without reading the table; a miss
      reads it and caches the row; an absent project raises NotFound and
      caches nothing. */
  method GetById(db: Db, cache: CacheStore, p: nat) returns (r: Result<Project, ServiceError>)
    requires WellTyped(cache.entries)
    modifies cache
    ensures WellTyped(cache.entries)
    ensures ProjectKey(p) in old(cache.entries) ==>
      r == Ok(old(cache.entries)[ProjectKey(p)].project) && cache.entries == old(cache.entries)
    ensures ProjectKey(p) !in old(cache.entries) && p in db.projects ==>
      r == Ok(db.projects[p]) && cache.entries == old(cache.entries)[ProjectKey(p) := CachedProject(db.projects[p])]
    ensures ProjectKey(p) !in old(cache.entries) && p !in db.projects ==>
      r.Err? && r.error.kind == NotFound && cache.entries == old(cache.entries)
    ensures Coherent(old(cache.entries), db.projects, db.members, db.nextId) ==>
      Coherent(cache.entries, db.projects, db.members, db.nextId) && r == StoreGetById(db.projects, p)
  {
    var cached := cache.Get(ProjectKey(p));
    if cached.Some? {
      return Ok(cached.value.project);
    }
    if p !in db.projects {
      return StoreGetById(db.projects, p);
    }
    var project := db.projects[p];
    SetKeepsTyping(cache.entries, ProjectByIdKey(p), CachedProject(project));
    cache.Set(ProjectKey(p), CachedProject(project));
    r := Ok(project);
    SetKeepsCoherent(old(cache.entries), db.projects, db.members, db.nextId, ProjectByIdKey(p), CachedProject(project));
  }

  /** `get_member_role`: a cached sentinel reads as None; on a miss the
      row's role, or the sentinel when there is no row, is cached. As with
      `exists_member`, the project is whatever object the caller holds, so
      its id need not name a stored project; no membership row names id 0. */
  method GetMemberRole(db: Db, cache: CacheStore, p: nat, u: Id) returns (r: Option<Role>)
    requires WellTyped(cache.entries) && u in db.users
    modifies cache
    ensures WellTyped(cache.entries)
    ensures RoleKey(p, u) in old(cache.entries) ==>
      r == DecodeRole(old(cache.entries)[RoleKey(p, u)]) && cache.entries == old(cache.entries)
    ensures RoleKey(p, u) !in old(cache.entries) ==>
      r == (if p >= 1 then StoreRole(db.members, p, u) else None)
      && cache.entries == old(cache.entries)[RoleKey(p, u) := RoleCacheValue(r)]
    ensures Coherent(old(cache.entries), db.projects, db.members, db.nextId) ==>
      r == (if p >= 1 then StoreRole(db.members, p, u) else None)
    ensures Coherent(old(cache.entries), db.projects, db.members, db.nextId) && 1 <= p < db.nextId ==>
      Coherent(cache.entries, db.projects, db.members, db.nextId)
  {
    var cached := cache.Get(RoleKey(p, u));
    if cached.Some? {
      r := DecodeRole(cached.value);
      if Coherent(old(cache.entries), db.projects, db.members, db.nextId) {
        RoleCacheRoundTrip(StoreRole(db.members, p, u));
      }
      return;
    }
    r := if p >= 1 then StoreRole(db.members, p, u) else None;
    SetKeepsTyping(cache.entries, MemberRoleKey(p, u), RoleCacheValue(r));
    cache.Set(RoleKey(p, u), RoleCacheValue(r));
    if 1 <= p < db.nextId {
      SetKeepsCoherent(old(cache.entries), db.projects, db.members, db.nextId, MemberRoleKey(p, u), RoleCacheValue(r));
    }
  }

  /** `exists_member`: both answers are cached, and a cached False is
      returned as it is, without reading the table. The project is the
      object the caller holds, which may come from the cache, so its id
      need not name a stored project; no membership row names id 0. Only
      an answer about an id already handed out keeps the cache coherent. */
  method ExistsMember(db: Db, cache: CacheStore, p: nat, u: Id) returns (r: bool)
    requires WellTyped(cache.entries) && u in db.users
    modifies cache
    ensures WellTyped(cache.entries)
    ensures ExistsKey(p, u) in old(cache.entries) ==>
      r == old(cache.entries)[ExistsKey(p, u)].flag && cache.entries == old(cache.entries)
    ensures ExistsKey(p, u) !in old(cache.entries) ==>
      r == (p >= 1 && StoreExistsMember(db.members, p, u))
      && cache.entries == old(cache.entries)[ExistsKey(p, u) := CachedBool(r)]
    ensures Coherent(old(cache.entries), db.projects, db.members, db.nextId) ==>
      r == (p >= 1 && StoreExistsMember(db.members, p, u))
    ensures Coherent(old(cache.entries), db.projects, db.members, db.nextId) && 1 <= p < db.nextId ==>
      Coherent(cache.entries, db.projects, db.members, db.nextId)
  {
    var cached := cache.Get(ExistsKey(p, u));
    if cached.Some? {
      return cached.value.flag;
    }
    r := p >= 1 && StoreExistsMember(db.members, p, u);
    SetKeepsTyping(cache.entries, ExistsMemberKey(p, u), CachedBool(r));
    cache.Set(ExistsKey(p, u), CachedBool(r));
    if 1 <= p < db.nextId {
      SetKeepsCoherent(old(cache.entries), db.projects, db.members, db.nextId, ExistsMemberKey(p, u), CachedBool(r));
    }
  }

  /** `is_admin_or_owner`, cached like `exists_member`, and like it on any
      project id the caller's object carries. */
  method IsAdminOrOwner(db: Db, cache: CacheStore, p: nat, u: Id) returns (r: bool)
    requires WellTyped(cache.entries) && u in db.users
    modifies cache
    ensures WellTyped(cache.entries)
    ensures AdminKey(p, u) in old(cache.entries) ==>
      r == old(cache.entries)[AdminKey(p, u)].flag && cache.entries == old(cache.entries)
    ensures AdminKey(p, u) !in old(cache.entries) ==>
      r == (p >= 1 && StoreIsAdminOrOwner(db.members, p, u))
      && cache.entries == old(cache.entries)[AdminKey(p, u) := CachedBool(r)]
    ensures Coherent(old(cache.entries), db.projects, db.members, db.nextId) ==>
      r == (p >= 1 && StoreIsAdminOrOwner(db.members, p, u))
    ensures Coherent(old(cache.entries), db.projects, db.members, db.nextId) && 1 <= p < db.nextId ==>
      Coherent(cache.entries, db.projects, db.members, db.nextId)
  {
    var cached := cache.Get(AdminKey(p, u));
    if cached.Some? {
      return cached.value.flag;
    }
    r := p >= 1 && StoreIsAdminOrOwner(db.members, p, u);
    SetKeepsTyping(cache.entries, IsAdminOrOwnerKey(p, u), CachedBool(r));
    cache.Set(AdminKey(p, u), CachedBool(r));
    if 1 <= p < db.nextId {
      SetKeepsCoherent(old(cache.entries), db.projects, db.members, db.nextId, IsAdminOrOwnerKey(p, u), CachedBool(r));
    }
  }

  // ------------------------------------------------------------ helpers

  /** The value a coherent cache holds, or would be filled with, under a key. */
  ghost function Expected(k: CacheKey, projects: map<Id, Project>, members: map<(Id, Id), Role>): Option<CachedValue>
  {
    match k
    case ProjectByIdKey(p) => if p in projects then Some(CachedProject(projects[p])) else None
    case MemberRoleKey(p, u) => if p >= 1 && u >= 1 then Some(RoleCacheValue(StoreRole(members, p, u))) else None
    case ExistsMemberKey(p, u) => if p >= 1 && u >= 1 then Some(CachedBool(StoreExistsMember(members, p, u))) else None
    case IsAdminOrOwnerKey(p, u) => if p >= 1 && u >= 1 then Some(CachedBool(StoreIsAdminOrOwner(members, p, u))) else None
  }

  /** The kind of value a family of keys holds. */
  predicate KindFits(k: CacheKey, v: CachedValue)
  {
    match k
    case ProjectByIdKey(_) => v.CachedProject?
    case MemberRoleKey(_, _) => v.CachedRole?
    case ExistsMemberKey(_, _) => v.CachedBool?
    case IsAdminOrOwnerKey(_, _) => v.CachedBool?
  }

  lemma SetKeepsTyping(e: map<string, CachedValue>, k: CacheKey, v: CachedValue)
    requires WellTyped(e) && KindFits(k, v)
    ensures WellTyped(e[Format(k) := v])
  {
    var e2 := e[Format(k) := v];
    forall p: nat | ProjectKey(p) in e2 ensures e2[ProjectKey(p)].CachedProject? {
      FormatInjective(ProjectByIdKey(p), k);
    }
    forall p: nat, u: nat | RoleKey(p, u) in e2 ensures e2[RoleKey(p, u)].CachedRole? {
      FormatInjective(MemberRoleKey(p, u), k);
    }
    forall p: nat, u: nat | ExistsKey(p, u) in e2 ensures e2[ExistsKey(p, u)].CachedBool? {
      FormatInjective(ExistsMemberKey(p, u), k);
    }
    forall p: nat, u: nat | AdminKey(p, u) in e2 ensures e2[AdminKey(p, u)].CachedBool? {
      FormatInjective(IsAdminOrOwnerKey(p, u), k);
    }
  }

  /** Filling a key with the value the tables give keeps the cache coherent. */
  lemma SetKeepsCoherent(e: map<string, CachedValue>, projects: map<Id, Project>, members: map<(Id, Id), Role>, next: Id,
                         k: CacheKey, v: CachedValue)
    requires Expected(k, projects, members) == Some(v)
    requires k.ProjectByIdKey? || k.project < next
    ensures Coherent(e, projects, members, next) ==> Coherent(e[Format(k) := v], projects, members, next)
  {
    if Coherent(e, projects, members, next) {
      var e2 := e[Format(k) := v];
      forall p: nat | ProjectKey(p) in e2
        ensures p in projects && e2[ProjectKey(p)] == CachedProject(projects[p])
      {
        FormatInjective(ProjectByIdKey(p), k);
      }
      forall p: nat, u: nat | RoleKey(p, u) in e2
        ensures 1 <= p < next && 1 <= u && e2[RoleKey(p, u)] == RoleCacheValue(StoreRole(members, p, u))
      {
        FormatInjective(MemberRoleKey(p, u), k);
      }
      forall p: nat, u: nat | ExistsKey(p, u) in e2
        ensures 1 <= p < next && 1 <= u && e2[ExistsKey(p, u)] == CachedBool(StoreExistsMember(members, p, u))
      {
        FormatInjective(ExistsMemberKey(p, u), k);
      }
      forall p: nat, u: nat | AdminKey(p, u) in e2
        ensures 1 <= p < next && 1 <= u && e2[AdminKey(p, u)] == CachedBool(StoreIsAdminOrOwner(members, p, u))
      {
        FormatInjective(IsAdminOrOwnerKey(p, u), k);
      }
    }
  }

  // ------------------------------------------------------ the pure reads

  /** `filter_for_user`: the projects the user belongs to, each once. */
  function FilterForUser(projects: map<Id, Project>, members: map<(Id, Id), Role>, u: Id): (r: set<Id>)
    ensures forall p :: p in r ==> p in projects
  {
    set p | p in projects && (p, u) in members
  }

  /** `filter_members`: the users holding a membership row of the project. */
  function FilterMembers(members: map<(Id, Id), Role>, p: Id): set<Id>
  {
    set pu | pu in members && pu.0 == p :: pu.1
  }

  /** Under the owner rule a user lists exactly the projects whose member
      rows name them, owned ones included, and every project lists its owner. */
  lemma FilterForUserIsMembership(projects: map<Id, Project>, members: map<(Id, Id), Role>, u: Id, p: Id)
    requires OwnerInvariant(projects, members)
    ensures p in FilterForUser(projects, members, u) <==> StoreExistsMember(members, p, u)
    ensures p in projects && projects[p].ownerId == u ==> p in FilterForUser(projects, members, u)
    ensures p in projects ==> projects[p].ownerId in FilterMembers(members, p)
    ensures u in FilterMembers(members, p) <==> StoreExistsMember(members, p, u)
  {
    if p in projects {
      assert (p, projects[p].ownerId) in members;
    }
    if (p, u) in members {
      assert u == ((p, u)).1;
    }
  }

  /** The counters `get_project_with_task_stats` annotates. */
  datatype TaskStats = TaskStats(total: nat, completed: nat, pending: nat, inProgress: nat, membersCount: nat)

  function TasksOf(tasks: map<Id, Task>, p: Id): set<Id>
  {
    set t | t in tasks && tasks[t].projectId == p
  }

  function TasksIn(tasks: map<Id, Task>, p: Id, s: TaskStatus): set<Id>
  {
    set t | t in tasks && tasks[t].projectId == p && tasks[t].status == s
  }

  /** `get_project_with_task_stats`: the counters, or NotFound. */
  function GetProjectWithTaskStats(projects: map<Id, Project>, members: map<(Id, Id), Role>, tasks: map<Id, Task>, p: nat): (r: Result<TaskStats, ServiceError>)
    ensures r.Ok? <==> p in projects
    ensures r.Err? ==> r.error.kind == NotFound
  {
    if p !in projects then Err(NewServiceError(NotFound, Some("Проект не найден"), map[]))
    else Ok(TaskStats(|TasksOf(tasks, p)|, |TasksIn(tasks, p, Completed)|, |TasksIn(tasks, p, Pending)|,
                      |TasksIn(tasks, p, InProgress)|, |FilterMembers(members, p)|))
  }

  /** The three status counters never exceed the total: cancelled tasks are
      counted only there. */
  lemma TaskStatsBounded(projects: map<Id, Project>, members: map<(Id, Id), Role>, tasks: map<Id, Task>, p: Id)
    requires p in projects
    ensures var s := GetProjectWithTaskStats(projects, members, tasks, p).value;
      s.completed + s.pending + s.inProgress <= s.total
  {
    var a, b, c := TasksIn(tasks, p, Completed), TasksIn(tasks, p, Pending), TasksIn(tasks, p, InProgress);
    assert a * b == {} && (a + b) * c == {};
    assert |a + b| == |a| + |b|;
    assert |a + b + c| == |a + b| + |c|;
    assert a + b + c <= TasksOf(tasks, p);
    SubsetCard(a + b + c, TasksOf(tasks, p));
  }

  lemma {:induction false} SubsetCard<T>(x: set<T>, y: set<T>)
    requires x <= y
    ensures |x| <= |y|
    decreases |y|
  {
    if x != {} {
      var e :| e in x;
      SubsetCard(x - {e}, y - {e});
    }
  }

  /** How often the query of `get_project_with_task_stats` repeats each task
      row: it joins both reverse relations, tasks and members, so each task
      appears once per membership row, and once when the project has none
      (the outer join keeps it beside a null member). */
  function JoinFactor(members: map<(Id, Id), Role>, p: Id): (f: nat)
    ensures f >= 1
    ensures |FilterMembers(members, p)| >= 1 ==> f == |FilterMembers(members, p)|
  {
    var m := |FilterMembers(members, p)|;
    if m == 0 then 1 else m
  }

  /** `get_project_with_task_stats` as written: the four task counters have
      no `distinct=True`, so each counts joined rows rather than tasks. Only
      `members_count` counts distinct members. */
  function GetProjectWithTaskStatsAsWritten(projects: map<Id, Project>, members: map<(Id, Id), Role>, tasks: map<Id, Task>, p: nat): (r: Result<TaskStats, ServiceError>)
    ensures r.Ok? <==> p in projects
    ensures r.Err? ==> r.error.kind == NotFound
  {
    if p !in projects then Err(NewServiceError(NotFound, Some("Проект не найден"), map[]))
    else
      var f := JoinFactor(members, p);
      Ok(TaskStats(f * |TasksOf(tasks, p)|, f * |TasksIn(tasks, p, Completed)|, f * |TasksIn(tasks, p, Pending)|,
                   f * |TasksIn(tasks, p, InProgress)|, |FilterMembers(members, p)|))
  }

  /** The counters as written are the intended ones times the join factor,
      so they agree exactly when the project has at most one member or no
      task at all. */
  lemma AsWrittenStatsScale(projects: map<Id, Project>, members: map<(Id, Id), Role>, tasks: map<Id, Task>, p: Id)
    requires p in projects
    ensures var w, c := GetProjectWithTaskStatsAsWritten(projects, members, tasks, p).value,
                        GetProjectWithTaskStats(projects, members, tasks, p).value;
      var f := JoinFactor(members, p);
      w.total == f * c.total && w.completed == f * c.completed && w.pending == f * c.pending &&
      w.inProgress == f * c.inProgress && w.membersCount == c.membersCount &&
      (w == c <==> |FilterMembers(members, p)| <= 1 || c.total == 0)
  {
    var c := GetProjectWithTaskStats(projects, members, tasks, p).value;
    TaskStatsBounded(projects, members, tasks, p);
    if c.total == 0 {
      assert c.completed == 0 && c.pending == 0 && c.inProgress == 0;
    }
  }

  /** An owner, one more member and one pending task: the query as written
      reports two tasks, both pending. */
  lemma StatsCountTasksPerMember()
    ensures var projects := map[1 := Project("p", "", ProjectActive, 1)];
      var members := map[(1, 1) := Owner, (1, 2) := Member];
      var tasks := map[1 := Task(1, 1, None, "t", "", Pending, Medium, None, 1, {})];
      var w := GetProjectWithTaskStatsAsWritten(projects, members, tasks, 1).value;
      var c := GetProjectWithTaskStats(projects, members, tasks, 1).value;
      w.total == 2 && w.pending == 2 && w.membersCount == 2 &&
      c.total == 1 && c.pending == 1 && c.membersCount == 2
  {
    var members := map[(1, 1) := Owner, (1, 2) := Member];
    var tasks := map[1 := Task(1, 1, None, "t", "", Pending, Medium, None, 1, {})];
    assert FilterMembers(members, 1) == {1, 2} by {
      assert ((1, 1)).1 == 1 && ((1, 2)).1 == 2;
    }
    assert TasksOf(tasks, 1) == {1};
    assert TasksIn(tasks, 1, Pending) == {1};
  }

  /** `get_members_count`: the annotated count when the query carried one,
      otherwise the number of membership rows of the project. */
  function MembersCount(members: map<(Id, Id), Role>, p: Id, annotated: Option<nat>): (n: nat)
    ensures annotated.Some? ==> n == annotated.value
    ensures annotated.None? ==> n == |set pu | pu in members && pu.0 == p|
  {
    if annotated.Some? then annotated.value else |set pu | pu in members && pu.0 == p|
  }
}
