/** Projects and their memberships (apps/projects/services.py): the single
    owner is created with the project and can never be added, changed or
    removed afterwards; every membership write invalidates its cache keys
    once the transaction commits. */
module ProjectServices {
  import opened Base
  import opened Models
  import opened Exceptions
  import opened Cache
  import opened Outbox
  import opened Store
  import opened ProjectSelectors

  // ------------------------------------------------------------ the rules

  /** Exactly one membership of a project has the owner role: its owner's. */
  lemma ExactlyOneOwner(projects: map<Id, Project>, members: map<(Id, Id), Role>, p: Id)
    requires OwnerInvariant(projects, members) && p in projects
    ensures forall u: Id :: StoreRole(members, p, u) == Some(Owner) <==> u == projects[p].ownerId
  {
  }

  /** The membership table after the project's rows are gone (cascade). */
  function MembersWithoutProject(members: map<(Id, Id), Role>, p: Id): (r: map<(Id, Id), Role>)
    ensures forall pu :: pu in r <==> pu in members && pu.0 != p
    ensures forall pu :: pu in r ==> r[pu] == members[pu]
  {
    map pu | pu in members && pu.0 != p :: members[pu]
  }

  // ------------------------------------------------------- create_project

  /** A new project is active, and its only membership is its owner's, with
      the owner role. */
  method CreateProject(db: Db, owner: Id, name: string, description: string) returns (p: Id)
    requires db.Valid() && owner in db.users
    modifies db`projects, db`members, db`nextId
    ensures db.Valid()
    ensures p == old(db.nextId) && p !in old(db.projects)
    ensures db.projects == old(db.projects)[p := Project(name, description, ProjectActive, owner)]
    ensures db.members == old(db.members)[(p, owner) := Owner]
    ensures forall u: Id :: StoreRole(db.members, p, u) == (if u == owner then Some(Owner) else None)
  {
    p := db.FreshId();
    db.projects := db.projects[p := Project(name, description, ProjectActive, owner)];
    db.members := db.members[(p, owner) := Owner];
  }

  /** Creating a project needs no invalidation: nothing about its fresh id
      can be cached yet. */
  lemma CreateProjectKeepsCacheCoherent(e: map<string, CachedValue>, projects: map<Id, Project>,
                                        members: map<(Id, Id), Role>, next: Id, owner: Id, row: Project)
    requires Coherent(e, projects, members, next) && next !in projects
    ensures Coherent(e, projects[next := row], members[(next, owner) := Owner], next + 1)
  {
    Coherent3(e, projects, members, next, next, owner);
    CoherentAfterChange(e, projects, members, next, e, projects[next := row], members[(next, owner) := Owner], next + 1,
                        {next}, {(next, owner)});
  }

  /** A coherent cache holds no key at all about a project id not yet in use. */
  lemma Coherent3(e: map<string, CachedValue>, projects: map<Id, Project>, members: map<(Id, Id), Role>, next: Id, p: Id, u: Id)
    requires Coherent(e, projects, members, next) && p !in projects && p >= next
    ensures ProjectKey(p) !in e && RoleKey(p, u) !in e && ExistsKey(p, u) !in e && AdminKey(p, u) !in e
  {
  }

  // ------------------------------------------ update_project, archive_project

  /** The row after `update_project`: a None argument leaves its field alone. */
  function ApplyProjectUpdate(project: Project, name: Option<string>, description: Option<string>): (r: Project)
    ensures r.status == project.status && r.ownerId == project.ownerId
    ensures name.None? ==> r.name == project.name
    ensures name.Some? ==> r.name == name.value
    ensures description.None? ==> r.description == project.description
    ensures description.Some? ==> r.description == description.value
  {
    project.(name := if name.Some? then name.value else project.name,
             description := if description.Some? then description.value else project.description)
  }

  method UpdateProject(db: Db, p: Id, name: Option<string>, description: Option<string>) returns (r: Project)
    requires db.Valid() && p in db.projects
    modifies db`projects, db`pending
    ensures db.Valid()
    ensures r == ApplyProjectUpdate(old(db.projects)[p], name, description)
    ensures db.projects == old(db.projects)[p := r]
    ensures db.pending == old(db.pending) + [InvalidateProject(p)]
  {
    var project := db.projects[p];
    if name.Some? {
      project := project.(name := name.value);
    }
    if description.Some? {
      project := project.(description := description.value);
    }
    db.projects := db.projects[p := project];
    db.pending := db.pending + [InvalidateProject(p)];
    r := project;
  }

  method ArchiveProject(db: Db, p: Id) returns (r: Project)
    requires db.Valid() && p in db.projects
    modifies db`projects, db`pending
    ensures db.Valid()
    ensures r == old(db.projects)[p].(status := ProjectArchived)
    ensures db.projects == old(db.projects)[p := r]
    ensures db.pending == old(db.pending) + [InvalidateProject(p)]
  {
    r := db.projects[p].(status := ProjectArchived);
    db.projects := db.projects[p := r];
    db.pending := db.pending + [InvalidateProject(p)];
  }

  /** A project row rewritten in place: dropping its one key restores
      coherence, since no membership answer depends on the row. */
  lemma ProjectWriteRestoresCoherence(e: map<string, CachedValue>, projects: map<Id, Project>,
                                      members: map<(Id, Id), Role>, next: Id, p: Id, row: Project)
    requires Coherent(e, projects, members, next) && p in projects
    ensures Coherent(ApplyEffects(e, [InvalidateProject(p)]), projects[p := row], members, next)
  {
    var effs := [InvalidateProject(p)];
    assert effs[..0] == [];
    ApplyEffectsDeletes(e, effs);
    CoherentAfterChange(e, projects, members, next, ApplyEffects(e, effs), projects[p := row], members, next, {p}, {});
  }

  // ------------------------------------------------------- delete_project

  /** The member ids read before the delete, each once. */
  method MemberUserIds(members: map<(Id, Id), Role>, p: Id) returns (ids: seq<Id>)
    ensures forall u: Id :: u in ids <==> (p, u) in members
    ensures forall i, j :: 0 <= i < j < |ids| ==> ids[i] != ids[j]
  {
    var remaining := set pu | pu in members && pu.0 == p :: pu.1;
    ids := [];
    while remaining != {}
      invariant forall u: Id :: (u in ids || u in remaining) <==> (p, u) in members
      invariant forall u :: u in ids ==> u !in remaining
      invariant forall i, j :: 0 <= i < j < |ids| ==> ids[i] != ids[j]
      decreases |remaining|
    {
      var u :| u in remaining;
      ids := ids + [u];
      remaining := remaining - {u};
    }
  }

  function TasksWithoutProject(tasks: map<Id, Task>, p: Id): (r: map<Id, Task>)
    ensures forall t :: t in r <==> t in tasks && tasks[t].projectId != p
    ensures forall t :: t in r ==> r[t] == tasks[t]
  {
    map t | t in tasks && tasks[t].projectId != p :: tasks[t]
  }

  function TagsWithoutProject(tags: map<Id, Tag>, p: Id): (r: map<Id, Tag>)
    ensures forall t :: t in r <==> t in tags && tags[t].projectId != p
    ensures forall t :: t in r ==> r[t] == tags[t]
  {
    map t | t in tags && tags[t].projectId != p :: tags[t]
  }

  /** The comments whose task survives. */
  function CommentsOfTasks(comments: map<Id, Comment>, tasks: map<Id, Task>): (r: map<Id, Comment>)
    ensures forall c :: c in r <==> c in comments && comments[c].taskId in tasks
    ensures forall c :: c in r ==> r[c] == comments[c]
  {
    map c | c in comments && comments[c].taskId in tasks :: comments[c]
  }

  /** Dropping a project together with its memberships keeps the owner rule. */
  lemma OwnerInvariantWithoutProject(projects: map<Id, Project>, members: map<(Id, Id), Role>, p: Id)
    requires OwnerInvariant(projects, members)
    ensures OwnerInvariant(projects - {p}, MembersWithoutProject(members, p))
  {
  }

  /** Deleting a project cascades to its memberships, tasks (and their
      comments) and tags; on commit the project key and the membership keys
      of every member read beforehand are dropped. */
  method DeleteProject(db: Db, p: Id) returns (memberIds: seq<Id>)
    requires db.Valid() && p in db.projects
    modifies db`projects, db`members, db`tasks, db`tags, db`comments, db`pending
    ensures db.Valid()
    ensures forall u: Id :: u in memberIds <==> (p, u) in old(db.members)
    ensures db.projects == old(db.projects) - {p}
    ensures db.members == MembersWithoutProject(old(db.members), p)
    ensures db.tasks == TasksWithoutProject(old(db.tasks), p)
    ensures db.tags == TagsWithoutProject(old(db.tags), p)
    ensures db.comments == CommentsOfTasks(old(db.comments), db.tasks)
    ensures db.pending == old(db.pending) + [InvalidateAll(p, memberIds)]
  {
    memberIds := MemberUserIds(db.members, p);
    OwnerInvariantWithoutProject(db.projects, db.members, p);
    db.projects := db.projects - {p};
    db.members := MembersWithoutProject(db.members, p);
    db.tasks := TasksWithoutProject(db.tasks, p);
    db.tags := TagsWithoutProject(db.tags, p);
    db.comments := CommentsOfTasks(db.comments, db.tasks);
    db.pending := db.pending + [InvalidateAll(p, memberIds)];
  }

  /** A listed user's three keys are among the listed users' keys. */
  lemma UsersKeysCover(p: Id, users: seq<Id>, u: Id)
    requires u in users
    ensures RoleKey(p, u) in UsersKeys(p, users) && ExistsKey(p, u) in UsersKeys(p, users) && AdminKey(p, u) in UsersKeys(p, users)
  {
    var i :| 0 <= i < |users| && users[i] == u;
    UsersKeysCoverListed(p, users, i);
  }

  /** The cache after the delete's one callback. */
  lemma DeleteProjectCallback(e: map<string, CachedValue>, p: Id, users: seq<Id>)
    ensures ApplyEffects(e, [InvalidateAll(p, users)]) == e - ({ProjectKey(p)} + UsersKeys(p, users))
  {
    var effs := [InvalidateAll(p, users)];
    assert effs[..0] == [];
  }

  /** After the delete commits the cache agrees with the tables again: the
      project key and every former member's keys are gone. */
  lemma DeleteProjectRestoresCoherence(e: map<string, CachedValue>, projects: map<Id, Project>,
                                       members: map<(Id, Id), Role>, next: Id, p: Id, users: seq<Id>)
    requires Coherent(e, projects, members, next)
    requires forall u: Id :: (p, u) in members ==> u in users
    ensures Coherent(ApplyEffects(e, [InvalidateAll(p, users)]), projects - {p}, MembersWithoutProject(members, p), next)
  {
    DeleteProjectCallback(e, p, users);
    var gone := {ProjectKey(p)} + UsersKeys(p, users);
    var e2 := e - gone;
    var M := set pu | pu in members && pu.0 == p;
    forall q, u | (q, u) in M
      ensures RoleKey(q, u) !in e2 && ExistsKey(q, u) !in e2 && AdminKey(q, u) !in e2
    {
      UsersKeysCover(p, users, u);
    }
    CoherentAfterChange(e, projects, members, next, e2, projects - {p}, MembersWithoutProject(members, p), next, {p}, M);
  }

  // ------------------------------------------------------------ add_member

  /** The checks of `add_member`, in their order: an existing member is a
      conflict before the owner role is refused. */
  function AddMemberCheck(members: map<(Id, Id), Role>, p: Id, u: Id, role: Role): (r: Result<Role, ServiceError>)
    ensures StoreExistsMember(members, p, u) ==> r.Err? && r.error.kind == Conflict
    ensures !StoreExistsMember(members, p, u) && role == Owner ==> r.Err? && r.error.kind == Validation
    ensures r.Ok? <==> !StoreExistsMember(members, p, u) && role != Owner
    ensures r.Ok? ==> r.value == role
  {
    if StoreExistsMember(members, p, u) then
      Err(NewServiceError(Conflict, Some("Пользователь уже является участником проекта"), map[]))
    else if role == Owner then
      Err(NewServiceError(Validation, Some("Нельзя добавить участника с ролью владельца"), map[]))
    else Ok(role)
  }

  function AddMemberEffects(p: Id, u: Id, role: Role): seq<Effect>
  {
    [InvalidateMembership(p, u), Enqueue(ProjectInvitationEmail(u, p, role))]
  }

  /** `add_member` asks the cached `exists_member`; with a cache that agrees
      with the tables its answer is the table's. */
  method AddMember(db: Db, cache: CacheStore, p: Id, u: Id, role: Role) returns (r: Result<Role, ServiceError>)
    requires db.Valid() && p in db.projects && u in db.users
    requires Coherent(cache.entries, db.projects, db.members, db.nextId)
    modifies db`members, db`pending, cache
    ensures db.Valid()
    ensures r == AddMemberCheck(old(db.members), p, u, role)
    ensures Coherent(cache.entries, old(db.projects), old(db.members), db.nextId)
    ensures r.Err? ==> db.members == old(db.members) && db.pending == old(db.pending)
    ensures r.Ok? ==> db.members == old(db.members)[(p, u) := role]
    ensures r.Ok? ==> db.pending == old(db.pending) + AddMemberEffects(p, u, role)
  {
    var exists_ := ExistsMember(db, cache, p, u);
    if exists_ {
      return Err(NewServiceError(Conflict, Some("Пользователь уже является участником проекта"), map[]));
    }
    if role == Owner {
      return Err(NewServiceError(Validation, Some("Нельзя добавить участника с ролью владельца"), map[]));
    }
    db.members := db.members[(p, u) := role];
    db.pending := db.pending + [InvalidateMembership(p, u), Enqueue(ProjectInvitationEmail(u, p, role))];
    r := Ok(role);
  }

  // ---------------------------------------------------- update_member_role

  /** The checks of `update_member_role`: the owner's membership first, then
      the owner role as a target. */
  function UpdateRoleCheck(current: Role, role: Role): (r: Result<Role, ServiceError>)
    ensures current == Owner ==> r.Err? && r.error.kind == Validation
    ensures r.Ok? <==> current != Owner && role != Owner
    ensures r.Err? ==> r.error.kind == Validation
    ensures r.Ok? ==> r.value == role
  {
    if current == Owner then Err(NewServiceError(Validation, Some("Нельзя изменить роль владельца проекта"), map[]))
    else if role == Owner then Err(NewServiceError(Validation, Some("Нельзя назначить роль владельца"), map[]))
    else Ok(role)
  }

  /** The pair's keys are dropped every time; the email only for a real change. */
  function UpdateRoleEffects(p: Id, u: Id, oldRole: Role, role: Role): seq<Effect>
  {
    [InvalidateMembership(p, u)] + (if oldRole != role then [Enqueue(RoleChangedEmail(u, p, role))] else [])
  }

  method UpdateMemberRole(db: Db, p: Id, u: Id, role: Role) returns (r: Result<Role, ServiceError>)
    requires db.Valid() && (p, u) in db.members
    modifies db`members, db`pending
    ensures db.Valid()
    ensures r == UpdateRoleCheck(old(db.members)[(p, u)], role)
    ensures r.Err? ==> db.members == old(db.members) && db.pending == old(db.pending)
    ensures r.Ok? ==> db.members == old(db.members)[(p, u) := role]
    ensures r.Ok? ==> db.pending == old(db.pending) + UpdateRoleEffects(p, u, old(db.members)[(p, u)], role)
  {
    var current := db.members[(p, u)];
    if current == Owner {
      return Err(NewServiceError(Validation, Some("Нельзя изменить роль владельца проекта"), map[]));
    }
    if role == Owner {
      return Err(NewServiceError(Validation, Some("Нельзя назначить роль владельца"), map[]));
    }
    db.members := db.members[(p, u) := role];
    db.pending := db.pending + [InvalidateMembership(p, u)];
    if current != role {
      db.pending := db.pending + [Enqueue(RoleChangedEmail(u, p, role))];
    }
    r := Ok(role);
  }

  // ------------------------------------------- remove_member, leave_project

  function RemoveCheck(current: Role, message: string): (r: Result<(), ServiceError>)
    ensures r.Ok? <==> current != Owner
    ensures r.Err? ==> r.error.kind == Validation && r.error.message == message
    requires message != ""
  {
    if current == Owner then Err(NewServiceError(Validation, Some(message), map[])) else Ok(())
  }

  const RemoveOwnerMessage := "Нельзя удалить владельца из проекта"
  const LeaveOwnerMessage := "Владелец не может покинуть проект"

  function RemoveEffects(p: Id, u: Id, projectName: string): seq<Effect>
  {
    [InvalidateMembership(p, u), Enqueue(RemovedFromProjectEmail(u, projectName))]
  }

  /** The removed user is told the project's name, read before the delete. */
  method RemoveMember(db: Db, p: Id, u: Id) returns (r: Result<(), ServiceError>)
    requires db.Valid() && (p, u) in db.members
    modifies db`members, db`pending
    ensures db.Valid()
    ensures r == RemoveCheck(old(db.members)[(p, u)], RemoveOwnerMessage)
    ensures r.Err? ==> db.members == old(db.members) && db.pending == old(db.pending)
    ensures r.Ok? ==> db.members == old(db.members) - {(p, u)}
    ensures r.Ok? ==> db.pending == old(db.pending) + RemoveEffects(p, u, old(db.projects)[p].name)
  {
    if db.members[(p, u)] == Owner {
      return Err(NewServiceError(Validation, Some(RemoveOwnerMessage), map[]));
    }
    var projectName := db.projects[p].name;
    db.members := db.members - {(p, u)};
    db.pending := db.pending + [InvalidateMembership(p, u), Enqueue(RemovedFromProjectEmail(u, projectName))];
    r := Ok(());
  }

  /** `leave_project` reads the membership first (NotFound for a
      non-member), refuses the owner, and queues no email. */
  method LeaveProject(db: Db, p: Id, u: Id) returns (r: Result<(), ServiceError>)
    requires db.Valid() && p in db.projects && u in db.users
    modifies db`members, db`pending
    ensures db.Valid()
    ensures !StoreExistsMember(old(db.members), p, u) ==> r.Err? && r.error.kind == NotFound
    ensures StoreExistsMember(old(db.members), p, u) ==> r == RemoveCheck(old(db.members)[(p, u)], LeaveOwnerMessage)
    ensures r.Err? ==> db.members == old(db.members) && db.pending == old(db.pending)
    ensures r.Ok? ==> db.members == old(db.members) - {(p, u)}
    ensures r.Ok? ==> db.pending == old(db.pending) + [InvalidateMembership(p, u)]
  {
    var membership := GetMember(db.members, p, u);
    if membership.Err? {
      return Err(membership.error);
    }
    if membership.value == Owner {
      return Err(NewServiceError(Validation, Some(LeaveOwnerMessage), map[]));
    }
    db.members := db.members - {(p, u)};
    db.pending := db.pending + [InvalidateMembership(p, u)];
    r := Ok(());
  }

  // ----------------------------------------------- the outbox, committed

  /** Every membership service drops the pair's three keys; add and remove
      queue one email, an unchanged role and leaving queue none. */
  lemma MemberEffectsRules(p: Id, u: Id, role: Role, oldRole: Role, projectName: string)
    ensures MembershipKeys(p, u) <= AllKeysOf(AddMemberEffects(p, u, role))
    ensures MembershipKeys(p, u) <= AllKeysOf(UpdateRoleEffects(p, u, oldRole, role))
    ensures MembershipKeys(p, u) <= AllKeysOf(RemoveEffects(p, u, projectName))
    ensures MembershipKeys(p, u) <= AllKeysOf([InvalidateMembership(p, u)])
    ensures JobsOf(AddMemberEffects(p, u, role)) == [ProjectInvitationEmail(u, p, role)]
    ensures JobsOf(RemoveEffects(p, u, projectName)) == [RemovedFromProjectEmail(u, projectName)]
    ensures JobsOf(UpdateRoleEffects(p, u, oldRole, role)) == (if oldRole != role then [RoleChangedEmail(u, p, role)] else [])
    ensures JobsOf([InvalidateMembership(p, u)]) == []
  {
    var drop := InvalidateMembership(p, u);
    OneEffect(drop);
    TwoEffects(drop, Enqueue(ProjectInvitationEmail(u, p, role)));
    TwoEffects(drop, Enqueue(RemovedFromProjectEmail(u, projectName)));
    if oldRole != role {
      TwoEffects(drop, Enqueue(RoleChangedEmail(u, p, role)));
      assert UpdateRoleEffects(p, u, oldRole, role) == [drop, Enqueue(RoleChangedEmail(u, p, role))];
    } else {
      assert UpdateRoleEffects(p, u, oldRole, role) == [drop];
    }
  }

  lemma OneEffect(x: Effect)
    ensures AllKeysOf([x]) == KeysOf(x)
    ensures JobsOf([x]) == if x.Enqueue? then [x.job] else []
  {
    assert [x][..0] == [];
  }

  lemma TwoEffects(x: Effect, y: Effect)
    ensures AllKeysOf([x, y]) == KeysOf(x) + KeysOf(y)
    ensures JobsOf([x, y]) == JobsOf([x]) + (if y.Enqueue? then [y.job] else [])
  {
    assert [x, y][..1] == [x];
    OneEffect(x);
  }

  /** A membership row written at one pair: once callbacks that drop the
      pair's keys have run, the cache agrees with the tables again. */
  lemma MembershipWriteRestoresCoherence(e: map<string, CachedValue>, projects: map<Id, Project>,
                                         members: map<(Id, Id), Role>, next: Id,
                                         members2: map<(Id, Id), Role>, p: Id, u: Id, effs: seq<Effect>)
    requires Coherent(e, projects, members, next)
    requires forall q: Id, v: Id :: (q, v) != (p, u) ==> StoreRole(members2, q, v) == StoreRole(members, q, v)
    requires MembershipKeys(p, u) <= AllKeysOf(effs)
    ensures Coherent(ApplyEffects(e, effs), projects, members2, next)
  {
    ApplyEffectsDeletes(e, effs);
    CoherentAfterChange(e, projects, members, next, ApplyEffects(e, effs), projects, members2, next, {}, {(p, u)});
  }

  /** Once an added member's transaction commits, the cached selectors
      report the new membership and role. */
  lemma AddMemberCommitted(e: map<string, CachedValue>, projects: map<Id, Project>,
                           members: map<(Id, Id), Role>, next: Id, p: Id, u: Id, role: Role)
    requires Coherent(e, projects, members, next)
    ensures var members2 := members[(p, u) := role];
      Coherent(ApplyEffects(e, AddMemberEffects(p, u, role)), projects, members2, next)
      && StoreExistsMember(members2, p, u) && StoreRole(members2, p, u) == Some(role)
  {
    MemberEffectsRules(p, u, role, role, "");
    MembershipWriteRestoresCoherence(e, projects, members, next, members[(p, u) := role], p, u, AddMemberEffects(p, u, role));
  }
}
