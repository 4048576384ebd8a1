/** The project-level permission classes (apps/projects/api/permissions.py),
    read against the membership table: with a coherent cache the selectors
    they call give exactly these answers (ProjectSelectors). */
module ProjectPermissions {
  import opened Base
  import opened Models
  import opened Exceptions
  import opened ProjectSelectors

  /** `IsProjectMember.has_object_permission`. */
  predicate IsProjectMember(members: map<(Id, Id), Role>, p: Id, u: Id)
  {
    StoreExistsMember(members, p, u)
  }

  /** `IsProjectAdminOrOwner.has_object_permission`. */
  predicate IsProjectAdminOrOwner(members: map<(Id, Id), Role>, p: Id, u: Id)
  {
    StoreIsAdminOrOwner(members, p, u)
  }

  /** `IsProjectOwner.has_object_permission`: the role is exactly owner. */
  predicate IsProjectOwner(members: map<(Id, Id), Role>, p: Id, u: Id)
  {
    StoreRole(members, p, u) == Some(Owner)
  }

  /** The three classes form a chain, and it is strict: an admin passes the
      middle one but not the owner check. */
  lemma PermissionChain(members: map<(Id, Id), Role>, p: Id, u: Id)
    ensures IsProjectOwner(members, p, u) ==> IsProjectAdminOrOwner(members, p, u)
    ensures IsProjectAdminOrOwner(members, p, u) ==> IsProjectMember(members, p, u)
    ensures StoreRole(members, p, u) == Some(Admin) ==>
      IsProjectAdminOrOwner(members, p, u) && !IsProjectOwner(members, p, u)
    ensures StoreRole(members, p, u) in {Some(Member), Some(Viewer)} ==>
      IsProjectMember(members, p, u) && !IsProjectAdminOrOwner(members, p, u)
  {
  }

  /** `view.kwargs.get("project_pk")` is truthy: given, and not 0. */
  predicate PkGiven(pk: Option<nat>)
  {
    pk.Some? && pk.value != 0
  }

  /** Which roles may create tasks and comments. */
  predicate Contributes(r: Option<Role>)
  {
    r == Some(Owner) || r == Some(Admin) || r == Some(Member)
  }

  /** The view-level check shared by every "can view" class: no project
      in the URL denies, an unknown project raises NotFound, otherwise the
      answer is membership. */
  function ViewCheck(projects: map<Id, Project>, members: map<(Id, Id), Role>, pk: Option<nat>, u: Id): (r: Result<bool, ServiceError>)
    ensures !PkGiven(pk) ==> r == Ok(false)
    ensures PkGiven(pk) && pk.value !in projects ==> r.Err? && r.error.kind == NotFound
    ensures PkGiven(pk) && pk.value in projects ==> r == Ok(IsProjectMember(members, pk.value, u))
  {
    if !PkGiven(pk) then Ok(false)
    else
      match StoreGetById(projects, pk.value)
      case Err(e) => Err(e)
      case Ok(_) => Ok(StoreExistsMember(members, pk.value, u))
  }

  /** The view-level check of the "can create" classes: the role read for
      the project must be owner, admin or member. */
  function CreateCheck(projects: map<Id, Project>, members: map<(Id, Id), Role>, pk: Option<nat>, u: Id): (r: Result<bool, ServiceError>)
    ensures !PkGiven(pk) ==> r == Ok(false)
    ensures PkGiven(pk) && pk.value !in projects ==> r.Err? && r.error.kind == NotFound
    ensures PkGiven(pk) && pk.value in projects ==> r == Ok(Contributes(StoreRole(members, pk.value, u)))
  {
    if !PkGiven(pk) then Ok(false)
    else
      match StoreGetById(projects, pk.value)
      case Err(e) => Err(e)
      case Ok(_) =>
        var role := StoreRole(members, pk.value, u);
        if role.None? then Ok(false)
        else Ok(role.value == Owner || role.value == Admin || role.value == Member)
  }

  /** The view-level check of the "can manage" classes: admin or owner. */
  function ManageCheck(projects: map<Id, Project>, members: map<(Id, Id), Role>, pk: Option<nat>, u: Id): (r: Result<bool, ServiceError>)
    ensures !PkGiven(pk) ==> r == Ok(false)
    ensures PkGiven(pk) && pk.value !in projects ==> r.Err? && r.error.kind == NotFound
    ensures PkGiven(pk) && pk.value in projects ==> r == Ok(IsProjectAdminOrOwner(members, pk.value, u))
  {
    if !PkGiven(pk) then Ok(false)
    else
      match StoreGetById(projects, pk.value)
      case Err(e) => Err(e)
      case Ok(_) => Ok(StoreIsAdminOrOwner(members, pk.value, u))
  }

  /** Managing implies creating implies viewing, at the view level; viewers
      view but create nothing, and non-members see nothing. */
  lemma ViewLevelChain(projects: map<Id, Project>, members: map<(Id, Id), Role>, pk: Option<nat>, u: Id)
    ensures ManageCheck(projects, members, pk, u) == Ok(true) ==> CreateCheck(projects, members, pk, u) == Ok(true)
    ensures CreateCheck(projects, members, pk, u) == Ok(true) ==> ViewCheck(projects, members, pk, u) == Ok(true)
    ensures PkGiven(pk) && pk.value in projects && StoreRole(members, pk.value, u) == Some(Viewer) ==>
      ViewCheck(projects, members, pk, u) == Ok(true) && CreateCheck(projects, members, pk, u) == Ok(false)
    ensures PkGiven(pk) && pk.value in projects && StoreRole(members, pk.value, u).None? ==>
      ViewCheck(projects, members, pk, u) == Ok(false) && CreateCheck(projects, members, pk, u) == Ok(false)
  {
  }
}

/** Task permissions (apps/tasks/api/permissions.py). */
module TaskPermissions {
  import opened Base
  import opened Models
  import opened Exceptions
  import opened ProjectSelectors
  import opened ProjectPermissions

  /** `CanViewTask` is the shared view check. */
  function CanViewTask(projects: map<Id, Project>, members: map<(Id, Id), Role>, pk: Option<nat>, u: Id): Result<bool, ServiceError>
  {
    ViewCheck(projects, members, pk, u)
  }

  /** `CanCreateTask` is the shared create check. */
  function CanCreateTask(projects: map<Id, Project>, members: map<(Id, Id), Role>, pk: Option<nat>, u: Id): Result<bool, ServiceError>
  {
    CreateCheck(projects, members, pk, u)
  }

  /** `CanEditTask.has_object_permission`: creator, assignee, or admin/owner. */
  predicate CanEditTask(members: map<(Id, Id), Role>, t: Task, u: Id)
  {
    t.creatorId == u || t.assigneeId == Some(u) || StoreIsAdminOrOwner(members, t.projectId, u)
  }

  /** `CanDeleteTask.has_object_permission`: creator or admin/owner. */
  predicate CanDeleteTask(members: map<(Id, Id), Role>, t: Task, u: Id)
  {
    t.creatorId == u || StoreIsAdminOrOwner(members, t.projectId, u)
  }

  /** Whoever may delete a task may edit it. */
  lemma DeleteImpliesEdit(members: map<(Id, Id), Role>, t: Task, u: Id)
    ensures CanDeleteTask(members, t, u) ==> CanEditTask(members, t, u)
  {
  }

  /** The two differ exactly by the assignee: an assignee who is neither
      the creator nor an admin/owner may edit but not delete. */
  lemma AssigneeEditsButCannotDelete(members: map<(Id, Id), Role>, t: Task, u: Id)
    requires t.assigneeId == Some(u) && t.creatorId != u && !StoreIsAdminOrOwner(members, t.projectId, u)
    ensures CanEditTask(members, t, u) && !CanDeleteTask(members, t, u)
  {
  }

  /** Member and viewer roles give no edit or delete right of their own. */
  lemma PlainMembersNeedAuthorship(members: map<(Id, Id), Role>, t: Task, u: Id)
    requires StoreRole(members, t.projectId, u) in {Some(Member), Some(Viewer), None}
    ensures CanEditTask(members, t, u) <==> (t.creatorId == u || t.assigneeId == Some(u))
    ensures CanDeleteTask(members, t, u) <==> t.creatorId == u
  {
  }
}

/** Comment permissions (apps/comments/api/permissions.py). */
module CommentPermissions {
  import opened Base
  import opened Models
  import opened Exceptions
  import opened ProjectSelectors
  import opened ProjectPermissions

  /** `CanViewComment` is the shared view check. */
  function CanViewComment(projects: map<Id, Project>, members: map<(Id, Id), Role>, pk: Option<nat>, u: Id): Result<bool, ServiceError>
  {
    ViewCheck(projects, members, pk, u)
  }

  /** `CanCreateComment` is the shared create check. */
  function CanCreateComment(projects: map<Id, Project>, members: map<(Id, Id), Role>, pk: Option<nat>, u: Id): Result<bool, ServiceError>
  {
    CreateCheck(projects, members, pk, u)
  }

  /** Only the author edits, whatever their role. */
  predicate CanEditComment(c: Comment, u: Id)
  {
    c.authorId == u
  }

  /** The author, or an admin/owner of the project of the comment's task. */
  predicate CanDeleteComment(members: map<(Id, Id), Role>, c: Comment, taskProject: Id, u: Id)
  {
    c.authorId == u || StoreIsAdminOrOwner(members, taskProject, u)
  }

  lemma EditImpliesDelete(members: map<(Id, Id), Role>, c: Comment, taskProject: Id, u: Id)
    ensures CanEditComment(c, u) ==> CanDeleteComment(members, c, taskProject, u)
  {
  }

  /** An admin or owner who did not write the comment may delete it and may
      not edit it; a plain member may do neither. */
  lemma RolesOnOthersComments(members: map<(Id, Id), Role>, c: Comment, taskProject: Id, u: Id)
    requires c.authorId != u
    ensures !CanEditComment(c, u)
    ensures CanDeleteComment(members, c, taskProject, u) <==>
      StoreRole(members, taskProject, u) in {Some(Owner), Some(Admin)}
  {
  }
}

/** Tag permissions (apps/tags/api/permissions.py). */
module TagPermissions {
  import opened Base
  import opened Models
  import opened Exceptions
  import opened ProjectSelectors
  import opened ProjectPermissions

  /** `CanViewTag` is the shared view check. */
  function CanViewTag(projects: map<Id, Project>, members: map<(Id, Id), Role>, pk: Option<nat>, u: Id): Result<bool, ServiceError>
  {
    ViewCheck(projects, members, pk, u)
  }

  /** `CanManageTag.has_permission`. */
  function CanManageTag(projects: map<Id, Project>, members: map<(Id, Id), Role>, pk: Option<nat>, u: Id): Result<bool, ServiceError>
  {
    ManageCheck(projects, members, pk, u)
  }

  /** `CanManageTag.has_object_permission`: admin/owner of the tag's project. */
  predicate CanManageTagObject(members: map<(Id, Id), Role>, t: Tag, u: Id)
  {
    StoreIsAdminOrOwner(members, t.projectId, u)
  }

  /** Manage implies view; members and viewers view but do not manage, at
      the view level and on any tag of the project. */
  lemma ManageImpliesView(projects: map<Id, Project>, members: map<(Id, Id), Role>, pk: Option<nat>, u: Id, t: Tag)
    ensures CanManageTag(projects, members, pk, u) == Ok(true) ==> CanViewTag(projects, members, pk, u) == Ok(true)
    ensures PkGiven(pk) && pk.value in projects && StoreRole(members, pk.value, u) in {Some(Member), Some(Viewer)} ==>
      CanViewTag(projects, members, pk, u) == Ok(true) && CanManageTag(projects, members, pk, u) == Ok(false)
    ensures StoreRole(members, t.projectId, u) in {Some(Member), Some(Viewer)} ==> !CanManageTagObject(members, t, u)
  {
  }
}
