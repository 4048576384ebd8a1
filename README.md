# taskflow core, modelled in Dafny

This project models the service core of taskflow, a Django backend for
projects, tasks, tags and comments. The model covers:

- the task lifecycle: creation after the project's last position,
  partial updates, status changes, (re)assignment, and reordering by a
  half-open range shift;
- the membership authority: the single owner, the read-through cache of
  project and membership answers, the `CACHE_NONE_SENTINEL`, and
  invalidation by key deletion;
- the permission classes of projects, tasks, comments and tags;
- tags, with names unique up to case per project, and `set_task_tags`;
- comments, with the notification rules when a job is scheduled and
  again when it runs;
- email verification and password-reset tokens, with an integer clock;
- the real-time path: token extraction in the websocket middleware, the
  consumer's connection gate, the group sender, the event envelopes and
  the ten broadcast jobs;
- the service exceptions and their HTTP mapping;
- the input serializers, down to the field rules of Django REST
  framework that they rely on.

The database is one object, `Store.Db`:

- Each table is a map from primary key to row.
- Memberships are keyed by the pair (project, user).
- An autoincrement counter hands out primary keys.
- `pending` is the outbox of the open transaction. Each
  `transaction.on_commit` callback is one `Effect`: queue a job, or
  delete cache keys.
- `Db.Commit` runs the effects in order. A service that raises has
  changed nothing, so rollback is the state before the call.

The cache is the class `Cache.CacheStore` over a
`map<string, CachedValue>`. `ProjectSelectors.Coherent` states what it
means for the cache to agree with the tables. The coherence lemmas show
that each service's commit callbacks restore that agreement.

Service methods change the database in place, and their contracts tie
the new state to specification functions of the old one. Pure code
becomes functions: selectors, permissions, serializers, envelopes and
decisions. The lemmas beside each service state what the source
promises about it.

Files:

- base.dfy: Option, Result, ids, decimal strings, `str.lower`,
  `str.strip`, `str.split`.
- models.dfy: the rows and choice enumerations, plus the computing model
  methods.
- exceptions.dfy, json.dfy, cache.dfy.
- store.dfy: the outbox and the database.
- project_selectors.dfy, permissions.dfy, task_selectors.dfy,
  task_services.dfy, project_services.dfy.
- tags.dfy: tag selectors and services.
- comments.dfy: comment services and notification jobs.
- users.dfy: tokens and account services.
- middleware.dfy.
- realtime.dfy: events, channel layer, broadcast jobs, consumer.
- serializers.dfy.

## Model

| member | source | states |
|---|---|---|
| Base.NatToString | core/cache.py:10-13 | `str(n)` of an id is a non-empty string of decimal digits |
| Base.NatToStringRoundTrip | core/cache.py:10-13 | reading the digits of `str(n)` back gives `n` |
| Base.NatToStringInjective | core/cache.py:10-13 | distinct ids print as distinct strings |
| Base.Lower | apps/users/services.py:20 | `lower()` keeps the length and lowers each character |
| Base.LowerIdempotent | apps/users/services.py:20 | lowering twice is lowering once |
| Base.StripShape | apps/users/models.py:35-36 | `strip()` yields a string with no white space at either end; it is empty only when the input is all white space |
| Base.Split | core/middleware.py:20 | `split(c)` yields at least one piece, and no piece contains `c` |
| Base.SplitJoin | core/middleware.py:20 | joining the pieces of `split(c)` with `c` gives back the original string |
| Base.SplitCount | core/middleware.py:20 | `split(c)` yields one more piece than there are occurrences of `c` |
| Models.ParseRole | apps/projects/models.py:43-47 | a stored role value is read as the role that has it; any other string reads as no role |
| Models.RoleRoundTrip | apps/projects/models.py:43-47 | every role reads back as itself |
| Models.ParseStatus | apps/tasks/models.py:9-13 | status values are read exactly, in both directions |
| Models.ParsePriority | apps/tasks/models.py:15-19 | priority values are read exactly, in both directions |
| Models.ChoicesRoundTrip | apps/tasks/models.py:9-19 | every status and priority reads back as itself |
| Models.FullNameShape | apps/users/models.py:35-36 | `get_full_name` is at most first + 1 + last characters long, with no white space at either end |
| Models.FullNameOfTrimmedParts | apps/users/models.py:35-36 | for non-empty parts with no outer white space, the full name is "first last" |
| Models.ExpiryBoundary | apps/users/models.py:61-66 | a token is still good at its expiry instant and expired one tick later; the lifetimes are 24 hours and 1 hour |
| Models.ResetValidity | apps/users/models.py:95-101 | a used reset token is never valid; an unused one is valid exactly until it expires |
| Exceptions.DefaultMessage | core/exceptions.py:1-23 | every class has a non-empty default message |
| Exceptions.NewServiceError | core/exceptions.py:4-7 | a non-empty message is kept verbatim; a missing or empty one becomes the class default; `extra` is the keyword arguments |
| Exceptions.MessageNeverEmpty | core/exceptions.py:4-7 | a constructed error never has an empty message |
| Exceptions.DefaultMessagesDistinct | core/exceptions.py:2-23 | the five default messages differ pairwise |
| Exceptions.SubclassesDeriveFromBase | core/exceptions.py:10-23 | every kind is a BaseServiceError, and an instance of no subclass but its own |
| ExceptionHandler.StatusFor | core/exception_handler.py:20-29 | the chosen status is a 4xx code |
| ExceptionHandler.CustomExceptionHandler | core/exception_handler.py:14-40 | DRF's response wins; a non-service exception gives None; a service error gives its status and a body keyed by error, message and the extra keys |
| ExceptionHandler.StatusTable | core/exception_handler.py:20-29 | NotFound 404, PermissionDenied 403, Validation 400, Conflict 409, the base class 400 |
| ExceptionHandler.BodyMerge | core/exception_handler.py:33-40 | an extra key overrides `error` and `message`; otherwise they are the class name and the message |
| Json.Get | apps/websocket/consumers.py:48 | `data.get(key)` is the value, or None when the key is missing |
| Cache.SentinelIsNotARole | core/cache.py:16 | the sentinel string is not the value of any role and parses as no role |
| Cache.MembershipKeysDistinct | core/cache.py:23-29 | the three keys of a pair are three different strings |
| Cache.FormatInjective | core/cache.py:9-13 | distinct (family, project, user) triples format to distinct keys |
| Cache.MembershipInvalidationExact | core/cache.py:23-29 | exactly the pair's three keys are deleted; every other entry keeps its value |
| Cache.MembershipInvalidationIsLocal | core/cache.py:23-29 | a cached key of another pair, or of a project, survives |
| Cache.InvalidationIdempotent | core/cache.py:19-29 | invalidating twice equals invalidating once, for both kinds |
| Cache.ProjectInvalidationIsLocal | core/cache.py:19-20 | project invalidation deletes only `projects:by_id:{id}` |
| Cache.UsersKeysCoverListed | core/cache.py:32-35 | each listed user's three keys are among the keys dropped |
| Cache.UsersKeysOnlyListed | core/cache.py:32-35 | every dropped membership key belongs to a listed user |
| Cache.InvalidateAllStep | core/cache.py:32-35 | invalidating one more user's keys is the same as listing one more user |
| Cache.CacheStore.constructor | core/cache.py:1 | a fresh cache holds no entry |
| Cache.CacheStore.Get | apps/projects/selectors.py:17 | a hit returns the entry; a miss returns None |
| Cache.CacheStore.Set | apps/projects/selectors.py:26 | the entry under the key is replaced, and nothing else changes |
| Cache.CacheStore.Delete | core/cache.py:20 | the key is gone, and nothing else changes |
| Cache.CacheStore.DeleteMany | core/cache.py:29 | exactly the given keys are gone |
| Cache.InvalidateProjectCache | core/cache.py:19-20 | the new entries are the old ones without the project key |
| Cache.InvalidateMembershipCache | core/cache.py:23-29 | the new entries are the old ones without the pair's three keys |
| Cache.InvalidateAllProjectCaches | core/cache.py:32-35 | the new entries are the old ones without the project key and every listed user's keys |
| Outbox.Enqueues | apps/tasks/services.py:46-55 | one queued-job effect per job, in order |
| Outbox.ApplyEffectsDeletes | core/cache.py:19-35 | committing never writes the cache; it deletes exactly the keys the effects name |
| Outbox.JobsOfAppend | apps/comments/services.py:30-47 | the jobs of two runs of callbacks are the two job lists, one after the other |
| Outbox.EnqueuesQueueJobs | apps/tasks/services.py:46-55 | job-only callbacks queue exactly their jobs, in order, and delete no key |
| Outbox.JobsOnlyKeepCache | apps/tasks/services.py:134-146 | a run of queued jobs leaves the cache alone and queues one job per callback |
| Store.Db.constructor | apps/projects/models.py:7-83 | an empty database satisfies every table invariant |
| Store.Db.FreshId | apps/tasks/services.py:31-40 | the autoincrement hands out a key no table holds, and the counter moves past it |
| Store.Db.Commit | apps/tasks/services.py:46-55 | the callbacks run in order: jobs are appended to the queue, the cache is the effects applied in order, and the outbox is empty afterwards |
| ProjectSelectors.SelectorsConsistent | apps/projects/selectors.py:79-128 | read from the tables: a role exists iff the user is a member; admin-or-owner implies member; admin-or-owner iff the role is owner or admin |
| ProjectSelectors.StoreGetById | apps/projects/selectors.py:15-27 | the table's answer: the row iff the project exists, otherwise NotFound |
| ProjectSelectors.GetMember | apps/projects/selectors.py:69-76 | the membership row iff it exists, otherwise NotFound |
| ProjectSelectors.RoleCacheRoundTrip | apps/projects/selectors.py:79-91 | a cached "no role" reads back as None and a cached role as itself; the sentinel is never returned |
| ProjectSelectors.CoherentIsWellTyped | apps/projects/selectors.py:15-128 | a coherent cache holds values of the right kind under each key family |
| ProjectSelectors.EmptyCacheCoherent | apps/projects/selectors.py:15-128 | an empty cache agrees with any tables |
| ProjectSelectors.CoherentAfterChange | apps/projects/selectors.py:15-128 | when the tables change only at some projects and pairs, and their cached keys are gone, the cache agrees with the new tables |
| ProjectSelectors.CoherentUnderOtherWrites | apps/projects/selectors.py:15-128 | writes to other tables do not disturb coherence |
| ProjectSelectors.GetById | apps/projects/selectors.py:15-27 | a hit is returned without reading the table; a miss reads the row and caches it; an absent project raises NotFound and caches nothing; coherence is kept and the answer is the table's |
| ProjectSelectors.GetMemberRole | apps/projects/selectors.py:79-91 | a hit decodes the sentinel to None; a miss caches the role or the sentinel; the project id need not name a stored project; with a coherent cache the answer is the table's role, and an answer about a handed-out id keeps the cache coherent |
| ProjectSelectors.ExistsMember | apps/projects/selectors.py:100-112 | true and false are both cached, and a cached false is returned without reading the table; the project id need not name a stored project; with a coherent cache the answer is the table's, and an answer about a handed-out id keeps the cache coherent |
| ProjectSelectors.IsAdminOrOwner | apps/projects/selectors.py:115-128 | cached like `exists_member`, on any project id; with a coherent cache it is true iff the role is owner or admin, and an answer about a handed-out id keeps the cache coherent |
| ProjectSelectors.SetKeepsTyping | apps/projects/selectors.py:23-27 | filling a key with a value of its family's kind keeps the cache well typed |
| ProjectSelectors.SetKeepsCoherent | apps/projects/selectors.py:23-27 | filling a key with the value the tables give keeps the cache coherent |
| ProjectSelectors.FilterForUser | apps/projects/selectors.py:55-58 | only stored projects are listed |
| ProjectSelectors.FilterForUserIsMembership | apps/projects/selectors.py:55-58 | a user lists exactly the projects they are a member of, owned ones included; every project's member list contains its owner |
| ProjectSelectors.GetProjectWithTaskStats | apps/projects/selectors.py:131-143 | the intended counters: the project's tasks, its completed, pending and in-progress tasks, and its distinct members, each counted once; NotFound iff the project is missing |
| ProjectSelectors.JoinFactor | apps/projects/selectors.py:135-141 | each task row is repeated once per membership row of the project, and once when there is none |
| ProjectSelectors.GetProjectWithTaskStatsAsWritten | apps/projects/selectors.py:131-143 | the query as written: NotFound iff the project is missing; otherwise each task counter counts joined rows, and only the member count is distinct |
| ProjectSelectors.AsWrittenStatsScale | apps/projects/selectors.py:135-141 | each counter as written is the intended one times the join factor; the two agree iff the project has at most one member or no task |
| ProjectSelectors.StatsCountTasksPerMember | apps/projects/selectors.py:135-141 | an owner, one more member and one pending task: the query as written reports two tasks, both pending, where there is one |
| ProjectSelectors.TaskStatsBounded | apps/projects/selectors.py:131-143 | completed + pending + in_progress never exceeds the total |
| ProjectSelectors.MembersCount | apps/projects/serializers.py:42-45 | the annotated count when present, otherwise the number of membership rows of the project |
| ProjectPermissions.PermissionChain | apps/projects/api/permissions.py:7-20 | Owner implies AdminOrOwner implies Member; an admin passes the middle check but not the owner check; members and viewers pass only the first |
| ProjectPermissions.ViewCheck | apps/tasks/api/permissions.py:8-13 | no project pk denies; an unknown project raises NotFound; otherwise the answer is membership |
| ProjectPermissions.CreateCheck | apps/tasks/api/permissions.py:17-29 | no project pk denies; an unknown project raises NotFound; otherwise true iff the role is owner, admin or member |
| ProjectPermissions.ManageCheck | apps/tags/api/permissions.py:16-21 | no project pk denies; an unknown project raises NotFound; otherwise true iff admin or owner |
| ProjectPermissions.ViewLevelChain | apps/tasks/api/permissions.py:7-29 | manage implies create implies view; a viewer views but does not create; a non-member does neither |
| TaskPermissions.DeleteImpliesEdit | apps/tasks/api/permissions.py:32-54 | whoever may delete a task may edit it |
| TaskPermissions.AssigneeEditsButCannotDelete | apps/tasks/api/permissions.py:32-54 | an assignee who is neither creator nor admin/owner may edit but not delete |
| TaskPermissions.PlainMembersNeedAuthorship | apps/tasks/api/permissions.py:32-54 | for a member, viewer or non-member: edit iff creator or assignee; delete iff creator |
| CommentPermissions.EditImpliesDelete | apps/comments/api/permissions.py:32-45 | whoever may edit a comment may delete it |
| CommentPermissions.RolesOnOthersComments | apps/comments/api/permissions.py:32-45 | nobody but the author edits; a non-author deletes iff owner or admin of the task's project |
| TagPermissions.ManageImpliesView | apps/tags/api/permissions.py:6-24 | manage implies view; members and viewers view but manage neither at the view level nor on any tag |
| TaskSelectors.GetById | apps/tasks/selectors.py:14-20 | the row iff it exists, otherwise NotFound |
| TaskSelectors.GetMaxPosition | apps/tasks/selectors.py:68-72 | 0 for a project without tasks; otherwise a position the project holds, and no task of the project is above it |
| TaskSelectors.MaxPositionIgnoresOtherProjects | apps/tasks/selectors.py:68-72 | rows of other projects do not affect the maximum |
| TaskSelectors.FilterByProjectWithFilters | apps/tasks/selectors.py:38-55 | only tasks of the given project are returned |
| TaskSelectors.NoFilterIsWholeProject | apps/tasks/selectors.py:44-49 | with no filter, or empty strings, the result is the whole project |
| TaskSelectors.FiltersAreConjunctive | apps/tasks/selectors.py:44-51 | all filters together select the intersection of what each one selects alone |
| TaskSelectors.ActiveFiltersAreExact | apps/tasks/selectors.py:46-51 | a returned task has the requested status, priority and assignee; an assignee id below 1 selects nothing |
| TaskServices.NewTaskPosition | apps/tasks/services.py:29-40 | a new task is pending with no tags and the given assignee; it lands strictly after every task of its project, at 1 in an empty project |
| TaskServices.CreateTaskOutbox | apps/tasks/services.py:42-55 | the created broadcast is queued last; the assigned email is queued exactly when there is an assignee, even when that is the creator; no cache key is touched |
| TaskServices.CreateTask | apps/tasks/services.py:18-57 | the task table gains exactly the new row under a fresh id; the outbox gains the assigned email, if any, then the broadcast |
| TaskServices.ApplyTaskUpdate | apps/tasks/services.py:73-91 | the project, creator, assignee, status, position and tags of the row never change |
| TaskServices.TaskUpdateLaws | apps/tasks/services.py:60-91 | no argument means no change; an explicit None deadline clears it; an update applied twice is applied once |
| TaskServices.UpdateTask | apps/tasks/services.py:63-101 | the row becomes the update applied; the broadcast is queued only when an acting user is given |
| TaskServices.CommentsWithoutTask | apps/tasks/services.py:109 | the cascade removes exactly the task's comments |
| TaskServices.DeleteTask | apps/tasks/services.py:104-116 | the row and its comments are gone; the broadcast carries the task and project ids read before the delete, and only with an acting user |
| TaskServices.StatusEmailRule | apps/tasks/services.py:121-146 | the status email, with old and new status, is queued iff the status changes and the task has an assignee; an unchanged status queues nothing |
| TaskServices.ChangeStatus | apps/tasks/services.py:119-148 | any status is stored, with no transition table; an unchanged status leaves the table as it was; the jobs are those of the rule |
| TaskServices.AssignBroadcast | apps/tasks/services.py:181-187 | at most one broadcast, and only broadcasts |
| TaskServices.AssignEmailRules | apps/tasks/services.py:153-187 | the exact jobs of each case: a reassignment mails the old assignee, then the new one, one email each; unassigning mails only the old one; assigning a task that had nobody mails only the new one; the broadcast, if any, follows; an unchanged assignee queues nothing |
| TaskServices.AssignTask | apps/tasks/services.py:151-189 | the assignee is stored; an unchanged one, None to None included, leaves the table as it was; the jobs are those of the rules |
| TaskServices.Reordered | apps/tasks/services.py:201-215 | the table keeps its keys, and the moved task ends at the new position |
| TaskServices.ReorderedRows | apps/tasks/services.py:201-215 | moving up shifts [new, old) of the same project by +1; moving down shifts (old, new] by -1; other projects and rows outside that range are untouched; only positions change |
| TaskServices.ReorderSamePosition | apps/tasks/services.py:196-197 | moving to the current position changes nothing |
| TaskServices.ReorderTask | apps/tasks/services.py:192-225 | the table becomes `Reordered`; the same position writes nothing and returns the task; the broadcast is queued only for a real move with an acting user |
| TaskServices.ReorderKeepsContiguous | apps/tasks/services.py:201-215 | when the project holds each position of lo..hi exactly once and the target is inside, it does so again afterwards |
| TaskServices.MoveLastToFirst | apps/tasks/services.py:201-206 | a worked instance of `ReorderedRows`: positions 1, 2, 3 with the third task moved to 1 become 2, 3, 1 |
| TaskServices.MoveFirstToLast | apps/tasks/services.py:207-212 | a worked instance of `ReorderedRows`: positions 1, 2, 3 with the first task moved to 3 become 3, 1, 2 |
| ProjectServices.ExactlyOneOwner | apps/projects/services.py:27-31 | under the owner rule, a project's only owner membership is its owner's |
| ProjectServices.MembersWithoutProject | apps/projects/services.py:68 | the cascade removes exactly the project's memberships |
| ProjectServices.CreateProject | apps/projects/services.py:19-33 | an active project under a fresh id, whose only membership is (owner, OWNER) |
| ProjectServices.CreateProjectKeepsCacheCoherent | apps/projects/services.py:19-33 | nothing about a fresh id is cached, so creation needs no invalidation |
| ProjectServices.Coherent3 | apps/projects/services.py:19-33 | a coherent cache holds no key about an id not yet handed out |
| ProjectServices.ApplyProjectUpdate | apps/projects/services.py:43-53 | only the fields given change; status and owner stay |
| ProjectServices.UpdateProject | apps/projects/services.py:36-58 | the row becomes the update; only the project key is invalidated, on commit |
| ProjectServices.ArchiveProject | apps/projects/services.py:78-86 | the status becomes archived; only the project key is invalidated, on commit |
| ProjectServices.ProjectWriteRestoresCoherence | apps/projects/services.py:55-56 | after a project row is rewritten, dropping its key restores coherence |
| ProjectServices.MemberUserIds | apps/projects/services.py:64-66 | the member ids captured before the delete, each once, are exactly the project's members |
| ProjectServices.TasksWithoutProject | apps/projects/services.py:68 | the cascade removes exactly the project's tasks |
| ProjectServices.TagsWithoutProject | apps/projects/services.py:68 | the cascade removes exactly the project's tags |
| ProjectServices.CommentsOfTasks | apps/projects/services.py:68 | exactly the comments whose task survives remain |
| ProjectServices.OwnerInvariantWithoutProject | apps/projects/services.py:61-75 | deleting a project with its memberships keeps the owner rule |
| ProjectServices.DeleteProject | apps/projects/services.py:61-75 | the project goes with its memberships, tasks, comments and tags; one commit callback drops the project key and every captured member's keys |
| ProjectServices.UsersKeysCover | apps/projects/services.py:70-73 | the keys of every captured member are among those dropped |
| ProjectServices.DeleteProjectCallback | apps/projects/services.py:70-73 | the callback's effect on the cache is the project key and the captured members' keys removed |
| ProjectServices.DeleteProjectRestoresCoherence | apps/projects/services.py:61-75 | after the delete commits, the cache agrees with the tables |
| ProjectServices.AddMemberCheck | apps/projects/services.py:96-100 | an existing member is a Conflict before an owner role is a Validation error; otherwise the role is accepted |
| ProjectServices.AddMember | apps/projects/services.py:89-118 | the decision is the check, asked through the cached selector; on success exactly one membership is added and the pair's keys plus an invitation are registered; on error nothing changes |
| ProjectServices.UpdateRoleCheck | apps/projects/services.py:123-127 | an owner membership, or a target role of owner, is refused with Validation |
| ProjectServices.UpdateMemberRole | apps/projects/services.py:121-144 | on success the role is stored and the effects of the role change are registered; on error nothing changes |
| ProjectServices.RemoveCheck | apps/projects/services.py:149-150 | the owner is refused with Validation and the given message |
| ProjectServices.RemoveMember | apps/projects/services.py:147-162 | the owner is refused; otherwise the membership is deleted, and the key drop plus an email carrying the project name are registered |
| ProjectServices.LeaveProject | apps/projects/services.py:165-177 | a non-member gets NotFound; the owner is refused; otherwise the membership goes and only the key drop is registered |
| ProjectServices.MemberEffectsRules | apps/projects/services.py:112-177 | every membership service drops the pair's keys; add and remove queue one email; a role change queues one only when the role differs; leave queues none |
| ProjectServices.MembershipWriteRestoresCoherence | apps/projects/services.py:112-177 | once the pair's keys are dropped, a write at one pair leaves the cache coherent |
| ProjectServices.AddMemberCommitted | apps/projects/services.py:102-116 | after an added member commits, the cache is coherent and reports the new membership and role |
| TagSelectors.GetById | apps/tags/selectors.py:9-13 | the row iff it exists, otherwise NotFound |
| TagSelectors.FilterByProject | apps/tags/selectors.py:23-24 | exactly the tags of the project |
| TagSelectors.FilterByIds | apps/tags/selectors.py:27-28 | exactly the stored tags whose id is listed, no more of them than ids |
| TagSelectors.ExistsTagNameRules | apps/tags/selectors.py:31-35 | true iff a tag of the project has the name up to case; None and 0 exclude nothing; excluding a tag hides exactly that tag |
| TagServices.CreateTag | apps/tags/services.py:12-27 | a clash up to case in the project is a Conflict, and creation succeeds otherwise; the colour defaults to #6B7280; name uniqueness is preserved |
| TagServices.UpdateTag | apps/tags/services.py:30-50 | the clash check ignores the tag itself; only the fields given change; uniqueness is preserved |
| TagServices.DetachTag | apps/tags/services.py:53-55 | deleting a tag removes it from every task's tag set and nothing else |
| TagServices.DeleteTag | apps/tags/services.py:53-55 | the row is gone and detached from every task; uniqueness is preserved |
| TagServices.MinOf | apps/tags/services.py:67-69 | the least element of a non-empty set of ids |
| TagServices.TagsToSet | apps/tags/services.py:58-78 | the empty list clears; success iff every id names a tag of the task's project, and then the set is the list's set; otherwise Validation with the missing ids, or the foreign-tag message |
| TagServices.IdSet | apps/tags/services.py:63 | `set(tag_ids)`: the listed ids, each once |
| TagServices.MissingIds | apps/tags/services.py:66-69 | empty iff every listed id names a tag |
| TagServices.TagsToSetLaws | apps/tags/services.py:60-78 | the empty list clears; repetitions and order in the list make no difference |
| TagServices.FoundCount | apps/tags/services.py:64-66 | the found tags are as many as the distinct ids iff every id is known |
| TagServices.SetTaskTags | apps/tags/services.py:58-85 | on an error nothing changes; otherwise the task's tags are replaced by the decided set, and the broadcast is queued only with an acting user |
| CommentServices.CreateCommentRules | apps/comments/services.py:30-47 | the assignee and creator notifications are queued exactly under their conditions; the broadcast comes last; the author is never notified and nobody twice; nothing when author = creator = assignee |
| CommentServices.CreateComment | apps/comments/services.py:13-49 | a new unedited comment under a fresh id; the outbox gains the jobs of the rules |
| CommentServices.EditComment | apps/comments/services.py:59-61 | the task and author of an edited comment stay |
| CommentServices.EditCommentLaws | apps/comments/services.py:59-61 | an edit sets the content and the edited flag; the last edit wins; repeating an edit changes nothing |
| CommentServices.UpdateComment | apps/comments/services.py:52-71 | the row becomes the edit; the broadcast is queued only with an acting user |
| CommentServices.DeleteComment | apps/comments/services.py:74-89 | the row is gone; the broadcast carries the comment, task and project ids read before, and only with an acting user |
| CommentJobs.NotifyAssignee | apps/comments/tasks.py:13-36 | sends iff the rows exist and the task has an assignee other than the author, and then to that assignee |
| CommentJobs.NotifyCreator | apps/comments/tasks.py:39-65 | sends iff the rows exist and the creator is neither the author nor the assignee, and then to the creator |
| CommentJobs.GuardsAgreeWithScheduling | apps/comments/tasks.py:30-60 | on the same task state, each job sends exactly when `create_comment` scheduled it, and to the same recipient |
| CommentJobs.StaleJobsSendNothing | apps/comments/tasks.py:19-54 | a missing comment, task or author sends nothing; the two jobs never send to the same user |
| UserTokens.DropVerificationTokensOf | apps/users/models.py:59 | exactly the user's verification tokens are deleted |
| UserTokens.NewVerificationTokenReplaces | apps/users/models.py:57-62 | afterwards the user holds exactly the new token, which expires 24 hours later; other users' tokens are untouched |
| UserTokens.CreateVerificationToken | apps/users/models.py:57-62 | the table becomes the old one with the user's tokens replaced by the new one |
| UserTokens.MarkResetTokensUsed | apps/users/models.py:90 | all of the user's reset tokens are marked used and kept; others are untouched |
| UserTokens.NewResetTokenIsOnlyUnused | apps/users/models.py:88-93 | the new token is the user's only unused one and valid for exactly an hour; other users' tokens are untouched |
| UserTokens.CreateResetToken | apps/users/models.py:88-93 | the table becomes the old one with the user's tokens spent and the new one added |
| UserServices.JoinMessages | apps/users/services.py:27-28 | a single validator message is the whole text |
| UserServices.RegisterCheck | apps/users/services.py:20-28 | the lowered email clashing is a Conflict, checked before the password; success iff no clash and no password errors |
| UserServices.RegisterIsCaseInsensitive | apps/users/services.py:20-22 | emails differing only in case clash |
| UserServices.RegisterUser | apps/users/services.py:12-41 | on error nothing changes; on success an unverified user with the lowered email, exactly one verification token, and one email queued |
| UserServices.VerifyCheck | apps/users/services.py:44-61 | an unknown token is NotFound; an expired one is Validation, checked before already-verified; otherwise the token's user |
| UserServices.VerifyEmail | apps/users/services.py:44-61 | on success the user is verified and the token deleted; on error nothing changes |
| UserServices.VerifyIsSingleUse | apps/users/services.py:57-61 | after a success the same token is unknown at any later instant |
| UserServices.ExpiryIsCheckedFirst | apps/users/services.py:50-55 | an expired token is reported as expired even for a verified user |
| UserServices.ResendVerificationEmail | apps/users/services.py:64-71 | a verified user is refused; otherwise the token is replaced and one email is queued |
| UserServices.ApplyProfileUpdate | apps/users/services.py:84-109 | email, password and flags never change |
| UserServices.ProfileUpdateLaws | apps/users/services.py:84-109 | no argument, no change; an empty string is written; an update applied twice is applied once |
| UserServices.UpdateProfile | apps/users/services.py:74-109 | the row becomes the update and nothing else changes |
| UserServices.ChangePasswordCheck | apps/users/services.py:119-125 | a wrong current password is refused before the new one is validated |
| UserServices.ChangePassword | apps/users/services.py:112-130 | on error nothing changes; on success only the password changes |
| UserServices.OldPasswordStopsWorking | apps/users/services.py:112-130 | after a change the old password fails the check and the new one passes |
| UserServices.RequestPasswordReset | apps/users/services.py:133-147 | an unknown or inactive email changes nothing and queues nothing; otherwise a new token is issued and one email queued |
| UserServices.ResetCheck | apps/users/services.py:154-166 | an unknown token is NotFound; a used or expired one is Validation; then the validators; otherwise the token's user |
| UserServices.ResetPassword | apps/users/services.py:150-170 | on success the password is changed and the token marked used; on error nothing changes |
| UserServices.ResetIsSingleUse | apps/users/services.py:154-170 | replaying a used token is refused with any password at any instant; a newer request spends every older token |
| Middleware.PieceWithoutEqualsIgnored | core/middleware.py:20 | a segment without `=` never changes the outcome |
| Middleware.LastTokenWins | core/middleware.py:18-21 | a later `token=` segment overrides everything before it |
| Middleware.OtherKeysIgnored | core/middleware.py:18-21 | a well-formed segment with another key changes nothing |
| Middleware.ManyEqualsRaises | core/middleware.py:20 | a segment with two or more `=` raises ValueError, wherever it stands |
| Middleware.UserFromToken | core/middleware.py:23-52 | a missing, empty or undecodable token, or a missing or inactive user, gives AnonymousUser; otherwise the active user the claim names |
| Middleware.ValidTokenAuthenticates | core/middleware.py:23-52 | a token decoding to an active user authenticates exactly that user |
| Middleware.Scope.constructor | core/middleware.py:12-16 | a new scope keeps its query string and has no user set yet |
| Middleware.Call | core/middleware.py:12-16 | the inner application is reached iff the query string parses, and then `scope['user']` has been set; a ValueError leaves the scope as it was |
| Events.EventValueInjective | core/event_types.py:4-17 | the ten event names differ pairwise |
| Events.EntityEnvelope | apps/websocket/serializers.py:8-23 | exactly the keys event_type, timestamp, user and data, with event_type echoing the argument |
| Events.TaskDeletedEnvelope | apps/websocket/serializers.py:26-35 | event_type "task.deleted", data exactly {id, project_id} |
| Events.CommentDeletedEnvelope | apps/websocket/serializers.py:38-47 | event_type "comment.deleted", data exactly {id, task_id} with no project id |
| Events.DeletedEnvelopesAreEnvelopes | apps/websocket/serializers.py:8-47 | the deletion envelopes are the common envelope with their ids as data |
| ChannelLayer.GroupName | core/websocket.py:14-15 | the group name is "project_" followed by the id |
| ChannelLayer.GroupNameInjective | core/websocket.py:14-15 | distinct projects have distinct groups |
| ChannelLayer.Layer.constructor | core/websocket.py:18-25 | a fresh layer has sent nothing |
| ChannelLayer.SendToProjectGroup | core/websocket.py:18-43 | true iff the transport delivers, and then one `broadcast_event` message with the event type and data is logged to the project's group; on failure nothing is sent and it returns false |
| BroadcastJobs.StaleJobsSkip | apps/websocket/tasks.py:21-161 | a missing user, task or comment sends nothing; the deletion jobs depend on the user alone |
| BroadcastJobs.LiveJobsSendOnce | apps/websocket/tasks.py:21-161 | otherwise one send goes to the entity's project, under the job's event name, with an envelope carrying that name |
| BroadcastJobs.JobsMatchEvents | apps/websocket/tasks.py:21-161 | jobs and event types correspond one to one |
| BroadcastJobs.RunBroadcast | apps/websocket/tasks.py:21-161 | sent iff the plan sends and the transport delivers; the log then gains exactly that group message |
| Consumers.ConnectGate | apps/websocket/consumers.py:13-37 | 4001 exactly for anonymous users, 4003 exactly for signed-in non-members; a member joins the project's group before being accepted; every connection is accepted |
| Consumers.CachedAnswerUnderCoherence | apps/websocket/consumers.py:63-85 | with a cache that agrees with the tables, the answer read through the cache is membership read from the tables |
| Consumers.CheckProjectMembership | apps/websocket/consumers.py:63-85 | on any well-typed cache, the answer read through it: a cached or stored project, a stored user, then the cached or stored membership flag, and never an error; with a coherent cache it stays coherent and the answer is the tables' |
| Consumers.ProjectConsumer.constructor | apps/websocket/consumers.py:13-16 | a new consumer has no project, no group name and no recorded actions |
| Consumers.ProjectConsumer.Connect | apps/websocket/consumers.py:13-37 | on any well-typed cache: the group name is recorded for every signed-in user before the check; the actions are those of the gate for the answer read through the cache, and for the tables' answer when the cache is coherent |
| Consumers.ProjectConsumer.Disconnect | apps/websocket/consumers.py:39-43 | the group is discarded iff a name was recorded |
| Consumers.ProjectConsumer.Receive | apps/websocket/consumers.py:45-51 | only the reply `PingReply` gives is added |
| Consumers.ProjectConsumer.BroadcastEvent | apps/websocket/consumers.py:53-61 | exactly one message is sent to the client, built from the group message |
| Consumers.PingReply | apps/websocket/consumers.py:45-51 | exactly one pong iff the frame is an object whose type is "ping"; otherwise, invalid JSON included, nothing |
| Consumers.ClientMessage | apps/websocket/consumers.py:53-61 | the client gets exactly {type, data} from the group message |
| Consumers.SendReachesClient | core/websocket.py:24-30 | a group message reaches the client as exactly the event name and data it was sent with |
| Fields.Raw | apps/tasks/api/serializers.py:56-77 | the raw value is present exactly when the key is in the body |
| Fields.EmptyValues | apps/tasks/api/serializers.py:58-77 | a key that is absent or null is settled without touching the value; any other value goes on to validation |
| Fields.StripIdempotent | apps/tasks/api/serializers.py:57 | stripping twice is stripping once |
| Fields.CharChecks | apps/tasks/api/serializers.py:57 | the validators pass iff the length is within bounds and there is no null character |
| Fields.CharText | apps/tasks/api/serializers.py:57-60 | an accepted text is stripped, blank only when blanks are allowed, and passes every validator |
| Fields.CharData | apps/tasks/api/serializers.py:57-60 | the same for a string or number sent as the value |
| Fields.CharField | apps/tasks/api/serializers.py:57-60 | a missing key is `required`, the default or skipped; null is refused; an accepted value is stripped and within bounds |
| Fields.CharFieldAccepts | apps/tasks/api/serializers.py:57 | a string whose stripped text is within bounds is accepted as that text |
| Fields.IntegerField | apps/tasks/api/serializers.py:72-77 | absent and null follow the field's options; an accepted number respects `min_value`; a number sent as a number is itself or `min_value` |
| Fields.ParseIntStr | apps/tasks/api/serializers.py:72-77 | `int()` reads the decimal string of a number back as that number |
| Fields.ReadIntStr | apps/tasks/api/serializers.py:72-77 | reading the decimal string of a number gives the number, or `max_string_length` past 1000 characters |
| Fields.IntStringRoundTrip | apps/tasks/api/serializers.py:72-77 | a number sent as its decimal string reads the same as the number, unless the string exceeds 1000 characters |
| Fields.ChoiceData | apps/tasks/api/serializers.py:61-65 | the choice whose value equals `str(data)`, otherwise `invalid_choice` |
| Fields.ChoiceField | apps/tasks/api/serializers.py:61-65 | absent and null follow the field's options; a present value is looked up |
| Fields.DateTimeField | apps/tasks/api/serializers.py:66-71 | absent and null follow the field's options; a string is parsed, or `invalid` |
| Fields.Items | apps/tasks/api/serializers.py:113 | all items read, one id per item; or the failures listed by exactly the failing indices |
| Fields.TagIdsField | apps/tags/serializers.py:65-70 | required; a non-list is `not_a_list`; more than 20 items are refused; an accepted list has at most 20 ids, each the value its item reads as |
| Fields.IdListAccepted | apps/tags/serializers.py:65-70 | every list of at most 20 positive ids, the empty list included, is accepted as itself |
| Fields.ErrorOf | apps/tasks/api/serializers.py:56-77 | a failing field contributes exactly its error under its name |
| Fields.Opt | apps/tasks/api/serializers.py:80-92 | a skipped field reads as absent, a value as present |
| TaskSerializers.TaskCreate | apps/tasks/api/serializers.py:56-77 | accepted iff none of the five fields fails; otherwise the error dictionary is not empty |
| TaskSerializers.TaskCreateAccepted | apps/tasks/api/serializers.py:56-77 | an accepted title is stripped and 1 to 255 characters; description, priority, deadline and assignee default to "", medium, None and None |
| TaskSerializers.TitleRequired | apps/tasks/api/serializers.py:57 | without a title the body is refused with `required` |
| TaskSerializers.TitleOnlyCreates | apps/tasks/api/serializers.py:56-77 | a body with only a valid title is accepted with every default |
| TaskSerializers.TaskUpdate | apps/tasks/api/serializers.py:80-92 | accepted iff none of the four fields fails |
| TaskSerializers.TaskUpdateAccepted | apps/tasks/api/serializers.py:80-92 | exactly the fields sent come out; a null deadline clears it; a new title is 1 to 255 characters |
| TaskSerializers.EmptyUpdateChangesNothing | apps/tasks/api/serializers.py:80-92 | an empty body is a valid update that changes nothing |
| TaskSerializers.TaskStatusInput | apps/tasks/api/serializers.py:95-98 | accepted iff the value is one of the four status values, and read as that status |
| TaskSerializers.StatusValuesAccepted | apps/tasks/api/serializers.py:95-98 | each status is accepted by its value |
| TaskSerializers.TaskAssign | apps/tasks/api/serializers.py:101-104 | the key is required; null is accepted and means unassign; a number is taken as the id |
| TaskSerializers.TaskReorder | apps/tasks/api/serializers.py:107-108 | required; an integer is accepted iff it is at least 0 |
| TaskSerializers.UndeclaredKeysIgnored | apps/tasks/api/serializers.py:107-108 | keys the serializer does not declare do not matter |
| TaskSerializers.TaskSetTags | apps/tasks/api/serializers.py:111-117 | accepted iff the `tag_ids` field is; then at most 20 ids |
| ProjectSerializers.MemberRoleChoice | apps/projects/serializers.py:74-79 | only admin, member and viewer are choices; owner never is |
| ProjectSerializers.MemberCreate | apps/projects/serializers.py:72-81 | accepted iff user id and role pass; an accepted role is never owner; errors only under those two keys |
| ProjectSerializers.MemberCreateRules | apps/projects/serializers.py:72-81 | the role defaults to member; the user id is required and at least 1; "owner" is `invalid_choice` |
| ProjectSerializers.MemberUpdate | apps/projects/serializers.py:84-91 | the role is required; an accepted one is not owner and is the role whose value was sent |
| ProjectSerializers.MemberRolesAccepted | apps/projects/serializers.py:72-91 | each of the three roles is accepted by its value on both serializers |
| ProjectSerializers.ProjectFields | apps/projects/serializers.py:48-55 | accepted iff the name and the description pass |
| ProjectSerializers.ProjectFieldsAccepted | apps/projects/serializers.py:48-55 | on create both fields come out, the description "" by default; on update exactly the fields sent; a name is 1 to 255 characters |
| ProjectSerializers.ProjectNameRequired | apps/projects/serializers.py:49 | on create a missing name is `required` |
| TagSerializers.DefaultColorIsValid | apps/tags/serializers.py:36-38 | the default colour matches the colour format |
| TagSerializers.ColorField | apps/tags/serializers.py:36-40 | a missing colour takes the default or is skipped; an accepted sent colour matches `^#[0-9A-Fa-f]{6}$` |
| TagSerializers.ColorKeptAsSent | apps/tags/serializers.py:36-40 | a colour in the format is kept as sent, in either case |
| TagSerializers.TagNameField | apps/tags/serializers.py:35-46 | an accepted name is stripped and 1 to 50 characters |
| TagSerializers.ValidateNameNeverRejects | apps/tags/serializers.py:42-46 | the empty-name check of `validate_name` can never fire |
| TagSerializers.TagInputOf | apps/tags/serializers.py:34-62 | the validated data from the two fields; otherwise a non-empty error dictionary containing the name's error |
| TagSerializers.TagFields | apps/tags/serializers.py:34-62 | accepted iff the name and the colour pass |
| TagSerializers.AcceptedNameIsValid | apps/tags/serializers.py:35-46 | an accepted name is stripped and 1 to 50 characters |
| TagSerializers.AcceptedColorIsValid | apps/tags/serializers.py:36-55 | an accepted colour, sent or defaulted, is in the format |
| TagSerializers.TagCreateFields | apps/tags/serializers.py:34-40 | on create both fields come out, the colour #6B7280 when none is sent |
| TagSerializers.TagUpdateFields | apps/tags/serializers.py:49-55 | on update exactly the fields sent come out |
| TagSerializers.TagNameRequired | apps/tags/serializers.py:35 | on create a missing name is `required` |

## Left out

- HTTP views, URL routing, admin, settings and API documentation do
  nothing but call the services.
- Concurrency:
  - `select_for_update` and transaction isolation are not modelled;
  - so is the race where two `create_task` calls both read the same
    maximum;
  - every service call runs alone, from start to rollback or commit.
- Foreign calls become parameters:
  - **JWT decoding.** The claims table of the tokens that decode.
  - **Password validation.** The list of messages `validate_password`
    raises.
  - **Hashing.** A password is kept as the value `check_password`
    compares.
  - **`secrets.token_urlsafe`.** A token string that no row holds.
  - **`timezone.now`.** An integer clock.
  - **The channel transport.** Whether `group_send` goes through.
  - **`json.loads`.** Its result.
  - **Row rendering for envelopes.** The rendering functions.
  - **The envelope timestamp.** A string.
  - **ISO 8601 parsing in `DateTimeField`.** A function parameter.
- `created_at`, `updated_at`, `joined_at` and `update_fields` are not
  modelled. Only the column values a service writes are.
- Cache TTLs (`CacheTTL`) are not modelled: entries never expire on their
  own. Eviction would be one more deletion, and deletions are covered by
  the coherence lemmas.
- Query ordering (`ordering`, `order_by`) is not modelled. Selectors
  return sets of ids.
- TagServices.TagsToSet: the missing-ids message lists the ids in
  ascending order. CPython prints a set in the order of its hash-table
  slots, which is not ascending once ids collide modulo the table size
  (`str({1, 8})` is `'{8, 1}'`). For such ids the model's message differs
  from the source's.
- `Base.Lower` lowers only A-Z and the Russian capitals, including Ё.
  `Base.IsSpace` covers only the ASCII white space. Full Unicode case
  mapping and white space are not modelled.
- `AddMember` requires a coherent cache. Its contract says nothing about
  a cache that disagrees with the tables.
- The tag services take tag ids already checked by the serializer. The
  list-to-id step assumes an accepted `tag_ids`.
- Fields.IntegerField: only an optional sign and ASCII digits, with
  surrounding white space, are read as a number. DRF first strips a
  trailing decimal zero part (`re_decimal`), so "1.0" is 1 there; the model
  answers `invalid`. Floats, underscores and other Unicode digits are not
  modelled either.
- Fields.ErrorOf: an error is kept as DRF's error code (`required`,
  `invalid`, `max_length`, ...), not as its rendered message text.
- Django REST framework:
  - a non-object request body is not modelled;
  - `partial=True` is not modelled;
  - the views' use of the validated data is not modelled.
- Output-only serializers are not modelled:
  - the list and detail serializers, except `get_members_count`;
  - apps/users/api/serializers.py.
- The email jobs only log:
  - apps/users/tasks.py;
  - apps/projects/tasks.py;
  - apps/tasks/tasks.py;
  - the sending step of apps/comments/tasks.py.

  They appear as queued jobs.
- Logging is not modelled.
- `create_user` in the user manager is not part of this model.
  `RegisterUser` writes the row that call inserts.
- JWT freshness and expiry are inside the decoding oracle.
- The text form of JSON is not modelled. Messages are JSON values.

## Findings

| source | as written | input that shows it | evidently intended | confidence | as-written member | corrected member |
|---|---|---|---|---|---|---|
| apps/projects/selectors.py:135-141 | `Count('tasks')` and the three filtered task counts sit beside `Count('members', distinct=True)` in one `annotate`, so both reverse relations are joined and each task count is multiplied by the number of membership rows | a project with its owner, one more member and one pending task: `total_tasks` and `pending_tasks` are 2 | each counter counts tasks once (`distinct=True`, or subqueries) | not executed | ProjectSelectors.GetProjectWithTaskStatsAsWritten (exhibited by ProjectSelectors.StatsCountTasksPerMember and ProjectSelectors.AsWrittenStatsScale) | ProjectSelectors.GetProjectWithTaskStats (ProjectSelectors.TaskStatsBounded) |

## Notes

- `validate_name` in both tag serializers can never reject, because two
  earlier steps settle every case:
  - DRF's `CharField` strips the value before `validate_name` runs, with
    `trim_whitespace` on by default.
  - It also refuses a value that is blank after stripping.

  `TagSerializers.ValidateNameNeverRejects` proves that the empty-name
  message is never produced. The check is dead code, not a bug.
