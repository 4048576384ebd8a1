/** The deferred side effects of a transaction: every `transaction.on_commit`
    callback of the services becomes one `Effect`, kept in order. */
module Outbox {
  import opened Base
  import opened Models
  import opened Cache

  /** The real-time fan-out jobs of apps/websocket/tasks.py, with the ids they
      are called with. */
  datatype BroadcastJob =
    | TaskCreated(task: Id, user: Id)
    | TaskUpdated(task: Id, user: Id)
    | TaskDeleted(task: Id, project: Id, user: Id)
    | TaskStatusChanged(task: Id, user: Id)
    | TaskAssigned(task: Id, user: Id)
    | TaskReordered(task: Id, user: Id)
    | TaskTagsChanged(task: Id, user: Id)
    | CommentCreated(comment: Id, user: Id)
    | CommentUpdated(comment: Id, user: Id)
    | CommentDeleted(comment: Id, task: Id, project: Id, user: Id)

  /** A background job handed to the worker queue (`.delay(...)`). */
  datatype Job =
    | TaskAssignedEmail(user: Id, task: Id, project: Id)
    | TaskUnassignedEmail(user: Id, taskTitle: string, projectName: string)
    | TaskStatusChangedEmail(user: Id, task: Id, oldStatus: TaskStatus, newStatus: TaskStatus)
    | CommentToAssignee(comment: Id, task: Id, author: Id)
    | CommentToCreator(comment: Id, task: Id, author: Id)
    | ProjectInvitationEmail(user: Id, project: Id, role: Role)
    | RoleChangedEmail(user: Id, project: Id, role: Role)
    | RemovedFromProjectEmail(user: Id, projectName: string)
    | VerificationEmail(user: Id)
    | PasswordResetEmail(user: Id)
    | Broadcast(event: BroadcastJob)

  /** One commit callback: queue a job, or drop cache keys (core/cache.py). */
  datatype Effect =
    | Enqueue(job: Job)
    | InvalidateProject(project: Id)
    | InvalidateMembership(project: Id, user: Id)
    | InvalidateAll(project: Id, users: seq<Id>)

  /** One `on_commit(lambda: job.delay(...))` per job, in order. */
  function Enqueues(jobs: seq<Job>): (effs: seq<Effect>)
    ensures |effs| == |jobs|
    ensures forall i :: 0 <= i < |jobs| ==> effs[i] == Enqueue(jobs[i])
  {
    seq(|jobs|, i requires 0 <= i < |jobs| => Enqueue(jobs[i]))
  }

  /** The jobs a run of effects queues, in order. */
  function JobsOf(effects: seq<Effect>): seq<Job>
    decreases |effects|
  {
    if effects == [] then []
    else
      var last := effects[|effects| - 1];
      JobsOf(effects[..|effects| - 1]) + (if last.Enqueue? then [last.job] else [])
  }

  /** The cache keys one effect deletes. */
  function KeysOf(eff: Effect): set<string>
  {
    match eff
    case Enqueue(_) => {}
    case InvalidateProject(p) => {ProjectKey(p)}
    case InvalidateMembership(p, u) => MembershipKeys(p, u)
    case InvalidateAll(p, users) => {ProjectKey(p)} + UsersKeys(p, users)
  }

  /** The cache keys a run of effects deletes. */
  function AllKeysOf(effects: seq<Effect>): set<string>
    decreases |effects|
  {
    if effects == [] then {} else AllKeysOf(effects[..|effects| - 1]) + KeysOf(effects[|effects| - 1])
  }

  /** The cache after one effect. */
  function ApplyEffect(e: map<string, CachedValue>, eff: Effect): map<string, CachedValue>
  {
    match eff
    case Enqueue(_) => e
    case InvalidateProject(p) => WithoutProject(e, p)
    case InvalidateMembership(p, u) => WithoutMembership(e, p, u)
    case InvalidateAll(p, users) => e - ({ProjectKey(p)} + UsersKeys(p, users))
  }

  /** The cache after a run of effects, applied first to last. */
  function ApplyEffects(e: map<string, CachedValue>, effects: seq<Effect>): map<string, CachedValue>
    decreases |effects|
  {
    if effects == [] then e else ApplyEffect(ApplyEffects(e, effects[..|effects| - 1]), effects[|effects| - 1])
  }

  /** Committing never writes the cache: it only deletes, and exactly the
      keys the effects name. */
  lemma {:induction false} ApplyEffectsDeletes(e: map<string, CachedValue>, effects: seq<Effect>)
    ensures ApplyEffects(e, effects) == e - AllKeysOf(effects)
    decreases |effects|
  {
    if effects != [] {
      ApplyEffectsDeletes(e, effects[..|effects| - 1]);
    }
  }

  /** Queued jobs of two consecutive runs are the two lists one after the other. */
  lemma {:induction false} JobsOfAppend(a: seq<Effect>, b: seq<Effect>)
    ensures JobsOf(a + b) == JobsOf(a) + JobsOf(b)
    decreases |b|
  {
    if b != [] {
      var ab := a + b;
      assert ab[..|ab| - 1] == a + b[..|b| - 1];
      JobsOfAppend(a, b[..|b| - 1]);
    } else {
      assert a + b == a;
    }
  }

  /** Callbacks that only queue jobs queue exactly those jobs, in order,
      and delete no cache key. */
  lemma {:induction false} EnqueuesQueueJobs(jobs: seq<Job>)
    ensures JobsOf(Enqueues(jobs)) == jobs
    ensures AllKeysOf(Enqueues(jobs)) == {}
    decreases |jobs|
  {
    if jobs != [] {
      var n := |jobs|;
      assert Enqueues(jobs)[..n - 1] == Enqueues(jobs[..n - 1]);
      EnqueuesQueueJobs(jobs[..n - 1]);
      assert jobs[..n - 1] + [jobs[n - 1]] == jobs;
    }
  }

  /** A run made only of queued jobs leaves the cache alone. */
  lemma {:induction false} JobsOnlyKeepCache(effects: seq<Effect>)
    requires forall i :: 0 <= i < |effects| ==> effects[i].Enqueue?
    ensures AllKeysOf(effects) == {}
    ensures |JobsOf(effects)| == |effects|
    decreases |effects|
  {
    if effects != [] {
      JobsOnlyKeepCache(effects[..|effects| - 1]);
    }
  }
}

/** The database as one object: a map per table, the autoincrement counter,
    the callbacks of the open transaction and the worker queue. */
module Store {
  import opened Base
  import opened Models
  import opened Cache
  import opened Outbox

  /** Each project has exactly one OWNER membership, held by `owner`. */
  ghost predicate OwnerInvariant(projects: map<Id, Project>, members: map<(Id, Id), Role>)
  {
    (forall p :: p in projects ==> (p, projects[p].ownerId) in members && members[(p, projects[p].ownerId)] == Owner)
    && (forall p, u :: (p, u) in members ==> p in projects)
    && (forall p, u :: (p, u) in members && members[(p, u)] == Owner ==> u == projects[p].ownerId)
  }

  /** `unique=True` on `User.email`. */
  ghost predicate EmailsUnique(users: map<Id, User>)
  {
    forall a, b :: a in users && b in users && users[a].email == users[b].email ==> a == b
  }

  class Db {
    var users: map<Id, User>
    var projects: map<Id, Project>
    /** `ProjectMember` rows, keyed by (project, user): the pair is unique. */
    var members: map<(Id, Id), Role>
    var tasks: map<Id, Task>
    var tags: map<Id, Tag>
    var comments: map<Id, Comment>
    var verificationTokens: map<string, VerificationToken>
    var resetTokens: map<string, ResetToken>
    /** The next primary key the database hands out. */
    var nextId: Id
    /** `on_commit` callbacks registered by the open transaction. */
    var pending: seq<Effect>
    /** Jobs handed to the worker queue by committed transactions. */
    var queue: seq<Job>

    /** Every stored id is below the counter. */
    ghost predicate IdsBelowNext()
      reads this
    {
      (forall k :: k in users ==> k < nextId)
      && (forall k :: k in projects ==> k < nextId)
      && (forall k :: k in tasks ==> k < nextId)
      && (forall k :: k in tags ==> k < nextId)
      && (forall k :: k in comments ==> k < nextId)
    }

    /** Every token belongs to a stored user (tokens cascade with users). */
    ghost predicate TokensOwned()
      reads this
    {
      (forall t :: t in verificationTokens ==> verificationTokens[t].userId in users)
      && (forall t :: t in resetTokens ==> resetTokens[t].userId in users)
    }

    ghost predicate Valid()
      reads this
    {
      IdsBelowNext() && TokensOwned() && OwnerInvariant(projects, members) && EmailsUnique(users)
    }

    constructor ()
      ensures Valid()
      ensures users == map[] && projects == map[] && members == map[] && tasks == map[]
      ensures tags == map[] && comments == map[]
      ensures verificationTokens == map[] && resetTokens == map[]
      ensures pending == [] && queue == []
    {
      users, projects, members, tasks := map[], map[], map[], map[];
      tags, comments := map[], map[];
      verificationTokens, resetTokens := map[], map[];
      nextId := 1;
      pending, queue := [], [];
    }

    /** The autoincrement: a key no table holds yet. */
    method FreshId() returns (id: Id)
      requires IdsBelowNext()
      modifies this`nextId
      ensures id == old(nextId) && nextId == id + 1
      ensures id !in users && id !in projects && id !in tasks && id !in tags && id !in comments
      ensures IdsBelowNext()
    {
      id := nextId;
      nextId := nextId + 1;
    }

    /** The end of an `atomic` block that succeeded: the callbacks run in the
        order they were registered; a job goes to the queue, an invalidation
        to the cache. */
    method Commit(cache: CacheStore)
      modifies this`pending, this`queue, cache
      ensures queue == old(queue) + JobsOf(old(pending))
      ensures cache.entries == ApplyEffects(old(cache.entries), old(pending))
      ensures pending == []
    {
      var i := 0;
      while i < |pending|
        invariant 0 <= i <= |pending| && pending == old(pending)
        invariant queue == old(queue) + JobsOf(pending[..i])
        invariant cache.entries == ApplyEffects(old(cache.entries), pending[..i])
      {
        var eff := pending[i];
        ghost var before := cache.entries;
        assert pending[..i + 1][..i] == pending[..i];
        assert JobsOf(pending[..i + 1]) == JobsOf(pending[..i]) + (if eff.Enqueue? then [eff.job] else []);
        assert ApplyEffects(old(cache.entries), pending[..i + 1]) == ApplyEffect(before, eff);
        match eff {
          case Enqueue(j) =>
            queue := queue + [j];
          case InvalidateProject(p) =>
            InvalidateProjectCache(cache, p);
          case InvalidateMembership(p, u) =>
            InvalidateMembershipCache(cache, p, u);
          case InvalidateAll(p, us) =>
            InvalidateAllProjectCaches(cache, p, us);
        }
        i := i + 1;
      }
      assert pending[..i] == pending;
      pending := [];
    }
  }
}
