/** The event names of core/event_types.py and the envelopes of
    apps/websocket/serializers.py. The clock reading and the rendered rows
    (`UserListSerializer`, `TaskDetailSerializer`,
    `CommentDetailSerializer`) are given as values. */
module Events {
  import opened Base
  import opened Json

  datatype EventType =
    | TaskCreatedEvent | TaskUpdatedEvent | TaskDeletedEvent | TaskStatusChangedEvent
    | TaskAssignedEvent | TaskReorderedEvent | TaskTagsChangedEvent
    | CommentCreatedEvent | CommentUpdatedEvent | CommentDeletedEvent

  /** The enum values `TaskEvents.X` and `CommentEvents.X`. */
  function EventValue(e: EventType): string
  {
    match e
    case TaskCreatedEvent => "task.created"
    case TaskUpdatedEvent => "task.updated"
    case TaskDeletedEvent => "task.deleted"
    case TaskStatusChangedEvent => "task.status_changed"
    case TaskAssignedEvent => "task.assigned"
    case TaskReorderedEvent => "task.reordered"
    case TaskTagsChangedEvent => "task.tags_changed"
    case CommentCreatedEvent => "comment.created"
    case CommentUpdatedEvent => "comment.updated"
    case CommentDeletedEvent => "comment.deleted"
  }

  /** Distinct members have distinct values, so a client can tell every
      event apart by its name. */
  lemma EventValueInjective(a: EventType, b: EventType)
    ensures EventValue(a) == EventValue(b) ==> a == b
  {
  }

  /** `serialize_task_event` and `serialize_comment_event`: the same four
      keys, with `event_type` echoing the argument. */
  function EntityEnvelope(eventType: string, timestamp: string, user: Json, data: Json): (r: Json)
    ensures r.JObject? && r.fields.Keys == {"event_type", "timestamp", "user", "data"}
    ensures r.fields["event_type"] == JStr(eventType) && r.fields["data"] == data && r.fields["user"] == user
  {
    JObject(map["event_type" := JStr(eventType), "timestamp" := JStr(timestamp), "user" := user, "data" := data])
  }

  /** `serialize_task_deleted_event`: the row is gone, so the data is just
      the two ids. */
  function TaskDeletedEnvelope(t: Id, p: Id, timestamp: string, user: Json): (r: Json)
    ensures r.JObject? && r.fields.Keys == {"event_type", "timestamp", "user", "data"}
    ensures r.fields["event_type"] == JStr(EventValue(TaskDeletedEvent))
    ensures r.fields["data"] == JObject(map["id" := JInt(t), "project_id" := JInt(p)])
  {
    JObject(map["event_type" := JStr("task.deleted"), "timestamp" := JStr(timestamp), "user" := user,
                "data" := JObject(map["id" := JInt(t), "project_id" := JInt(p)])])
  }

  /** `serialize_comment_deleted_event`: the comment and task ids, and no
      project id. */
  function CommentDeletedEnvelope(c: Id, t: Id, timestamp: string, user: Json): (r: Json)
    ensures r.JObject? && r.fields.Keys == {"event_type", "timestamp", "user", "data"}
    ensures r.fields["event_type"] == JStr(EventValue(CommentDeletedEvent))
    ensures r.fields["data"].JObject? && r.fields["data"].fields.Keys == {"id", "task_id"}
    ensures r.fields["data"].fields["id"] == JInt(c) && r.fields["data"].fields["task_id"] == JInt(t)
  {
    JObject(map["event_type" := JStr("comment.deleted"), "timestamp" := JStr(timestamp), "user" := user,
                "data" := JObject(map["id" := JInt(c), "task_id" := JInt(t)])])
  }

  /** The deletion envelopes have the shape of every other envelope, with
      their ids in place of the rendered row. */
  lemma DeletedEnvelopesAreEnvelopes(t: Id, p: Id, c: Id, timestamp: string, user: Json)
    ensures TaskDeletedEnvelope(t, p, timestamp, user)
         == EntityEnvelope(EventValue(TaskDeletedEvent), timestamp, user, JObject(map["id" := JInt(t), "project_id" := JInt(p)]))
    ensures CommentDeletedEnvelope(c, t, timestamp, user)
         == EntityEnvelope(EventValue(CommentDeletedEvent), timestamp, user, JObject(map["id" := JInt(c), "task_id" := JInt(t)]))
  {
  }
}

/** The channel layer seen from the sending side (core/websocket.py). The
    transport is a foreign call: whether `group_send` goes through is a
    parameter, and the layer keeps the log of what it was handed. */
module ChannelLayer {
  import opened Base
  import opened Json

  /** `get_project_group_name`. */
  function GroupName(p: nat): (g: string)
    ensures |g| > 8 && g[..8] == "project_"
  {
    "project_" + NatToString(p)
  }

  /** Different projects never share a group. */
  lemma GroupNameInjective(p: nat, q: nat)
    ensures GroupName(p) == GroupName(q) ==> p == q
  {
    if GroupName(p) == GroupName(q) {
      assert GroupName(p)[8..] == NatToString(p);
      assert GroupName(q)[8..] == NatToString(q);
      NatToStringInjective(p, q);
    }
  }

  /** The message `group_send` is handed; its `type` routes it to the
      consumer's `broadcast_event` handler. */
  datatype GroupMessage = GroupMessage(handler: string, eventType: string, data: Json)

  /** What became of the `group_send` call. */
  datatype Transport = Delivered | RedisDown | OtherFailure

  class Layer {
    /** Every group message handed over, with its group, in order. */
    var sent: seq<(string, GroupMessage)>

    constructor ()
      ensures sent == []
    {
      sent := [];
    }
  }

  /** `send_to_project_group`: True after a delivered send; False, and
      nothing sent, when Redis or anything else fails; never raises. */
  method SendToProjectGroup(layer: Layer, p: nat, eventType: string, data: Json, transport: Transport) returns (ok: bool)
    modifies layer
    ensures ok <==> transport == Delivered
    ensures ok ==> layer.sent == old(layer.sent) + [(GroupName(p), GroupMessage("broadcast_event", eventType, data))]
    ensures !ok ==> layer.sent == old(layer.sent)
  {
    var group := GroupName(p);
    match transport {
      case Delivered =>
        layer.sent := layer.sent + [(group, GroupMessage("broadcast_event", eventType, data))];
        ok := true;
      case RedisDown =>
        ok := false;
      case OtherFailure =>
        ok := false;
    }
  }
}

/** The broadcast jobs of apps/websocket/tasks.py. Each re-reads its rows
    and either skips (a row has gone) or sends one event to one project. */
module BroadcastJobs {
  import opened Base
  import opened Models
  import opened Json
  import opened Outbox
  import opened Events
  import opened ChannelLayer

  /** How rows are rendered for an envelope (the detail serializers). */
  datatype Renderers = Renderers(user: (Id, User) -> Json, task: (Id, Task) -> Json, comment: (Id, Comment) -> Json)

  /** One planned send: the project, the event name and the envelope. */
  datatype Send = Send(project: Id, eventType: string, data: Json)

  /** The event each job announces. */
  function EventOf(j: BroadcastJob): EventType
  {
    match j
    case TaskCreated(_, _) => TaskCreatedEvent
    case TaskUpdated(_, _) => TaskUpdatedEvent
    case TaskDeleted(_, _, _) => TaskDeletedEvent
    case TaskStatusChanged(_, _) => TaskStatusChangedEvent
    case TaskAssigned(_, _) => TaskAssignedEvent
    case TaskReordered(_, _) => TaskReorderedEvent
    case TaskTagsChanged(_, _) => TaskTagsChangedEvent
    case CommentCreated(_, _) => CommentCreatedEvent
    case CommentUpdated(_, _) => CommentUpdatedEvent
    case CommentDeleted(_, _, _, _) => CommentDeletedEvent
  }

  /** The task id of the six jobs that re-read a task. */
  predicate ReadsTask(j: BroadcastJob)
  {
    j.TaskCreated? || j.TaskUpdated? || j.TaskStatusChanged? || j.TaskAssigned? || j.TaskReordered? || j.TaskTagsChanged?
  }

  /** The user every job looks up. */
  function ActorOf(j: BroadcastJob): Id
  {
    match j
    case TaskCreated(_, u) => u
    case TaskUpdated(_, u) => u
    case TaskDeleted(_, _, u) => u
    case TaskStatusChanged(_, u) => u
    case TaskAssigned(_, u) => u
    case TaskReordered(_, u) => u
    case TaskTagsChanged(_, u) => u
    case CommentCreated(_, u) => u
    case CommentUpdated(_, u) => u
    case CommentDeleted(_, _, _, u) => u
  }

  /** What a job does on the rows as they are when it runs. A comment's
      task exists whenever the comment does (`on_delete=CASCADE`). */
  function Plan(j: BroadcastJob, tasks: map<Id, Task>, comments: map<Id, Comment>, users: map<Id, User>,
                timestamp: string, render: Renderers): (r: Option<Send>)
    requires forall c :: c in comments ==> comments[c].taskId in tasks
  {
    var u := ActorOf(j);
    if u !in users then None
    else
      var userJson := render.user(u, users[u]);
      var ev := EventValue(EventOf(j));
      match j
      case TaskDeleted(t, p, _) => Some(Send(p, ev, TaskDeletedEnvelope(t, p, timestamp, userJson)))
      case CommentDeleted(c, t, p, _) => Some(Send(p, ev, CommentDeletedEnvelope(c, t, timestamp, userJson)))
      case CommentCreated(c, _) =>
        if c !in comments then None
        else Some(Send(tasks[comments[c].taskId].projectId, ev, EntityEnvelope(ev, timestamp, userJson, render.comment(c, comments[c]))))
      case CommentUpdated(c, _) =>
        if c !in comments then None
        else Some(Send(tasks[comments[c].taskId].projectId, ev, EntityEnvelope(ev, timestamp, userJson, render.comment(c, comments[c]))))
      case _ =>
        var t := j.task;
        if t !in tasks then None
        else Some(Send(tasks[t].projectId, ev, EntityEnvelope(ev, timestamp, userJson, render.task(t, tasks[t]))))
  }

  /** A job whose acting user, task or comment has gone sends nothing; the
      deletion jobs depend on the user alone. */
  lemma StaleJobsSkip(j: BroadcastJob, tasks: map<Id, Task>, comments: map<Id, Comment>, users: map<Id, User>,
                      timestamp: string, render: Renderers)
    requires forall c :: c in comments ==> comments[c].taskId in tasks
    ensures ActorOf(j) !in users ==> Plan(j, tasks, comments, users, timestamp, render).None?
    ensures ReadsTask(j) && j.task !in tasks ==> Plan(j, tasks, comments, users, timestamp, render).None?
    ensures (j.CommentCreated? || j.CommentUpdated?) && j.comment !in comments ==> Plan(j, tasks, comments, users, timestamp, render).None?
    ensures j.TaskDeleted? || j.CommentDeleted? ==>
      (Plan(j, tasks, comments, users, timestamp, render).Some? <==> ActorOf(j) in users)
  {
  }

  /** Otherwise exactly one send goes out: to the task's project (the
      comment's task's project, or the id the deletion carried), under the
      job's own event name, with an envelope naming that same event. */
  lemma LiveJobsSendOnce(j: BroadcastJob, tasks: map<Id, Task>, comments: map<Id, Comment>, users: map<Id, User>,
                         timestamp: string, render: Renderers)
    requires forall c :: c in comments ==> comments[c].taskId in tasks
    requires ActorOf(j) in users
    requires ReadsTask(j) ==> j.task in tasks
    requires j.CommentCreated? || j.CommentUpdated? ==> j.comment in comments
    ensures var r := Plan(j, tasks, comments, users, timestamp, render);
      r.Some? && r.value.eventType == EventValue(EventOf(j))
      && r.value.data.JObject? && "event_type" in r.value.data.fields
      && r.value.data.fields["event_type"] == JStr(EventValue(EventOf(j)))
      && (ReadsTask(j) ==> r.value.project == tasks[j.task].projectId)
      && (j.CommentCreated? || j.CommentUpdated? ==> r.value.project == tasks[comments[j.comment].taskId].projectId)
      && (j.TaskDeleted? || j.CommentDeleted? ==> r.value.project == j.project)
  {
  }

  /** The ten jobs and the ten events correspond one to one. */
  lemma JobsMatchEvents(a: BroadcastJob, b: BroadcastJob, e: EventType)
    ensures EventValue(EventOf(a)) == EventValue(EventOf(b)) <==> EventOf(a) == EventOf(b)
    ensures exists j: BroadcastJob :: EventOf(j) == e
  {
    EventValueInjective(EventOf(a), EventOf(b));
    {
      var j: BroadcastJob := match e
        case TaskCreatedEvent => TaskCreated(1, 1)
        case TaskUpdatedEvent => TaskUpdated(1, 1)
        case TaskDeletedEvent => TaskDeleted(1, 1, 1)
        case TaskStatusChangedEvent => TaskStatusChanged(1, 1)
        case TaskAssignedEvent => TaskAssigned(1, 1)
        case TaskReorderedEvent => TaskReordered(1, 1)
        case TaskTagsChangedEvent => TaskTagsChanged(1, 1)
        case CommentCreatedEvent => CommentCreated(1, 1)
        case CommentUpdatedEvent => CommentUpdated(1, 1)
        case CommentDeletedEvent => CommentDeleted(1, 1, 1, 1);
      assert EventOf(j) == e;
    }
  }

  /** Running a job: the plan, then at most one `send_to_project_group`. */
  method RunBroadcast(layer: Layer, j: BroadcastJob, tasks: map<Id, Task>, comments: map<Id, Comment>, users: map<Id, User>,
                      timestamp: string, render: Renderers, transport: Transport) returns (sent: bool)
    requires forall c :: c in comments ==> comments[c].taskId in tasks
    modifies layer
    ensures var plan := Plan(j, tasks, comments, users, timestamp, render);
      (sent <==> plan.Some? && transport == Delivered)
      && (sent ==> layer.sent == old(layer.sent) + [(GroupName(plan.value.project), GroupMessage("broadcast_event", plan.value.eventType, plan.value.data))])
      && (!sent ==> layer.sent == old(layer.sent))
  {
    var plan := Plan(j, tasks, comments, users, timestamp, render);
    if plan.None? {
      return false;
    }
    sent := SendToProjectGroup(layer, plan.value.project, plan.value.eventType, plan.value.data, transport);
  }
}

/** `ProjectConsumer` (apps/websocket/consumers.py): the connection gate
    and the per-connection handlers. What the consumer does to its socket
    and to the channel layer is kept as a log of actions. */
module Consumers {
  import opened Base
  import opened Models
  import opened Json
  import opened Cache
  import opened Store
  import opened ProjectSelectors
  import opened ChannelLayer

  datatype Action = Accept | Close(code: int) | GroupAdd(group: string) | GroupDiscard(group: string) | SendJson(message: Json)

  const AnonymousCloseCode := 4001
  const NotMemberCloseCode := 4003

  /** The answer of `_check_project_membership`, read from the tables: an
      unknown project or user is False, never an error. */
  predicate MembershipAnswer(projects: map<Id, Project>, users: map<Id, User>, members: map<(Id, Id), Role>, p: nat, u: Id)
  {
    p in projects && u in users && (p, u) in members
  }

  /** The actions of `connect` for the scope's user (None when anonymous). */
  function ConnectActions(user: Option<Id>, p: nat, isMember: bool): seq<Action>
  {
    if user.None? then [Accept, Close(AnonymousCloseCode)]
    else if !isMember then [Accept, Close(NotMemberCloseCode)]
    else [GroupAdd("project_" + NatToString(p)), Accept]
  }

  /** The gate: every connection is accepted first or joins first; it is
      closed with 4001 exactly when anonymous, with 4003 exactly when a
      signed-in non-member, and a member joins the very group
      `send_to_project_group` addresses, before being accepted. */
  lemma ConnectGate(user: Option<Id>, p: nat, isMember: bool)
    ensures var a := ConnectActions(user, p, isMember);
      (Close(AnonymousCloseCode) in a <==> user.None?)
      && (Close(NotMemberCloseCode) in a <==> user.Some? && !isMember)
      && (user.Some? && isMember ==> a == [GroupAdd(GroupName(p)), Accept])
      && (forall g :: GroupAdd(g) in a ==> user.Some? && isMember && g == GroupName(p))
      && Accept in a
  {
  }

  /** The answer of `_check_project_membership` read through the cache as it
      stands: a cached project counts as found even when its row is gone,
      and a cached membership flag wins over the table. */
  ghost predicate CachedMembershipAnswer(e: map<string, CachedValue>, projects: map<Id, Project>, users: map<Id, User>,
                                         members: map<(Id, Id), Role>, p: nat, u: Id)
    requires WellTyped(e)
  {
    (ProjectKey(p) in e || p in projects) && u in users
    && (if ExistsKey(p, u) in e then e[ExistsKey(p, u)].flag else p >= 1 && StoreExistsMember(members, p, u))
  }

  /** A cache that agrees with the tables gives the tables' answer. */
  lemma CachedAnswerUnderCoherence(e: map<string, CachedValue>, projects: map<Id, Project>, users: map<Id, User>,
                                   members: map<(Id, Id), Role>, next: Id, p: nat, u: Id)
    requires Coherent(e, projects, members, next)
    ensures WellTyped(e)
    ensures CachedMembershipAnswer(e, projects, users, members, p, u) == MembershipAnswer(projects, users, members, p, u)
  {
    CoherentIsWellTyped(e, projects, members, next);
  }

  /** `_check_project_membership`: the cached project read, the user row,
      then the cached membership read on the project it was handed. */
  method CheckProjectMembership(db: Db, cache: CacheStore, p: nat, u: Id) returns (r: bool)
    requires WellTyped(cache.entries)
    modifies cache
    ensures WellTyped(cache.entries)
    ensures r == CachedMembershipAnswer(old(cache.entries), db.projects, db.users, db.members, p, u)
    ensures Coherent(old(cache.entries), db.projects, db.members, db.nextId) && db.IdsBelowNext() ==>
      Coherent(cache.entries, db.projects, db.members, db.nextId)
      && r == MembershipAnswer(db.projects, db.users, db.members, p, u)
  {
    ghost var e0 := cache.entries;
    var project := GetById(db, cache, p);
    if project.Err? {
      return false;
    }
    if u !in db.users {
      return false;
    }
    FormatInjective(ProjectByIdKey(p), ExistsMemberKey(p, u));
    assert (ExistsKey(p, u) in cache.entries) == (ExistsKey(p, u) in e0);
    assert ExistsKey(p, u) in e0 ==> cache.entries[ExistsKey(p, u)] == e0[ExistsKey(p, u)];
    r := ExistsMember(db, cache, p, u);
    if Coherent(e0, db.projects, db.members, db.nextId) && db.IdsBelowNext() {
      CachedAnswerUnderCoherence(e0, db.projects, db.users, db.members, db.nextId, p, u);
    }
  }

  class ProjectConsumer {
    var projectId: Option<nat>
    var groupName: Option<string>
    var actions: seq<Action>

    constructor ()
      ensures projectId.None? && groupName.None? && actions == []
    {
      projectId, groupName, actions := None, None, [];
    }

    /** `connect`. The group name is recorded for every signed-in user,
        before the membership check. */
    method Connect(db: Db, cache: CacheStore, user: Option<Id>, p: nat)
      requires WellTyped(cache.entries)
      modifies this, cache
      ensures WellTyped(cache.entries)
      ensures user.None? ==> projectId == old(projectId) && groupName == old(groupName)
      ensures user.Some? ==> projectId == Some(p) && groupName == Some(GroupName(p))
      ensures actions == old(actions)
        + ConnectActions(user, p, user.Some? && CachedMembershipAnswer(old(cache.entries), db.projects, db.users, db.members, p, user.value))
      ensures Coherent(old(cache.entries), db.projects, db.members, db.nextId) && db.IdsBelowNext() ==>
        Coherent(cache.entries, db.projects, db.members, db.nextId)
        && actions == old(actions)
          + ConnectActions(user, p, user.Some? && MembershipAnswer(db.projects, db.users, db.members, p, user.value))
    {
      if user.None? {
        actions := actions + [Accept, Close(AnonymousCloseCode)];
        return;
      }
      projectId := Some(p);
      groupName := Some("project_" + NatToString(p));
      var isMember := CheckProjectMembership(db, cache, p, user.value);
      if !isMember {
        actions := actions + [Accept, Close(NotMemberCloseCode)];
        return;
      }
      actions := actions + [GroupAdd(groupName.value), Accept];
    }

    /** `disconnect`: leaves the group exactly when a name was recorded. */
    method Disconnect(closeCode: int)
      modifies this
      ensures projectId == old(projectId) && groupName == old(groupName)
      ensures actions == old(actions) + (if groupName.Some? then [GroupDiscard(groupName.value)] else [])
    {
      if groupName.Some? {
        actions := actions + [GroupDiscard(groupName.value)];
      }
    }

    /** `receive`, given what `json.loads` made of the text (None when it
        raised): only an object whose `type` is "ping" is answered. A
        non-object makes `.get` raise, which is caught like a parse error. */
    method Receive(decoded: Option<Json>)
      modifies this
      ensures projectId == old(projectId) && groupName == old(groupName)
      ensures actions == old(actions) + PingReply(decoded)
    {
      if decoded.Some? && decoded.value.JObject? && Get(decoded.value.fields, "type") == JStr("ping") {
        actions := actions + [SendJson(JObject(map["type" := JStr("pong")]))];
      }
    }

    /** `broadcast_event`: the envelope's name and data, re-keyed. */
    method BroadcastEvent(event: GroupMessage)
      modifies this
      ensures projectId == old(projectId) && groupName == old(groupName)
      ensures actions == old(actions) + [SendJson(ClientMessage(event))]
    {
      actions := actions + [SendJson(JObject(map["type" := JStr(event.eventType), "data" := event.data]))];
    }
  }

  /** The reply to one incoming frame. */
  function PingReply(decoded: Option<Json>): (r: seq<Action>)
    ensures |r| <= 1
    ensures r != [] <==> decoded.Some? && decoded.value.JObject? && "type" in decoded.value.fields
                         && decoded.value.fields["type"] == JStr("ping")
    ensures r != [] ==> r == [SendJson(JObject(map["type" := JStr("pong")]))]
  {
    if decoded.Some? && decoded.value.JObject? && Get(decoded.value.fields, "type") == JStr("ping")
    then [SendJson(JObject(map["type" := JStr("pong")]))]
    else []
  }

  /** What a client receives for a group message. */
  function ClientMessage(event: GroupMessage): (m: Json)
    ensures m.JObject? && m.fields.Keys == {"type", "data"}
    ensures m.fields["type"] == JStr(event.eventType) && m.fields["data"] == event.data
  {
    JObject(map["type" := JStr(event.eventType), "data" := event.data])
  }

  /** End to end: a group message sent by `send_to_project_group` reaches a
      member's client as exactly the event name and data it was given, and
      a JSON null with type "ping" or a list gets no reply. */
  lemma SendReachesClient(p: nat, eventType: string, data: Json)
    ensures ClientMessage(GroupMessage("broadcast_event", eventType, data))
         == JObject(map["type" := JStr(eventType), "data" := data])
    ensures PingReply(Some(JList([JStr("ping")]))) == []
    ensures PingReply(None) == []
    ensures PingReply(Some(JObject(map["type" := JStr("ping"), "extra" := JNull]))) != []
  {
  }
}
