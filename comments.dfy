/** Comment services (apps/comments/services.py): writing and removing a
    comment, and the notification and broadcast jobs each write registers. */
module CommentServices {
  import opened Base
  import opened Models
  import opened Outbox
  import opened Store

  // ------------------------------------------------------- create_comment

  /** The assignee is told when there is one and they did not write it. */
  predicate NotifiesAssignee(task: Task, author: Id)
  {
    task.assigneeId.Some? && task.assigneeId.value != author
  }

  /** The creator is told when they neither wrote the comment nor are the
      assignee (`creator_id != assignee_id` also holds when there is none). */
  predicate NotifiesCreator(task: Task, author: Id)
  {
    task.creatorId != author && Some(task.creatorId) != task.assigneeId
  }

  /** The jobs `create_comment` registers, in order. */
  function CreateCommentJobs(c: Id, t: Id, author: Id, task: Task): seq<Job>
  {
    (if NotifiesAssignee(task, author) then [CommentToAssignee(c, t, author)] else [])
    + (if NotifiesCreator(task, author) then [CommentToCreator(c, t, author)] else [])
    + [Broadcast(CommentCreated(c, author))]
  }

  /** Who a comment notification is addressed to, on the task it is about. */
  function Recipient(j: Job, task: Task): Option<Id>
  {
    match j
    case CommentToAssignee(_, _, _) => task.assigneeId
    case CommentToCreator(_, _, _) => Some(task.creatorId)
    case _ => None
  }

  /** The users a run of jobs notifies about a comment on `task`. */
  function Recipients(jobs: seq<Job>, task: Task): set<Id>
  {
    set i | 0 <= i < |jobs| && Recipient(jobs[i], task).Some? :: Recipient(jobs[i], task).value
  }

  /** The notification rules of `create_comment`: each notification is
      queued exactly under its condition; the broadcast always comes last;
      the author is never notified, nobody is notified twice (so at most two
      notifications), and nobody at all when the author created the task
      and is its assignee. */
  lemma {:induction false} CreateCommentRules(c: Id, t: Id, author: Id, task: Task)
    ensures var jobs := CreateCommentJobs(c, t, author, task);
      (CommentToAssignee(c, t, author) in jobs <==> NotifiesAssignee(task, author))
      && (CommentToCreator(c, t, author) in jobs <==> NotifiesCreator(task, author))
      && jobs[|jobs| - 1] == Broadcast(CommentCreated(c, author))
      && |jobs| <= 3
      && author !in Recipients(jobs, task)
      && |Recipients(jobs, task)| == |jobs| - 1
      && (task.creatorId == author && task.assigneeId == Some(author) ==> jobs == [Broadcast(CommentCreated(c, author))])
  {
    var jobs := CreateCommentJobs(c, t, author, task);
    var a := if NotifiesAssignee(task, author) then {task.assigneeId.value} else {};
    var k := if NotifiesCreator(task, author) then {task.creatorId} else {};
    assert Recipients(jobs, task) == a + k by {
      forall u | u in Recipients(jobs, task) ensures u in a + k {
        var i :| 0 <= i < |jobs| && Recipient(jobs[i], task).Some? && Recipient(jobs[i], task).value == u;
      }
      forall u | u in a + k ensures u in Recipients(jobs, task) {
        if u in a {
          assert Recipient(jobs[0], task) == Some(u);
        } else {
          var i := if NotifiesAssignee(task, author) then 1 else 0;
          assert Recipient(jobs[i], task) == Some(u);
        }
      }
    }
    if NotifiesAssignee(task, author) && NotifiesCreator(task, author) {
      assert task.assigneeId.value != task.creatorId;
    }
  }

  method CreateComment(db: Db, t: Id, author: Id, content: string) returns (c: Id)
    requires db.Valid() && t in db.tasks
    modifies db`comments, db`nextId, db`pending
    ensures db.Valid()
    ensures c !in old(db.comments) && db.comments == old(db.comments)[c := Comment(t, author, content, false)]
    ensures db.pending == old(db.pending) + Enqueues(CreateCommentJobs(c, t, author, old(db.tasks)[t]))
  {
    c := db.FreshId();
    db.comments := db.comments[c := Comment(t, author, content, false)];
    var task := db.tasks[t];
    ghost var before := db.pending;
    if task.assigneeId.Some? && task.assigneeId.value != author {
      db.pending := db.pending + [Enqueue(CommentToAssignee(c, t, author))];
    }
    if task.creatorId != author && Some(task.creatorId) != task.assigneeId {
      db.pending := db.pending + [Enqueue(CommentToCreator(c, t, author))];
    }
    db.pending := db.pending + [Enqueue(Broadcast(CommentCreated(c, author)))];
    assert db.pending == before + Enqueues(CreateCommentJobs(c, t, author, task));
  }

  // ------------------------------------------------------- update_comment

  /** The row after `update_comment`: the new content, marked as edited. */
  function EditComment(cm: Comment, content: string): (r: Comment)
    ensures r.taskId == cm.taskId && r.authorId == cm.authorId
  {
    cm.(content := content, isEdited := true)
  }

  /** Editing always leaves the flag set, keeps whatever the last edit
      wrote, and editing again with the same text changes nothing. */
  lemma EditCommentLaws(cm: Comment, first: string, second: string)
    ensures EditComment(cm, first).isEdited && EditComment(cm, first).content == first
    ensures EditComment(EditComment(cm, first), second) == EditComment(cm, second)
    ensures EditComment(EditComment(cm, first), first) == EditComment(cm, first)
    ensures EditComment(cm, cm.content) == cm <==> cm.isEdited
  {
  }

  method UpdateComment(db: Db, c: Id, content: string, updatedBy: Option<Id>) returns (r: Comment)
    requires db.Valid() && c in db.comments
    modifies db`comments, db`pending
    ensures db.Valid()
    ensures r == EditComment(old(db.comments)[c], content) && db.comments == old(db.comments)[c := r]
    ensures db.pending == old(db.pending) + Enqueues(if updatedBy.Some? then [Broadcast(CommentUpdated(c, updatedBy.value))] else [])
  {
    var cm := db.comments[c];
    cm := cm.(content := content, isEdited := true);
    db.comments := db.comments[c := cm];
    if updatedBy.Some? {
      db.pending := db.pending + [Enqueue(Broadcast(CommentUpdated(c, updatedBy.value)))];
    }
    r := cm;
  }

  // ------------------------------------------------------- delete_comment

  /** The ids travel with the broadcast because they are read before the
      row goes: the comment's task and that task's project. */
  method DeleteComment(db: Db, c: Id, deletedBy: Option<Id>)
    requires db.Valid() && c in db.comments && db.comments[c].taskId in db.tasks
    modifies db`comments, db`pending
    ensures db.Valid()
    ensures db.comments == old(db.comments) - {c}
    ensures var t := old(db.comments)[c].taskId;
      db.pending == old(db.pending)
        + Enqueues(if deletedBy.Some? then [Broadcast(CommentDeleted(c, t, old(db.tasks)[t].projectId, deletedBy.value))] else [])
  {
    var taskId := db.comments[c].taskId;
    var projectId := db.tasks[taskId].projectId;
    db.comments := db.comments - {c};
    if deletedBy.Some? {
      db.pending := db.pending + [Enqueue(Broadcast(CommentDeleted(c, taskId, projectId, deletedBy.value)))];
    }
  }
}

/** The notification jobs of apps/comments/tasks.py. Each re-reads the rows
    when it runs and may decide not to send: the result is the user it
    notifies, or None when it returns early. Logging stands in for mail. */
module CommentJobs {
  import opened Base
  import opened Models
  import opened Outbox
  import opened CommentServices

  /** The lookups of both jobs: any missing row ends the job. */
  predicate RowsExist(comments: map<Id, Comment>, tasks: map<Id, Task>, users: map<Id, User>, c: Id, t: Id, author: Id)
  {
    c in comments && t in tasks && author in users
  }

  /** `send_comment_notification_to_assignee`. */
  function NotifyAssignee(comments: map<Id, Comment>, tasks: map<Id, Task>, users: map<Id, User>, c: Id, t: Id, author: Id): (r: Option<Id>)
    ensures r.Some? <==> RowsExist(comments, tasks, users, c, t, author) && tasks[t].assigneeId.Some? && tasks[t].assigneeId.value != author
    ensures r.Some? ==> r == tasks[t].assigneeId && r.value != author
  {
    if !RowsExist(comments, tasks, users, c, t, author) then None
    else
      var task := tasks[t];
      if task.assigneeId.None? || task.assigneeId.value == author then None
      else task.assigneeId
  }

  /** `send_comment_notification_to_creator`. */
  function NotifyCreator(comments: map<Id, Comment>, tasks: map<Id, Task>, users: map<Id, User>, c: Id, t: Id, author: Id): (r: Option<Id>)
    ensures r.Some? <==> RowsExist(comments, tasks, users, c, t, author) && tasks[t].creatorId != author
                         && !(tasks[t].assigneeId.Some? && tasks[t].creatorId == tasks[t].assigneeId.value)
    ensures r.Some? ==> r == Some(tasks[t].creatorId) && r.value != author
  {
    if !RowsExist(comments, tasks, users, c, t, author) then None
    else
      var task := tasks[t];
      if task.creatorId == author then None
      else if task.assigneeId.Some? && task.creatorId == task.assigneeId.value then None
      else Some(task.creatorId)
  }

  /** While the rows are still there and the task unchanged, each job sends
      exactly when `create_comment` scheduled it, and to the user
      `Recipient` names; the author is never the one told. */
  lemma GuardsAgreeWithScheduling(comments: map<Id, Comment>, tasks: map<Id, Task>, users: map<Id, User>, c: Id, t: Id, author: Id)
    requires RowsExist(comments, tasks, users, c, t, author)
    ensures var jobs := CreateCommentJobs(c, t, author, tasks[t]);
      (NotifyAssignee(comments, tasks, users, c, t, author).Some? <==> CommentToAssignee(c, t, author) in jobs)
      && (NotifyCreator(comments, tasks, users, c, t, author).Some? <==> CommentToCreator(c, t, author) in jobs)
    ensures NotifyAssignee(comments, tasks, users, c, t, author).Some? ==>
      NotifyAssignee(comments, tasks, users, c, t, author) == Recipient(CommentToAssignee(c, t, author), tasks[t])
    ensures NotifyCreator(comments, tasks, users, c, t, author).Some? ==>
      NotifyCreator(comments, tasks, users, c, t, author) == Recipient(CommentToCreator(c, t, author), tasks[t])
  {
    CreateCommentRules(c, t, author, tasks[t]);
  }

  /** A job whose comment, task or author has gone sends nothing; and the
      two jobs never both send to the same user. */
  lemma StaleJobsSendNothing(comments: map<Id, Comment>, tasks: map<Id, Task>, users: map<Id, User>, c: Id, t: Id, author: Id)
    ensures !RowsExist(comments, tasks, users, c, t, author) ==>
      NotifyAssignee(comments, tasks, users, c, t, author).None? && NotifyCreator(comments, tasks, users, c, t, author).None?
    ensures NotifyAssignee(comments, tasks, users, c, t, author).Some? && NotifyCreator(comments, tasks, users, c, t, author).Some? ==>
      NotifyAssignee(comments, tasks, users, c, t, author) != NotifyCreator(comments, tasks, users, c, t, author)
  {
  }
}
