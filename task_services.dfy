/** The task lifecycle (apps/tasks/services.py): every service writes the
    task table and registers its jobs as commit callbacks. */
module TaskServices {
  import opened Base
  import opened Models
  import opened Outbox
  import opened Store
  import opened TaskSelectors

  // ---------------------------------------------------------- create_task

  /** The row `create_task` inserts: status pending, no tags, placed after
      every task of the project. */
  function NewTask(tasks: map<Id, Task>, p: Id, creator: Id, title: string, description: string,
                   priority: Priority, deadline: Option<int>, assignee: Option<Id>): Task
  {
    Task(p, creator, assignee, title, description, Pending, priority, deadline, GetMaxPosition(tasks, p) + 1, {})
  }

  /** The jobs `create_task` registers: the assigned email whenever an
      assignee is given, then the created broadcast. */
  function CreateTaskJobs(t: Id, p: Id, creator: Id, assignee: Option<Id>): seq<Job>
  {
    (if assignee.Some? then [TaskAssignedEmail(assignee.value, t, p)] else [])
    + [Broadcast(TaskCreated(t, creator))]
  }

  /** The first task of a project gets position 1, and a new task always
      lands strictly after every task already in its project. */
  lemma NewTaskPosition(tasks: map<Id, Task>, p: Id, creator: Id, title: string, description: string,
                        priority: Priority, deadline: Option<int>, assignee: Option<Id>)
    ensures var n := NewTask(tasks, p, creator, title, description, priority, deadline, assignee);
      (Positions(tasks, p) == {} ==> n.position == 1)
      && (forall k :: k in tasks && tasks[k].projectId == p ==> tasks[k].position < n.position)
      && n.status == Pending && n.tags == {} && n.assigneeId == assignee
  {
  }

  /** Once committed, the created broadcast is always queued, last; the
      assigned email is queued exactly when an assignee is given, even when
      the assignee is the creator; no cache key is touched. */
  lemma CreateTaskOutbox(t: Id, p: Id, creator: Id, assignee: Option<Id>)
    ensures var jobs := JobsOf(Enqueues(CreateTaskJobs(t, p, creator, assignee)));
      |jobs| >= 1 && jobs[|jobs| - 1] == Broadcast(TaskCreated(t, creator))
      && (TaskAssignedEmail(creator, t, p) in jobs <==> assignee == Some(creator))
      && (assignee.Some? <==> |jobs| == 2)
      && (assignee.Some? ==> jobs[0] == TaskAssignedEmail(assignee.value, t, p))
    ensures AllKeysOf(Enqueues(CreateTaskJobs(t, p, creator, assignee))) == {}
  {
    EnqueuesQueueJobs(CreateTaskJobs(t, p, creator, assignee));
  }

  method CreateTask(db: Db, p: Id, creator: Id, title: string, description: string,
                    priority: Priority, deadline: Option<int>, assignee: Option<Id>) returns (t: Id)
    requires db.Valid()
    modifies db`tasks, db`nextId, db`pending
    ensures db.Valid()
    ensures t !in old(db.tasks)
    ensures db.tasks == old(db.tasks)[t := NewTask(old(db.tasks), p, creator, title, description, priority, deadline, assignee)]
    ensures db.pending == old(db.pending) + Enqueues(CreateTaskJobs(t, p, creator, assignee))
  {
    var position := GetMaxPosition(db.tasks, p) + 1;
    t := db.FreshId();
    db.tasks := db.tasks[t := Task(p, creator, assignee, title, description, Pending, priority, deadline, position, {})];
    ghost var before := db.pending;
    if assignee.Some? {
      db.pending := db.pending + [Enqueue(TaskAssignedEmail(assignee.value, t, p))];
    }
    db.pending := db.pending + [Enqueue(Broadcast(TaskCreated(t, creator)))];
    assert db.pending == before + Enqueues(CreateTaskJobs(t, p, creator, assignee));
  }

  // ---------------------------------------------------------- update_task

  /** The row after `update_task`: a None argument leaves its field alone;
      `deadline` is written whenever it is passed, None included. */
  function ApplyTaskUpdate(task: Task, title: Option<string>, description: Option<string>,
                           priority: Option<Priority>, deadline: Patch<Option<int>>): (r: Task)
    ensures r.projectId == task.projectId && r.creatorId == task.creatorId && r.assigneeId == task.assigneeId
    ensures r.status == task.status && r.position == task.position && r.tags == task.tags
  {
    task.(title := if title.Some? then title.value else task.title,
          description := if description.Some? then description.value else task.description,
          priority := if priority.Some? then priority.value else task.priority,
          deadline := if deadline.Set? then deadline.value else task.deadline)
  }

  /** The sentinel at work: leaving `deadline` out keeps it, passing None
      clears it; and an update applied twice is applied once. */
  lemma TaskUpdateLaws(task: Task, title: Option<string>, description: Option<string>,
                       priority: Option<Priority>, deadline: Patch<Option<int>>)
    ensures ApplyTaskUpdate(task, None, None, None, Unset) == task
    ensures ApplyTaskUpdate(task, None, None, None, Set(None)).deadline.None?
    ensures var once := ApplyTaskUpdate(task, title, description, priority, deadline);
      ApplyTaskUpdate(once, title, description, priority, deadline) == once
  {
  }

  method UpdateTask(db: Db, t: Id, title: Option<string>, description: Option<string>,
                    priority: Option<Priority>, deadline: Patch<Option<int>>, updatedBy: Option<Id>) returns (r: Task)
    requires db.Valid() && t in db.tasks
    modifies db`tasks, db`pending
    ensures db.Valid()
    ensures r == ApplyTaskUpdate(old(db.tasks)[t], title, description, priority, deadline)
    ensures db.tasks == old(db.tasks)[t := r]
    ensures db.pending == old(db.pending) + Enqueues(if updatedBy.Some? then [Broadcast(TaskUpdated(t, updatedBy.value))] else [])
  {
    var task := db.tasks[t];
    if title.Some? {
      task := task.(title := title.value);
    }
    if description.Some? {
      task := task.(description := description.value);
    }
    if priority.Some? {
      task := task.(priority := priority.value);
    }
    if deadline.Set? {
      task := task.(deadline := deadline.value);
    }
    db.tasks := db.tasks[t := task];
    if updatedBy.Some? {
      db.pending := db.pending + [Enqueue(Broadcast(TaskUpdated(t, updatedBy.value)))];
    }
    r := task;
  }

  // ---------------------------------------------------------- delete_task

  /** The comment table after its task's row is gone (`on_delete=CASCADE`). */
  function CommentsWithoutTask(comments: map<Id, Comment>, t: Id): (r: map<Id, Comment>)
    ensures forall c :: c in r ==> r[c].taskId != t
    ensures forall c :: c in comments && comments[c].taskId != t ==> c in r && r[c] == comments[c]
    ensures r.Keys <= comments.Keys
  {
    map c | c in comments && comments[c].taskId != t :: comments[c]
  }

  /** The deleted broadcast carries the ids captured before the delete. */
  method DeleteTask(db: Db, t: Id, deletedBy: Option<Id>)
    requires db.Valid() && t in db.tasks
    modifies db`tasks, db`comments, db`pending
    ensures db.Valid()
    ensures db.tasks == old(db.tasks) - {t}
    ensures db.comments == CommentsWithoutTask(old(db.comments), t)
    ensures db.pending == old(db.pending)
      + Enqueues(if deletedBy.Some? then [Broadcast(TaskDeleted(t, old(db.tasks)[t].projectId, deletedBy.value))] else [])
  {
    var projectId := db.tasks[t].projectId;
    db.tasks := db.tasks - {t};
    db.comments := CommentsWithoutTask(db.comments, t);
    if deletedBy.Some? {
      db.pending := db.pending + [Enqueue(Broadcast(TaskDeleted(t, projectId, deletedBy.value)))];
    }
  }

  // -------------------------------------------------------- change_status

  /** The jobs of `change_status`: none for an unchanged status;
      otherwise the assignee's email, then the broadcast of the actor. */
  function StatusJobs(t: Id, task: Task, newStatus: TaskStatus, updatedBy: Option<Id>): seq<Job>
  {
    if task.status == newStatus then []
    else
      (if task.assigneeId.Some? then [TaskStatusChangedEmail(task.assigneeId.value, t, task.status, newStatus)] else [])
      + (if updatedBy.Some? then [Broadcast(TaskStatusChanged(t, updatedBy.value))] else [])
  }

  /** A status email is queued exactly when the status really changes and
      the task has an assignee, and it carries the old and the new status. */
  lemma StatusEmailRule(t: Id, task: Task, newStatus: TaskStatus, updatedBy: Option<Id>, a: Id)
    ensures var jobs := JobsOf(Enqueues(StatusJobs(t, task, newStatus, updatedBy)));
      (TaskStatusChangedEmail(a, t, task.status, newStatus) in jobs <==>
        task.status != newStatus && task.assigneeId == Some(a))
      && (task.status == newStatus ==> jobs == [])
      && (forall j :: j in jobs && j.TaskStatusChangedEmail? ==>
            task.assigneeId.Some? && j == TaskStatusChangedEmail(task.assigneeId.value, t, task.status, newStatus))
    ensures AllKeysOf(Enqueues(StatusJobs(t, task, newStatus, updatedBy))) == {}
  {
    EnqueuesQueueJobs(StatusJobs(t, task, newStatus, updatedBy));
  }

  /** `change_status` stores any of the four statuses: there is no
      transition table, so every change goes through. */
  method ChangeStatus(db: Db, t: Id, newStatus: TaskStatus, updatedBy: Option<Id>) returns (r: Task)
    requires db.Valid() && t in db.tasks
    modifies db`tasks, db`pending
    ensures db.Valid()
    ensures r == old(db.tasks)[t].(status := newStatus)
    ensures old(db.tasks)[t].status == newStatus ==> db.tasks == old(db.tasks)
    ensures db.tasks == old(db.tasks)[t := r]
    ensures db.pending == old(db.pending) + Enqueues(StatusJobs(t, old(db.tasks)[t], newStatus, updatedBy))
  {
    var task := db.tasks[t];
    var oldStatus := task.status;
    if oldStatus == newStatus {
      assert db.tasks[t := task] == db.tasks;
      return task;
    }
    task := task.(status := newStatus);
    db.tasks := db.tasks[t := task];
    if task.assigneeId.Some? {
      db.pending := db.pending + [Enqueue(TaskStatusChangedEmail(task.assigneeId.value, t, oldStatus, newStatus))];
    }
    if updatedBy.Some? {
      db.pending := db.pending + [Enqueue(Broadcast(TaskStatusChanged(t, updatedBy.value)))];
    }
    r := task;
  }

  // ---------------------------------------------------------- assign_task

  /** The jobs of `assign_task`: none when the assignee is unchanged
      (None to None included); otherwise the old assignee is told about the
      unassignment, the new one about the assignment, then the broadcast. */
  function AssignJobs(t: Id, task: Task, assignee: Option<Id>, projectName: string, updatedBy: Option<Id>): seq<Job>
  {
    if task.assigneeId == assignee then []
    else
      (if task.assigneeId.Some? then [TaskUnassignedEmail(task.assigneeId.value, task.title, projectName)] else [])
      + (if assignee.Some? then [TaskAssignedEmail(assignee.value, t, task.projectId)] else [])
      + AssignBroadcast(t, updatedBy)
  }

  /** The broadcast `assign_task` queues last, when an acting user is given. */
  function AssignBroadcast(t: Id, updatedBy: Option<Id>): (r: seq<Job>)
    ensures |r| <= 1
    ensures forall j :: j in r ==> j.Broadcast?
  {
    if updatedBy.Some? then [Broadcast(TaskAssigned(t, updatedBy.value))] else []
  }

  /** The emails of every case of `assign_task`, exactly: reassigning from
      `a` to `b` mails the old assignee and then the new one, one email
      each; unassigning mails only the old assignee; assigning a task that
      had nobody mails only the new one; an unchanged assignee mails no one.
      The broadcast, if any, comes after the emails. */
  lemma AssignEmailRules(t: Id, task: Task, projectName: string, updatedBy: Option<Id>, a: Id, b: Id)
    requires a != b
    ensures task.assigneeId == Some(a) ==>
      JobsOf(Enqueues(AssignJobs(t, task, Some(b), projectName, updatedBy)))
        == [TaskUnassignedEmail(a, task.title, projectName), TaskAssignedEmail(b, t, task.projectId)] + AssignBroadcast(t, updatedBy)
    ensures task.assigneeId == Some(a) ==>
      JobsOf(Enqueues(AssignJobs(t, task, None, projectName, updatedBy)))
        == [TaskUnassignedEmail(a, task.title, projectName)] + AssignBroadcast(t, updatedBy)
    ensures task.assigneeId.None? ==>
      JobsOf(Enqueues(AssignJobs(t, task, Some(b), projectName, updatedBy)))
        == [TaskAssignedEmail(b, t, task.projectId)] + AssignBroadcast(t, updatedBy)
    ensures JobsOf(Enqueues(AssignJobs(t, task, task.assigneeId, projectName, updatedBy))) == []
  {
    EnqueuesQueueJobs(AssignJobs(t, task, Some(b), projectName, updatedBy));
    EnqueuesQueueJobs(AssignJobs(t, task, None, projectName, updatedBy));
    EnqueuesQueueJobs(AssignJobs(t, task, task.assigneeId, projectName, updatedBy));
  }

  method AssignTask(db: Db, t: Id, assignee: Option<Id>, projectName: string, updatedBy: Option<Id>) returns (r: Task)
    requires db.Valid() && t in db.tasks
    requires assignee.Some? ==> assignee.value in db.users
    modifies db`tasks, db`pending
    ensures db.Valid()
    ensures r == old(db.tasks)[t].(assigneeId := assignee)
    ensures old(db.tasks)[t].assigneeId == assignee ==> db.tasks == old(db.tasks)
    ensures db.tasks == old(db.tasks)[t := r]
    ensures db.pending == old(db.pending) + Enqueues(AssignJobs(t, old(db.tasks)[t], assignee, projectName, updatedBy))
  {
    var task := db.tasks[t];
    var oldAssignee := task.assigneeId;
    if oldAssignee == assignee {
      assert db.tasks[t := task] == db.tasks;
      return task;
    }
    task := task.(assigneeId := assignee);
    db.tasks := db.tasks[t := task];
    if oldAssignee.Some? {
      db.pending := db.pending + [Enqueue(TaskUnassignedEmail(oldAssignee.value, task.title, projectName))];
    }
    if assignee.Some? {
      db.pending := db.pending + [Enqueue(TaskAssignedEmail(assignee.value, t, task.projectId))];
    }
    if updatedBy.Some? {
      db.pending := db.pending + [Enqueue(Broadcast(TaskAssigned(t, updatedBy.value)))];
    }
    r := task;
  }

  // --------------------------------------------------------- reorder_task

  /** The bulk `update(position=F('position') ± 1)` on one row: moving up
      (`to < from`) shifts [to, from) of the project down by one place,
      i.e. +1; moving down shifts (from, to] by -1; other rows stay. */
  function Shift(task: Task, p: Id, from: nat, to: nat): Task
  {
    if task.projectId != p then task
    else if to < from && to <= task.position < from then task.(position := task.position + 1)
    else if from < to && from < task.position <= to then task.(position := task.position - 1)
    else task
  }

  /** The task table after `reorder_task(t, newPos)`. */
  function Reordered(tasks: map<Id, Task>, t: Id, newPos: nat): (r: map<Id, Task>)
    requires t in tasks
    ensures r.Keys == tasks.Keys
    ensures r[t] == tasks[t].(position := newPos)
  {
    var moved := tasks[t];
    (map k | k in tasks :: Shift(tasks[k], moved.projectId, moved.position, newPos))[t := moved.(position := newPos)]
  }

  /** The jobs of `reorder_task`: none when the task stays where it is. */
  function ReorderJobs(oldPos: nat, t: Id, newPos: nat, updatedBy: Option<Id>): seq<Job>
  {
    if oldPos == newPos || updatedBy.None? then [] else [Broadcast(TaskReordered(t, updatedBy.value))]
  }

  /** What happens to every other row: only tasks of the same project move,
      by one place, inside the half-open range between the two positions;
      nothing but the position ever changes. */
  lemma ReorderedRows(tasks: map<Id, Task>, t: Id, newPos: nat, k: Id)
    requires t in tasks && k in tasks && k != t
    ensures var r := Reordered(tasks, t, newPos); var from := tasks[t].position; var q := tasks[k];
      r[k] == q.(position := r[k].position)
      && (q.projectId != tasks[t].projectId ==> r[k] == q)
      && (q.projectId == tasks[t].projectId && newPos < from && newPos <= q.position < from ==> r[k].position == q.position + 1)
      && (q.projectId == tasks[t].projectId && from < newPos && from < q.position <= newPos ==> r[k].position == q.position - 1)
      && (!(newPos <= q.position < from) && !(from < q.position <= newPos) ==> r[k] == q)
  {
  }

  /** Moving a task to where it already is changes nothing. */
  lemma ReorderSamePosition(tasks: map<Id, Task>, t: Id)
    requires t in tasks
    ensures Reordered(tasks, t, tasks[t].position) == tasks
  {
    var r := Reordered(tasks, t, tasks[t].position);
    forall k | k in tasks ensures r[k] == tasks[k] {
    }
  }

  method ReorderTask(db: Db, t: Id, newPos: nat, updatedBy: Option<Id>) returns (r: Task)
    requires db.Valid() && t in db.tasks
    modifies db`tasks, db`pending
    ensures db.Valid()
    ensures old(db.tasks)[t].position == newPos ==> db.tasks == old(db.tasks) && r == old(db.tasks)[t]
    ensures db.tasks == Reordered(old(db.tasks), t, newPos) && r == db.tasks[t]
    ensures db.pending == old(db.pending) + Enqueues(ReorderJobs(old(db.tasks)[t].position, t, newPos, updatedBy))
  {
    var task := db.tasks[t];
    var oldPos := task.position;
    if oldPos == newPos {
      ReorderSamePosition(db.tasks, t);
      return task;
    }
    var p := task.projectId;
    db.tasks := map k | k in db.tasks :: Shift(db.tasks[k], p, oldPos, newPos);
    task := task.(position := newPos);
    db.tasks := db.tasks[t := task];
    if updatedBy.Some? {
      db.pending := db.pending + [Enqueue(Broadcast(TaskReordered(t, updatedBy.value)))];
    }
    r := task;
  }

  // ---------------------------------------------- positions stay a run

  /** Some task of project `p` sits at position `i`. */
  ghost predicate Held(tasks: map<Id, Task>, p: Id, i: int)
  {
    exists k :: k in tasks && tasks[k].projectId == p && tasks[k].position == i
  }

  /** The tasks of project `p` hold the positions lo..hi, each exactly once. */
  ghost predicate Contiguous(tasks: map<Id, Task>, p: Id, lo: nat, hi: nat)
  {
    (forall k :: k in tasks && tasks[k].projectId == p ==> lo <= tasks[k].position <= hi)
    && (forall i :: lo <= i <= hi ==> Held(tasks, p, i))
    && (forall a, b ::
          a in tasks && b in tasks && tasks[a].projectId == p && tasks[b].projectId == p && tasks[a].position == tasks[b].position
          ==> a == b)
  }

  /** When a project's positions form a run without gaps or repeats and the
      target lies inside it, reordering permutes the run: afterwards the
      project again holds every position of the run exactly once. */
  lemma {:induction false} ReorderKeepsContiguous(tasks: map<Id, Task>, t: Id, newPos: nat, lo: nat, hi: nat)
    requires t in tasks && Contiguous(tasks, tasks[t].projectId, lo, hi) && lo <= newPos <= hi
    ensures Contiguous(Reordered(tasks, t, newPos), tasks[t].projectId, lo, hi)
  {
    var p := tasks[t].projectId;
    var from := tasks[t].position;
    var r := Reordered(tasks, t, newPos);
    forall k | k in r && r[k].projectId == p ensures lo <= r[k].position <= hi {
      if k != t {
        ReorderedRows(tasks, t, newPos, k);
      }
    }
    forall i | lo <= i <= hi ensures Held(r, p, i) {
      if i == newPos {
        assert r[t].projectId == p && r[t].position == i;
      } else {
        var j: nat := if newPos < from && newPos < i <= from then i - 1
                      else if from < newPos && from <= i < newPos then i + 1
                      else i;
        assert lo <= j <= hi && Held(tasks, p, j);
        var k :| k in tasks && tasks[k].projectId == p && tasks[k].position == j;
        assert k != t;
        ReorderedRows(tasks, t, newPos, k);
        assert r[k].projectId == p && r[k].position == i;
      }
    }
    forall a, b | a in r && b in r && r[a].projectId == p && r[b].projectId == p && r[a].position == r[b].position
      ensures a == b
    {
      if a != t && b != t {
        ReorderedRows(tasks, t, newPos, a);
        ReorderedRows(tasks, t, newPos, b);
      } else if a != t {
        ReorderedRows(tasks, t, newPos, a);
      } else if b != t {
        ReorderedRows(tasks, t, newPos, b);
      }
    }
  }

  /** A worked instance of `ReorderedRows`, kept as documentation: positions
      1, 2, 3 with the third task moved to 1 become 2, 3, 1. */
  lemma MoveLastToFirst(a: Id, b: Id, c: Id, base: Task)
    requires a != b && b != c && a != c
    ensures var tasks := map[a := base.(position := 1), b := base.(position := 2), c := base.(position := 3)];
      Reordered(tasks, c, 1) == map[a := base.(position := 2), b := base.(position := 3), c := base.(position := 1)]
  {
    var tasks := map[a := base.(position := 1), b := base.(position := 2), c := base.(position := 3)];
    var r := Reordered(tasks, c, 1);
    var want := map[a := base.(position := 2), b := base.(position := 3), c := base.(position := 1)];
    assert r[a] == want[a] && r[b] == want[b] && r[c] == want[c];
    assert r.Keys == want.Keys;
  }

  /** A worked instance of `ReorderedRows`, kept as documentation: positions
      1, 2, 3 with the first task moved to 3 become 3, 1, 2. */
  lemma MoveFirstToLast(a: Id, b: Id, c: Id, base: Task)
    requires a != b && b != c && a != c
    ensures var tasks := map[a := base.(position := 1), b := base.(position := 2), c := base.(position := 3)];
      Reordered(tasks, a, 3) == map[a := base.(position := 3), b := base.(position := 1), c := base.(position := 2)]
  {
    var tasks := map[a := base.(position := 1), b := base.(position := 2), c := base.(position := 3)];
    var r := Reordered(tasks, a, 3);
    var want := map[a := base.(position := 3), b := base.(position := 1), c := base.(position := 2)];
    assert r[a] == want[a] && r[b] == want[b] && r[c] == want[c];
    assert r.Keys == want.Keys;
  }
}
