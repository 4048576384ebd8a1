/** Reads of the task table (apps/tasks/selectors.py). */
module TaskSelectors {
  import opened Base
  import opened Models
  import opened Exceptions

  /** `get_by_id`: the row, or NotFound. */
  function GetById(tasks: map<Id, Task>, t: nat): (r: Result<Task, ServiceError>)
    ensures r.Ok? <==> t in tasks
    ensures r.Ok? ==> r.value == tasks[t]
    ensures r.Err? ==> r.error.kind == NotFound
  {
    if t in tasks then Ok(tasks[t]) else Err(NewServiceError(NotFound, Some("Задача не найдена"), map[]))
  }

  /** The positions held by the tasks of project `p`. */
  function Positions(tasks: map<Id, Task>, p: Id): set<nat>
  {
    set t | t in tasks && tasks[t].projectId == p :: tasks[t].position
  }

  /** A non-empty finite set of numbers has a largest element. */
  lemma {:induction false} MaxExists(s: set<nat>)
    requires s != {}
    ensures exists m :: m in s && forall q :: q in s ==> q <= m
    decreases |s|
  {
    var x :| x in s;
    if s != {x} {
      MaxExists(s - {x});
      var m :| m in s - {x} && forall q :: q in s - {x} ==> q <= m;
      if x > m {
        forall q | q in s ensures q <= x {
          if q != x { assert q in s - {x}; }
        }
      } else {
        forall q | q in s ensures q <= m {
          if q != x { assert q in s - {x}; }
        }
      }
    } else {
      assert forall q :: q in s ==> q <= x;
    }
  }

  /** `get_max_position`: `Max('position')`, or 0 for a project with no
      tasks (`or 0` also maps a maximum of 0 to 0). */
  function GetMaxPosition(tasks: map<Id, Task>, p: Id): (m: nat)
    ensures Positions(tasks, p) == {} ==> m == 0
    ensures Positions(tasks, p) != {} ==> m in Positions(tasks, p)
    ensures forall t :: t in tasks && tasks[t].projectId == p ==> tasks[t].position <= m
  {
    var ps := Positions(tasks, p);
    assert forall t :: t in tasks && tasks[t].projectId == p ==> tasks[t].position in ps;
    if ps == {} then 0
    else
      MaxExists(ps);
      var m :| m in ps && forall q :: q in ps ==> q <= m;
      m
  }

  /** Only the tasks of the project count towards its maximum. */
  lemma MaxPositionIgnoresOtherProjects(tasks: map<Id, Task>, p: Id, k: Id, t: Task)
    requires k !in tasks && t.projectId != p
    ensures GetMaxPosition(tasks[k := t], p) == GetMaxPosition(tasks, p)
  {
    var t2 := tasks[k := t];
    forall q | q in Positions(t2, p) ensures q in Positions(tasks, p) {
      var j :| j in t2 && t2[j].projectId == p && t2[j].position == q;
      assert j in tasks && tasks[j] == t2[j];
    }
    forall q | q in Positions(tasks, p) ensures q in Positions(t2, p) {
      var j :| j in tasks && tasks[j].projectId == p && tasks[j].position == q;
      assert j in t2 && t2[j] == tasks[j];
    }
    assert Positions(t2, p) == Positions(tasks, p);
  }

  // -------------------------------------------------------------- filters

  /** `if status: filters &= Q(status=status)`: an empty string is falsy. */
  predicate StatusMatches(t: Task, status: Option<string>)
  {
    status.None? || status.value == "" || StatusValue(t.status) == status.value
  }

  predicate PriorityMatches(t: Task, priority: Option<string>)
  {
    priority.None? || priority.value == "" || PriorityValue(t.priority) == priority.value
  }

  /** `if assignee_id is not None`: applied for every given id, 0 included. */
  predicate AssigneeMatches(t: Task, assigneeId: Option<int>)
  {
    assigneeId.None? || (t.assigneeId.Some? && t.assigneeId.value == assigneeId.value)
  }

  /** `filter_by_project_with_filters`: the ids of the matching tasks. */
  function FilterByProjectWithFilters(tasks: map<Id, Task>, p: Id, status: Option<string>, priority: Option<string>, assigneeId: Option<int>): (r: set<Id>)
    ensures forall t :: t in r ==> t in tasks && tasks[t].projectId == p
  {
    set t | t in tasks && tasks[t].projectId == p
      && StatusMatches(tasks[t], status) && PriorityMatches(tasks[t], priority) && AssigneeMatches(tasks[t], assigneeId)
  }

  /** With no filter active the result is the whole project. */
  lemma NoFilterIsWholeProject(tasks: map<Id, Task>, p: Id)
    ensures FilterByProjectWithFilters(tasks, p, None, None, None) == set t | t in tasks && tasks[t].projectId == p
    ensures FilterByProjectWithFilters(tasks, p, Some(""), Some(""), None) == FilterByProjectWithFilters(tasks, p, None, None, None)
  {
  }

  /** The filters are conjunctive: all of them at once select exactly the
      tasks every single one selects. */
  lemma FiltersAreConjunctive(tasks: map<Id, Task>, p: Id, status: Option<string>, priority: Option<string>, assigneeId: Option<int>)
    ensures FilterByProjectWithFilters(tasks, p, status, priority, assigneeId)
         == FilterByProjectWithFilters(tasks, p, status, None, None)
          * FilterByProjectWithFilters(tasks, p, None, priority, None)
          * FilterByProjectWithFilters(tasks, p, None, None, assigneeId)
  {
  }

  /** An active filter matches exactly: a returned task has that status,
      priority or assignee; an id no user has (such as 0) selects nothing. */
  lemma ActiveFiltersAreExact(tasks: map<Id, Task>, p: Id, status: string, priority: string, a: int, t: Id)
    requires t in FilterByProjectWithFilters(tasks, p, Some(status), Some(priority), Some(a))
    ensures status != "" ==> StatusValue(tasks[t].status) == status
    ensures priority != "" ==> PriorityValue(tasks[t].priority) == priority
    ensures tasks[t].assigneeId == Some(a) && a >= 1
  {
  }
}
