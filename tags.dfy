/** Reads of the tag table (apps/tags/selectors.py). */
module TagSelectors {
  import opened Base
  import opened Models
  import opened Exceptions

  /** `get_by_id`: the row, or NotFound. */
  function GetById(tags: map<Id, Tag>, k: nat): (r: Result<Tag, ServiceError>)
    ensures r.Ok? <==> k in tags
    ensures r.Ok? ==> r.value == tags[k]
    ensures r.Err? ==> r.error.kind == NotFound
  {
    if k in tags then Ok(tags[k]) else Err(NewServiceError(NotFound, Some("Тег не найден"), map[]))
  }

  /** `filter_by_project`. */
  function FilterByProject(tags: map<Id, Tag>, p: Id): (r: set<Id>)
    ensures forall k :: k in r <==> k in tags && tags[k].projectId == p
  {
    set k | k in tags && tags[k].projectId == p
  }

  /** `filter_by_ids`: the stored tags whose id is listed; unknown ids and
      repetitions contribute nothing. */
  function FilterByIds(tags: map<Id, Tag>, ids: set<Id>): (r: set<Id>)
    ensures forall k :: k in r <==> k in tags && k in ids
    ensures |r| <= |ids|
  {
    var r := set k | k in tags && k in ids;
    CardMono(r, ids);
    r
  }

  lemma {:induction false} CardMono(x: set<Id>, y: set<Id>)
    requires x <= y
    ensures |x| <= |y|
    decreases |y|
  {
    if x != {} {
      var e :| e in x;
      CardMono(x - {e}, y - {e});
    }
  }

  /** `exists_tag_name_in_project`: a tag of the project has the name, up to
      case, other than the excluded one; `exclude_id` counts only when truthy. */
  predicate ExistsTagNameInProject(tags: map<Id, Tag>, p: Id, name: string, excludeId: Option<int>)
  {
    exists k :: k in tags && tags[k].projectId == p && EqualsIgnoreCase(tags[k].name, name)
      && !(excludeId.Some? && excludeId.value != 0 && k == excludeId.value)
  }

  /** The name check in both directions, and what `exclude_id` does: None
      and 0 exclude nothing, a tag id hides exactly that tag, and equal names
      in other projects never count. */
  lemma ExistsTagNameRules(tags: map<Id, Tag>, p: Id, name: string, k: Id)
    ensures ExistsTagNameInProject(tags, p, name, None) == ExistsTagNameInProject(tags, p, name, Some(0))
    ensures ExistsTagNameInProject(tags, p, name, None) <==>
      exists j :: j in FilterByProject(tags, p) && Lower(tags[j].name) == Lower(name)
    ensures k in tags && tags[k].projectId == p && EqualsIgnoreCase(tags[k].name, name) ==>
      ExistsTagNameInProject(tags, p, name, None)
    ensures (k in tags && tags[k].projectId == p
             && forall j :: j in tags && j != k && tags[j].projectId == p ==> !EqualsIgnoreCase(tags[j].name, name))
      ==> !ExistsTagNameInProject(tags, p, name, Some(k))
  {
  }
}

/** Tag writes (apps/tags/services.py). */
module TagServices {
  import opened Base
  import opened Models
  import opened Exceptions
  import opened Outbox
  import opened Store
  import opened TagSelectors

  /** Names are unique up to case within a project. */
  ghost predicate TagNamesUnique(tags: map<Id, Tag>)
  {
    forall a, b ::
      a in tags && b in tags && tags[a].projectId == tags[b].projectId && EqualsIgnoreCase(tags[a].name, tags[b].name)
      ==> a == b
  }

  const DuplicateTagMessage := "Тег с таким именем уже существует в проекте"

  /** `create_tag`: a name equal up to case to one in the same project is a
      conflict; the colour argument defaults to the model's grey. */
  method CreateTag(db: Db, p: Id, name: string, color: Option<string>) returns (r: Result<Id, ServiceError>)
    requires db.Valid() && p in db.projects
    modifies db`tags, db`nextId
    ensures db.Valid()
    ensures TagNamesUnique(old(db.tags)) ==> TagNamesUnique(db.tags)
    ensures ExistsTagNameInProject(old(db.tags), p, name, None) ==>
      r.Err? && r.error.kind == Conflict && r.error.message == DuplicateTagMessage
    ensures !ExistsTagNameInProject(old(db.tags), p, name, None) <==> r.Ok?
    ensures r.Err? ==> db.tags == old(db.tags)
    ensures r.Ok? ==> r.value == old(db.nextId) && r.value !in old(db.tags)
    ensures r.Ok? ==> db.tags == old(db.tags)[r.value := Tag(p, name, if color.Some? then color.value else DefaultTagColor)]
  {
    if ExistsTagNameInProject(db.tags, p, name, None) {
      return Err(NewServiceError(Conflict, Some(DuplicateTagMessage), map[]));
    }
    var k := db.FreshId();
    var c := if color.Some? then color.value else DefaultTagColor;
    db.tags := db.tags[k := Tag(p, name, c)];
    r := Ok(k);
  }

  /** `update_tag`: the name check leaves the tag itself out, so keeping
      (or re-casing) its own name succeeds; a None argument changes nothing. */
  method UpdateTag(db: Db, k: Id, name: Option<string>, color: Option<string>) returns (r: Result<Tag, ServiceError>)
    requires db.Valid() && k in db.tags
    modifies db`tags
    ensures db.Valid()
    ensures TagNamesUnique(old(db.tags)) ==> TagNamesUnique(db.tags)
    ensures r.Err? <==> name.Some? && ExistsTagNameInProject(old(db.tags), old(db.tags)[k].projectId, name.value, Some(k))
    ensures r.Err? ==> r.error.kind == Conflict && db.tags == old(db.tags)
    ensures r.Ok? ==> r.value.projectId == old(db.tags)[k].projectId && db.tags == old(db.tags)[k := r.value]
    ensures r.Ok? ==> r.value.name == (if name.Some? then name.value else old(db.tags)[k].name)
    ensures r.Ok? ==> r.value.color == (if color.Some? then color.value else old(db.tags)[k].color)
  {
    var tag := db.tags[k];
    if name.Some? {
      if ExistsTagNameInProject(db.tags, tag.projectId, name.value, Some(k)) {
        return Err(NewServiceError(Conflict, Some(DuplicateTagMessage), map[]));
      }
      tag := tag.(name := name.value);
    }
    if color.Some? {
      tag := tag.(color := color.value);
    }
    db.tags := db.tags[k := tag];
    r := Ok(tag);
  }

  /** The task table once a tag is gone: the many-to-many rows go with it. */
  function DetachTag(tasks: map<Id, Task>, k: Id): (r: map<Id, Task>)
    ensures r.Keys == tasks.Keys
    ensures forall t :: t in r ==> k !in r[t].tags && r[t] == tasks[t].(tags := tasks[t].tags - {k})
  {
    map t | t in tasks :: tasks[t].(tags := tasks[t].tags - {k})
  }

  method DeleteTag(db: Db, k: Id)
    requires db.Valid() && k in db.tags
    modifies db`tags, db`tasks
    ensures db.Valid()
    ensures TagNamesUnique(old(db.tags)) ==> TagNamesUnique(db.tags)
    ensures db.tags == old(db.tags) - {k}
    ensures db.tasks == DetachTag(old(db.tasks), k)
  {
    db.tags := db.tags - {k};
    db.tasks := DetachTag(db.tasks, k);
  }

  // -------------------------------------------------------- set_task_tags

  /** No element of `s` is below `m`. */
  predicate IsLeast(s: set<Id>, m: Id)
  {
    forall q :: q in s ==> m <= q
  }

  /** The least element of a non-empty finite set of ids. */
  function MinOf(s: set<Id>): (m: Id)
    requires s != {}
    ensures m in s && forall q :: q in s ==> m <= q
  {
    MinExists(s);
    var m :| m in s && IsLeast(s, m);
    m
  }

  lemma {:induction false} MinExists(s: set<Id>)
    requires s != {}
    ensures exists m :: m in s && IsLeast(s, m)
    decreases |s|
  {
    var x :| x in s;
    var rest := s - {x};
    if rest == {} {
      assert IsLeast(s, x) by {
        forall q | q in s ensures x <= q {
          assert q !in rest;
        }
      }
    } else {
      MinExists(rest);
      var m :| m in rest && IsLeast(rest, m);
      var w := if x < m then x else m;
      assert w in s;
      assert IsLeast(s, w) by {
        forall q | q in s ensures w <= q {
          if q != x {
            assert q in rest;
          }
        }
      }
    }
  }

  /** The elements, ascending, joined by ", ". */
  function JoinAscending(s: set<Id>): string
    decreases |s|
  {
    if s == {} then ""
    else
      var m := MinOf(s);
      NatToString(m) + (if s == {m} then "" else ", " + JoinAscending(s - {m}))
  }

  /** `str()` of a set of ids: `{1, 5}`. */
  function SetRepr(s: set<Id>): string
  {
    "{" + JoinAscending(s) + "}"
  }

  const MissingTagsPrefix := "Теги не найдены: "
  const ForeignTagsMessage := "Некоторые теги не принадлежат проекту задачи"

  /** What `set_task_tags` decides for a task: the new tag set, or the first
      error its checks raise. */
  function TagsToSet(tags: map<Id, Tag>, project: Id, tagIds: seq<Id>): (r: Result<set<Id>, ServiceError>)
    ensures tagIds == [] ==> r == Ok({})
    ensures r.Ok? ==> forall k :: k in r.value <==> k in tagIds
    ensures r.Ok? <==> forall i :: 0 <= i < |tagIds| ==> tagIds[i] in tags && tags[tagIds[i]].projectId == project
    ensures r.Err? ==> r.error.kind == Validation
    ensures r.Err? && (exists i :: 0 <= i < |tagIds| && tagIds[i] !in tags) ==>
      r.error.message == MissingTagsPrefix + SetRepr(MissingIds(tags, tagIds))
    ensures r.Err? && (forall i :: 0 <= i < |tagIds| ==> tagIds[i] in tags) ==> r.error.message == ForeignTagsMessage
  {
    var unique := IdSet(tagIds);
    var missing := MissingIds(tags, tagIds);
    if tagIds == [] then Ok({})
    else if missing != {} then Err(NewServiceError(Validation, Some(MissingTagsPrefix + SetRepr(missing)), map[]))
    else if exists k :: k in tagIds && k in tags && tags[k].projectId != project then
      Err(NewServiceError(Validation, Some(ForeignTagsMessage), map[]))
    else Ok(unique)
  }

  /** The distinct ids of a list. */
  function IdSet(ids: seq<Id>): (r: set<Id>)
    ensures forall k :: k in r <==> k in ids
  {
    set k | k in ids
  }

  /** The distinct ids of the list that name no tag. */
  function MissingIds(tags: map<Id, Tag>, tagIds: seq<Id>): (missing: set<Id>)
    ensures missing == {} <==> forall i :: 0 <= i < |tagIds| ==> tagIds[i] in tags
  {
    var missing := set k | k in tagIds && k !in tags;
    if exists i :: 0 <= i < |tagIds| && tagIds[i] !in tags then
      var i :| 0 <= i < |tagIds| && tagIds[i] !in tags;
      assert tagIds[i] in missing;
      missing
    else
      missing
  }

  /** The empty list clears; otherwise the stored set is the list's set, so
      repetitions and order in the list make no difference. */
  lemma TagsToSetLaws(tags: map<Id, Tag>, project: Id, tagIds: seq<Id>, others: seq<Id>)
    requires forall k :: k in tagIds <==> k in others
    ensures TagsToSet(tags, project, []) == Ok({})
    ensures tagIds != [] && others != [] ==> TagsToSet(tags, project, tagIds) == TagsToSet(tags, project, others)
  {
    assert IdSet(tagIds) == IdSet(others);
    assert MissingIds(tags, tagIds) == MissingIds(tags, others);
    if exists k :: k in tagIds && k in tags && tags[k].projectId != project {
      var k :| k in tagIds && k in tags && tags[k].projectId != project;
      assert k in others;
    }
    if exists k :: k in others && k in tags && tags[k].projectId != project {
      var k :| k in others && k in tags && tags[k].projectId != project;
      assert k in tagIds;
    }
  }

  /** A missing tag costs the difference in count that `set_task_tags`
      compares: the found tags are fewer than the distinct ids exactly when
      some id is unknown. */
  lemma FoundCount(tags: map<Id, Tag>, unique: set<Id>)
    ensures |FilterByIds(tags, unique)| == |unique| <==> forall k :: k in unique ==> k in tags
  {
    var found := FilterByIds(tags, unique);
    if forall k :: k in unique ==> k in tags {
      assert found == unique;
    } else {
      var k :| k in unique && k !in tags;
      assert found <= unique - {k};
      CardMono(found, unique - {k});
    }
  }

  method SetTaskTags(db: Db, t: Id, tagIds: seq<Id>, updatedBy: Option<Id>) returns (r: Result<Task, ServiceError>)
    requires db.Valid() && t in db.tasks
    modifies db`tasks, db`pending
    ensures db.Valid()
    ensures var d := TagsToSet(old(db.tags), old(db.tasks)[t].projectId, tagIds);
      (d.Err? ==> r.Err? && r.error == d.error && db.tasks == old(db.tasks) && db.pending == old(db.pending))
      && (d.Ok? ==>
            r.Ok? && r.value == old(db.tasks)[t].(tags := d.value) && db.tasks == old(db.tasks)[t := r.value]
            && db.pending == old(db.pending) + Enqueues(if updatedBy.Some? then [Broadcast(TaskTagsChanged(t, updatedBy.value))] else []))
  {
    var task := db.tasks[t];
    if |tagIds| == 0 {
      task := task.(tags := {});
    } else {
      var unique := IdSet(tagIds);
      var found := FilterByIds(db.tags, unique);
      FoundCount(db.tags, unique);
      if |found| != |unique| {
        var missing := unique - found;
        assert missing == MissingIds(db.tags, tagIds);
        return Err(NewServiceError(Validation, Some(MissingTagsPrefix + SetRepr(missing)), map[]));
      }
      var rest := found;
      while rest != {}
        invariant rest <= found
        invariant forall k :: k in found - rest ==> db.tags[k].projectId == task.projectId
        decreases |rest|
      {
        var k :| k in rest;
        if db.tags[k].projectId != task.projectId {
          return Err(NewServiceError(Validation, Some(ForeignTagsMessage), map[]));
        }
        rest := rest - {k};
      }
      task := task.(tags := found);
    }
    db.tasks := db.tasks[t := task];
    if updatedBy.Some? {
      db.pending := db.pending + [Enqueue(Broadcast(TaskTagsChanged(t, updatedBy.value)))];
    }
    r := Ok(task);
  }
}
