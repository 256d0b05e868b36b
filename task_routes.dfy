/** The four task handlers of the REST API: list, create, update and
    delete, over a store of tasks keyed by identifier. The requester's
    identifier is the one the authentication middleware resolved. */
module TaskRoutes {
  import opened Common
  import opened TaskModel

  // ---------------------------------------------------------------------
  // Listing order and the list query
  // ---------------------------------------------------------------------

  /** `a` may be listed before `b`: priority tasks first, then later
      `date` first, then later `createdAt` first (ties in all three keys
      may come in either order). */
  predicate ListedBefore(a: Task, b: Task)
  {
    if a.isPriority != b.isPriority then a.isPriority
    else if a.date != b.date then a.date > b.date
    else a.createdAt >= b.createdAt
  }

  predicate Sorted(s: seq<Task>)
  {
    forall i, j :: 0 <= i < j < |s| ==> ListedBefore(s[i], s[j])
  }

  /** No two tasks of `s` are the same document. */
  predicate DistinctIds(s: seq<Task>)
  {
    forall i, j :: 0 <= i < j < |s| ==> s[i].id != s[j].id
  }

  /** Every stored task sits under its own identifier. */
  predicate IdsMatch(store: map<Id, Task>)
  {
    forall k :: k in store ==> store[k].id == k
  }

  lemma ListedBeforeIsTotalPreorder(a: Task, b: Task, c: Task)
    ensures ListedBefore(a, b) || ListedBefore(b, a)
    ensures ListedBefore(a, b) && ListedBefore(b, c) ==> ListedBefore(a, c)
  {
  }

  /** `t` placed into the listing `s` at its place in listing order. */
  function Insert(t: Task, s: seq<Task>): (r: seq<Task>)
    ensures |r| == |s| + 1
    ensures multiset(r) == multiset(s) + multiset{t}
  {
    if s == [] || ListedBefore(t, s[0]) then [t] + s
    else
      assert s == [s[0]] + s[1..];
      [s[0]] + Insert(t, s[1..])
  }

  /** Every element of `Insert(t, s)` is `t` or an element of `s`. */
  lemma InsertFrom(t: Task, s: seq<Task>, u: Task)
    requires u in Insert(t, s)
    ensures u == t || u in s
  {
    assert u in multiset(Insert(t, s));
  }

  lemma {:induction false} InsertKeepsSorted(t: Task, s: seq<Task>)
    requires Sorted(s)
    ensures Sorted(Insert(t, s))
  {
    var r := Insert(t, s);
    if s == [] {
    } else if ListedBefore(t, s[0]) {
      forall j | 1 <= j < |r| ensures ListedBefore(t, r[j]) {
        ListedBeforeIsTotalPreorder(t, s[0], r[j]);
      }
    } else {
      var rest := Insert(t, s[1..]);
      InsertKeepsSorted(t, s[1..]);
      assert r == [s[0]] + rest;
      forall j | 0 <= j < |rest| ensures ListedBefore(s[0], rest[j]) {
        InsertFrom(t, s[1..], rest[j]);
        ListedBeforeIsTotalPreorder(s[0], t, t);
      }
    }
  }

  lemma {:induction false} InsertKeepsDistinct(t: Task, s: seq<Task>)
    requires DistinctIds(s)
    requires forall u :: u in s ==> u.id != t.id
    ensures DistinctIds(Insert(t, s))
  {
    if s != [] && !ListedBefore(t, s[0]) {
      var rest := Insert(t, s[1..]);
      InsertKeepsDistinct(t, s[1..]);
      forall j | 0 <= j < |rest| ensures rest[j].id != s[0].id {
        InsertFrom(t, s[1..], rest[j]);
      }
    }
  }

  /** The owner's tasks among the identifiers below `n`, placed one by one
      into listing order. */
  function Query(store: map<Id, Task>, owner: Id, n: nat): (r: seq<Task>)
    ensures forall t :: t in r ==> t.userId == owner && exists k :: k < n && k in store && store[k] == t
    ensures forall k :: k < n && k in store && store[k].userId == owner ==> store[k] in r
  {
    if n == 0 then []
    else
      var rest := Query(store, owner, n - 1);
      if n - 1 in store && store[n - 1].userId == owner then
        var r := Insert(store[n - 1], rest);
        assert forall t :: t in r ==> t == store[n - 1] || t in rest by {
          forall t | t in r ensures t == store[n - 1] || t in rest {
            InsertFrom(store[n - 1], rest, t);
          }
        }
        assert store[n - 1] in multiset(r);
        assert forall t :: t in rest ==> t in multiset(r);
        r
      else rest
  }

  lemma {:induction false} QuerySorted(store: map<Id, Task>, owner: Id, n: nat)
    ensures Sorted(Query(store, owner, n))
  {
    if n > 0 {
      QuerySorted(store, owner, n - 1);
      if n - 1 in store && store[n - 1].userId == owner {
        InsertKeepsSorted(store[n - 1], Query(store, owner, n - 1));
      }
    }
  }

  lemma {:induction false} QueryDistinct(store: map<Id, Task>, owner: Id, n: nat)
    requires IdsMatch(store)
    ensures DistinctIds(Query(store, owner, n))
    ensures forall t :: t in Query(store, owner, n) ==> t.id < n
  {
    if n > 0 {
      QueryDistinct(store, owner, n - 1);
      var rest := Query(store, owner, n - 1);
      if n - 1 in store && store[n - 1].userId == owner {
        InsertKeepsDistinct(store[n - 1], rest);
        forall t | t in Query(store, owner, n) ensures t.id < n {
          InsertFrom(store[n - 1], rest, t);
        }
      }
    }
  }

  // ---------------------------------------------------------------------
  // The ownership guard and the handlers' replies
  // ---------------------------------------------------------------------

  /** What the guard of update and delete decides about a requester and a
      task identifier. */
  datatype Access = Allowed | NotFound | Forbidden

  /** Lookup first (404), then owner comparison (403). */
  function Authorize(store: map<Id, Task>, requester: Id, id: Id): (a: Access)
    ensures a == NotFound <==> id !in store
    ensures a == Forbidden <==> id in store && store[id].userId != requester
    ensures a == Allowed <==> id in store && store[id].userId == requester
  {
    if id !in store then NotFound
    else if store[id].userId != requester then Forbidden
    else Allowed
  }

  function DeniedStatus(a: Access): nat
  {
    if a == NotFound then 404 else 403
  }

  /** A handler's status code, the task it answers with (if any) and the
      store after the request. */
  datatype Reply = Reply(status: nat, task: Option<Task>, store: map<Id, Task>)

  /** The document that POST / passes to the store: owner from the
      requester, the title as given, `date || now`, `font_style || 'Inter'`,
      `font_color || '#000000'` and `flag || false` for the three style flags.
      Every other field of the body, `user_id` included, is not read. */
  function CreateFields(requester: Id, body: TaskFields, now: int): TaskFields
  {
    NoFields.(
      userId := Some(requester),
      title := body.title,
      date := Some(body.date.GetOr(now)),
      fontStyle := Some(OrElse(body.fontStyle, DefaultFontStyle)),
      fontColor := Some(OrElse(body.fontColor, DefaultFontColor)),
      isBold := Some(OrFalse(body.isBold)),
      isItalic := Some(OrFalse(body.isItalic)),
      isUnderline := Some(OrFalse(body.isUnderline)))
  }

  /** POST /: reject a falsy title with 400; otherwise store a new task
      under the new identifier and answer 201 with it. */
  function Post(store: map<Id, Task>, newId: Id, requester: Id, body: TaskFields, now: int): (r: Reply)
    requires newId !in store
    ensures !Truthy(body.title) ==> r == Reply(400, None, store)
    ensures Truthy(body.title) ==> r.status == 201 && r.task.Some?
    ensures r.task.Some? ==>
              var t := r.task.value;
              && r.store == store[newId := t]
              && t.id == newId && t.userId == requester
              && t.title == body.title.value
              && !t.isCompleted && !t.isPriority
              && t.date == body.date.GetOr(now)
              && t.fontStyle == OrElse(body.fontStyle, DefaultFontStyle)
              && t.fontColor == OrElse(body.fontColor, DefaultFontColor)
              && t.isBold == OrFalse(body.isBold)
              && t.isItalic == OrFalse(body.isItalic)
              && t.isUnderline == OrFalse(body.isUnderline)
              && t.createdAt == now && t.updatedAt == now
  {
    if !Truthy(body.title) then Reply(400, None, store)
    else
      var t := NewTask(CreateFields(requester, body, now), newId, now).value;
      Reply(201, Some(t), store[newId := t])
  }

  /** PUT /:id: 404 for an unknown identifier, 403 for a task of another
      owner, otherwise the body is merged into that task (unrestricted:
      it may even carry a new `user_id`) and the merged task is returned. */
  function Put(store: map<Id, Task>, requester: Id, id: Id, body: TaskFields, now: int): (r: Reply)
    ensures id !in store ==> r == Reply(404, None, store)
    ensures id in store && store[id].userId != requester ==> r == Reply(403, None, store)
    ensures r.status == 200 <==> id in store && store[id].userId == requester
    ensures r.status != 200 ==> r.store == store && r.task.None?
    ensures r.status == 200 ==>
              && r.store.Keys == store.Keys
              && r.task == Some(r.store[id])
              && Agrees(body, r.store[id]) && KeepsAbsent(body, store[id], r.store[id])
              && r.store[id].id == store[id].id && r.store[id].createdAt == store[id].createdAt
              && r.store[id].updatedAt == now
    ensures forall k :: k in store && k != id ==> k in r.store && r.store[k] == store[k]
    ensures forall k :: k in store && store[k].userId != requester ==> k in r.store && r.store[k] == store[k]
  {
    var access := Authorize(store, requester, id);
    if access != Allowed then Reply(DeniedStatus(access), None, store)
    else
      var merged := Merge(store[id], body, now);
      Reply(200, Some(merged), store[id := merged])
  }

  /** DELETE /:id: the same guard as PUT, then the task is removed. */
  function Delete(store: map<Id, Task>, requester: Id, id: Id): (r: Reply)
    ensures id !in store ==> r == Reply(404, None, store)
    ensures id in store && store[id].userId != requester ==> r == Reply(403, None, store)
    ensures r.status == 200 <==> id in store && store[id].userId == requester
    ensures r.status != 200 ==> r.store == store
    ensures r.status == 200 ==> r.store == store - {id}
    ensures r.task.None?
    ensures forall k :: k in store && store[k].userId != requester ==> k in r.store && r.store[k] == store[k]
  {
    var access := Authorize(store, requester, id);
    if access != Allowed then Reply(DeniedStatus(access), None, store)
    else Reply(200, None, store - {id})
  }

  /** Whatever the body, a requester who does not own a task can neither
      update nor delete it, and the store stays as it was. */
  lemma {:induction false} NonOwnerIsForbidden(store: map<Id, Task>, requester: Id, id: Id, body: TaskFields, now: int)
    requires id in store && store[id].userId != requester
    ensures Put(store, requester, id, body, now).status == 403
    ensures Delete(store, requester, id).status == 403
    ensures Put(store, requester, id, body, now).store == store
    ensures Delete(store, requester, id).store == store
  {
  }

  /** An owner's update can hand the task over to another user: the merge
      has no allow-list, so a `user_id` in the body is stored. */
  lemma OwnerUpdateCanReassign(store: map<Id, Task>, owner: Id, other: Id, id: Id, now: int)
    requires id in store && store[id].userId == owner
    ensures var r := Put(store, owner, id, NoFields.(userId := Some(other)), now);
            r.status == 200 && r.store[id].userId == other
  {
  }

  /** Creation ignores a `user_id`, `is_completed` or `is_priority` in the
      body: two bodies that differ only there create the same task. */
  lemma CreateIgnoresUnreadFields(store: map<Id, Task>, newId: Id, requester: Id, body: TaskFields, owner: Id, now: int)
    requires newId !in store
    ensures Post(store, newId, requester, body.(userId := Some(owner), isCompleted := Some(true), isPriority := Some(true)), now)
         == Post(store, newId, requester, body.(userId := None, isCompleted := None, isPriority := None), now)
  {
  }

  // ---------------------------------------------------------------------
  // The Task collection
  // ---------------------------------------------------------------------

  /** The Task collection of the document store, updated in place by the
      handlers. `nextId` is the identifier the store hands out next. */
  class TaskCollection {
    var tasks: map<Id, Task>
    var nextId: Id

    ghost predicate Valid()
      reads this
    {
      IdsMatch(tasks) && forall k :: k in tasks ==> k < nextId
    }

    constructor ()
      ensures Valid() && tasks == map[] && nextId == 0
    {
      tasks := map[];
      nextId := 0;
    }

    /** GET /: always 200, with exactly the requester's tasks, each once,
        in listing order. */
    function List(requester: Id): (r: seq<Task>)
      reads this
      requires Valid()
      ensures Sorted(r) && DistinctIds(r)
      ensures forall t :: t in r <==> t in tasks.Values && t.userId == requester
    {
      var r := Query(tasks, requester, nextId);
      QuerySorted(tasks, requester, nextId);
      QueryDistinct(tasks, requester, nextId);
      assert forall t :: t in tasks.Values && t.userId == requester ==> t in r by {
        forall t | t in tasks.Values && t.userId == requester ensures t in r {
          var k :| k in tasks && tasks[k] == t;
        }
      }
      r
    }

    /** POST /. */
    method Create(requester: Id, body: TaskFields, now: int) returns (status: nat, created: Option<Task>)
      requires Valid()
      modifies this
      ensures Valid()
      ensures var r := Post(old(tasks), old(nextId), requester, body, now);
              status == r.status && created == r.task && tasks == r.store
      ensures status != 201 ==> nextId == old(nextId)
    {
      if !Truthy(body.title) {
        return 400, None;
      }
      var t := NewTask(CreateFields(requester, body, now), nextId, now).value;
      tasks := tasks[nextId := t];
      nextId := nextId + 1;
      status, created := 201, Some(t);
    }

    /** PUT /:id. */
    method Update(requester: Id, id: Id, body: TaskFields, now: int) returns (status: nat, updated: Option<Task>)
      requires Valid()
      modifies this
      ensures Valid() && nextId == old(nextId)
      ensures var r := Put(old(tasks), requester, id, body, now);
              status == r.status && updated == r.task && tasks == r.store
    {
      if id !in tasks {
        return 404, None;
      }
      var found := tasks[id];
      if found.userId != requester {
        return 403, None;
      }
      var merged := Merge(found, body, now);
      tasks := tasks[id := merged];
      status, updated := 200, Some(merged);
    }

    /** DELETE /:id. */
    method Remove(requester: Id, id: Id) returns (status: nat)
      requires Valid()
      modifies this
      ensures Valid() && nextId == old(nextId)
      ensures var r := Delete(old(tasks), requester, id);
              status == r.status && tasks == r.store
    {
      if id !in tasks {
        return 404;
      }
      if tasks[id].userId != requester {
        return 403;
      }
      tasks := tasks - {id};
      status := 200;
    }
  }

  /** User A creates a task; user B may not update it; A may. */
  method OwnershipScenario(a: Id, b: Id, now: int)
    requires a != b
  {
    var store := new TaskCollection();
    var status, created := store.Create(a, NoFields.(title := Some("buy milk")), now);
    assert status == 201 && created.Some?;
    var id := created.value.id;
    var edit := NoFields.(isCompleted := Some(true));
    var updated;
    status, updated := store.Update(b, id, edit, now + 1);
    assert status == 403;
    status, updated := store.Update(a, id, edit, now + 1);
    assert status == 200 && store.tasks[id].isCompleted;
  }
}
