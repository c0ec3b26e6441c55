/**
 * The active-tasks page: the fetched task list split into active and
 * completed tasks, and the requests the "complete" action sends.
 */
module ActivePage {
  import opened Wrappers
  import opened JsonValue
  import opened TaskModel

  /** `acc.activeTasks` after the `reduce`: the tasks not COMPLETED, in list order. */
  function ActiveOf(tasks: seq<Task>): seq<Task> {
    if tasks == [] then []
    else
      var last := tasks[|tasks| - 1];
      ActiveOf(tasks[..|tasks| - 1]) + (if last.status != Completed then [last] else [])
  }

  /** `acc.completedTasks` after the `reduce`: the COMPLETED tasks, in list order. */
  function CompletedOf(tasks: seq<Task>): seq<Task> {
    if tasks == [] then []
    else
      var last := tasks[|tasks| - 1];
      CompletedOf(tasks[..|tasks| - 1]) + (if last.status == Completed then [last] else [])
  }

  /** The `reduce`: each task pushed onto exactly one of the two lists. */
  method PartitionTasks(tasks: seq<Task>) returns (active: seq<Task>, completed: seq<Task>)
    ensures active == ActiveOf(tasks)
    ensures completed == CompletedOf(tasks)
  {
    active, completed := [], [];
    for i := 0 to |tasks|
      invariant active == ActiveOf(tasks[..i])
      invariant completed == CompletedOf(tasks[..i])
    {
      assert tasks[..i + 1][..i] == tasks[..i];
      if tasks[i].status == Completed {
        completed := completed + [tasks[i]];
      } else {
        active := active + [tasks[i]];
      }
    }
    assert tasks[..|tasks|] == tasks;
  }

  /** No task is lost or counted twice: the two lists together are the fetched list. */
  lemma {:induction false} PartitionIsPermutation(tasks: seq<Task>)
    ensures multiset(ActiveOf(tasks)) + multiset(CompletedOf(tasks)) == multiset(tasks)
    ensures |ActiveOf(tasks)| + |CompletedOf(tasks)| == |tasks|
  {
    if tasks != [] {
      var init := tasks[..|tasks| - 1];
      var last := tasks[|tasks| - 1];
      PartitionIsPermutation(init);
      assert tasks == init + [last];
      PartitionSnoc(init, last);
    }
  }

  /** A task is in the completed list exactly when it is COMPLETED, and in the active list otherwise. */
  lemma {:induction false} PartitionMembers(tasks: seq<Task>)
    ensures forall t :: t in ActiveOf(tasks) <==> t in tasks && t.status != Completed
    ensures forall t :: t in CompletedOf(tasks) <==> t in tasks && t.status == Completed
  {
    if tasks != [] {
      var init := tasks[..|tasks| - 1];
      var last := tasks[|tasks| - 1];
      PartitionMembers(init);
      assert tasks == init + [last];
      assert forall t :: t in tasks <==> t in init || t == last;
    }
  }

  /** The split of a concatenation is the concatenation of the splits: relative order is kept in each list. */
  lemma {:induction false} PartitionAppend(a: seq<Task>, b: seq<Task>)
    ensures ActiveOf(a + b) == ActiveOf(a) + ActiveOf(b)
    ensures CompletedOf(a + b) == CompletedOf(a) + CompletedOf(b)
  {
    ActiveOfAppend(a, b);
    CompletedOfAppend(a, b);
  }

  /** One more task at the end adds it to the list its status selects. */
  lemma {:induction false} PartitionSnoc(s: seq<Task>, t: Task)
    ensures ActiveOf(s + [t]) == ActiveOf(s) + (if t.status != Completed then [t] else [])
    ensures CompletedOf(s + [t]) == CompletedOf(s) + (if t.status == Completed then [t] else [])
  {
    var st := s + [t];
    assert st[..|st| - 1] == s;
  }

  lemma {:induction false} ActiveOfAppend(a: seq<Task>, b: seq<Task>)
    ensures ActiveOf(a + b) == ActiveOf(a) + ActiveOf(b)
  {
    if b == [] {
      assert a + b == a;
    } else {
      var init := b[..|b| - 1];
      var last := b[|b| - 1];
      var keep: seq<Task> := if last.status != Completed then [last] else [];
      calc {
        ActiveOf(a + b);
        { assert a + b == (a + init) + [last]; }
        ActiveOf((a + init) + [last]);
        { PartitionSnoc(a + init, last); }
        ActiveOf(a + init) + keep;
        { ActiveOfAppend(a, init); }
        (ActiveOf(a) + ActiveOf(init)) + keep;
        ActiveOf(a) + (ActiveOf(init) + keep);
        { assert b == init + [last]; PartitionSnoc(init, last); }
        ActiveOf(a) + ActiveOf(b);
      }
    }
  }

  lemma {:induction false} CompletedOfAppend(a: seq<Task>, b: seq<Task>)
    ensures CompletedOf(a + b) == CompletedOf(a) + CompletedOf(b)
  {
    if b == [] {
      assert a + b == a;
    } else {
      var init := b[..|b| - 1];
      var last := b[|b| - 1];
      var keep: seq<Task> := if last.status == Completed then [last] else [];
      calc {
        CompletedOf(a + b);
        { assert a + b == (a + init) + [last]; }
        CompletedOf((a + init) + [last]);
        { PartitionSnoc(a + init, last); }
        CompletedOf(a + init) + keep;
        { CompletedOfAppend(a, init); }
        (CompletedOf(a) + CompletedOf(init)) + keep;
        CompletedOf(a) + (CompletedOf(init) + keep);
        { assert b == init + [last]; PartitionSnoc(init, last); }
        CompletedOf(a) + CompletedOf(b);
      }
    }
  }

  /** A request the page sends. */
  datatype Request = Request(verb: string, url: string, body: Option<Json>)

  /**
   * `handleCompleteTask(id)`: a PATCH setting the status to COMPLETED, then a
   * fresh GET of the list whatever the PATCH's status, unless the PATCH
   * itself throws.
   */
  function CompleteTaskRequests(taskId: string, patchThrows: bool): (r: seq<Request>)
    ensures |r| >= 1 && r[0].verb == "PATCH" && r[0].url == "/api/tasks/" + taskId
    ensures r[0].body == Some(JObject([("status", JString(StatusName(Completed)))]))
    ensures |r| == 2 <==> !patchThrows
    ensures !patchThrows ==> r[1] == Request("GET", "/api/tasks", None)
  {
    var patch := Request("PATCH", "/api/tasks/" + taskId, Some(JObject([("status", JString("COMPLETED"))])));
    if patchThrows then [patch] else [patch, Request("GET", "/api/tasks", None)]
  }

  /**
   * A task whose status the PATCH set as asked is shown, once the list is
   * fetched again, in the completed list and not in the active one.
   */
  lemma {:induction false} PatchedTaskListedCompleted(taskId: string, patchThrows: bool, tasks: seq<Task>, t: Task)
    requires t in tasks && t.id == taskId
    requires Get(CompleteTaskRequests(taskId, patchThrows)[0].body.value, "status") == Some(JString(StatusName(t.status)))
    ensures t in CompletedOf(tasks) && t !in ActiveOf(tasks)
  {
    assert StatusName(t.status) == "COMPLETED";
    PartitionMembers(tasks);
  }

  /** The page's state: the last list fetched. */
  class ActiveTasksPage {
    var tasks: seq<Task>

    constructor()
      ensures tasks == []
    {
      tasks := [];
    }

    /** `fetchTasks` settling: a non-ok response throws before `setTasks`, so the old list stays. */
    method TasksFetched(ok: bool, rows: seq<Task>)
      modifies this
      ensures tasks == if ok then rows else old(tasks)
    {
      if ok {
        tasks := rows;
      }
    }

    /** The two lists rendered from the current state. */
    method Lists() returns (active: seq<Task>, completed: seq<Task>)
      ensures active == ActiveOf(tasks) && completed == CompletedOf(tasks)
      ensures multiset(active) + multiset(completed) == multiset(tasks)
      ensures forall t :: t in active <==> t in tasks && t.status != Completed
      ensures forall t :: t in completed <==> t in tasks && t.status == Completed
    {
      active, completed := PartitionTasks(tasks);
      PartitionIsPermutation(tasks);
      PartitionMembers(tasks);
    }
  }
}
