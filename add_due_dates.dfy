/**
 * The maintenance script that gives every task without a due date one a week
 * from now, one `update` per selected row.
 */
module AddDueDates {
  import opened Wrappers
  import opened TaskModel
  import opened TasksRoute
  import opened EventsRoute

  const MsPerDay: int := 86_400_000

  /** `setDate(getDate() + 7)` on the current time, without daylight-saving shifts. */
  function OneWeekFrom(now: Timestamp): (r: Timestamp)
    ensures r > now
  {
    now + 7 * MsPerDay
  }

  /** The table after the script: rows without a due date get `due`, the others stay as they were. */
  function Backfilled(tasks: seq<Task>, due: Timestamp): (r: seq<Task>)
    ensures |r| == |tasks|
    ensures forall k :: 0 <= k < |tasks| ==> r[k].dueDate.Some?
    ensures forall k :: 0 <= k < |tasks| ==> tasks[k].dueDate.Some? ==> r[k] == tasks[k]
    ensures forall k :: 0 <= k < |tasks| ==> tasks[k].dueDate.None? ==> r[k] == tasks[k].(dueDate := Some(due))
  {
    seq(|tasks|, k requires 0 <= k < |tasks| =>
      if tasks[k].dueDate.None? then tasks[k].(dueDate := Some(due)) else tasks[k])
  }

  /** The table after the rows whose ids are in `ids` have been given `due`. */
  ghost function MarkedDue(tasks: seq<Task>, ids: set<string>, due: Timestamp): (r: seq<Task>)
    ensures |r| == |tasks|
    ensures forall k :: 0 <= k < |tasks| ==>
      r[k] == if tasks[k].id in ids then tasks[k].(dueDate := Some(due)) else tasks[k]
  {
    seq(|tasks|, k requires 0 <= k < |tasks| =>
      if tasks[k].id in ids then tasks[k].(dueDate := Some(due)) else tasks[k])
  }

  /** One more `update` by id extends the set of updated ids by that id. */
  lemma {:induction false} MarkedDueStep(tasks: seq<Task>, ids: set<string>, id: string, due: Timestamp, after: seq<Task>)
    requires |after| == |tasks|
    requires forall k :: 0 <= k < |after| ==>
      after[k] == if MarkedDue(tasks, ids, due)[k].id == id then MarkedDue(tasks, ids, due)[k].(dueDate := Some(due)) else MarkedDue(tasks, ids, due)[k]
    ensures after == MarkedDue(tasks, ids + {id}, due)
  {
  }

  lemma {:induction false} IdsSnoc(rows: seq<Task>, i: nat)
    requires i < |rows|
    ensures Ids(rows[..i + 1]) == Ids(rows[..i]) + {rows[i].id}
  {
    assert rows[..i + 1] == rows[..i] + [rows[i]];
  }

  /** In a table with distinct ids, the ids the script selects are exactly those of the rows without a due date. */
  lemma {:induction false} SelectedIds(tasks: seq<Task>, due: Timestamp)
    requires DistinctIds(tasks)
    ensures MarkedDue(tasks, Ids(NullDueTasks(tasks)), due) == Backfilled(tasks, due)
  {
    var selected := NullDueTasks(tasks);
    forall k | 0 <= k < |tasks|
      ensures tasks[k].id in Ids(selected) <==> tasks[k].dueDate.None?
    {
      if tasks[k].dueDate.None? {
        assert tasks[k] in selected;
        var j :| 0 <= j < |selected| && selected[j] == tasks[k];
        assert tasks[k].id == selected[j].id;
      }
    }
  }

  /** The script, run against a store: it updates the selected rows one by one and reports how many it selected. */
  method AddDueDates(store: TaskStore, now: Timestamp) returns (updated: nat)
    requires store.Valid()
    modifies store`tasks
    ensures store.Valid()
    ensures store.tasks == Backfilled(old(store.tasks), OneWeekFrom(now))
    ensures updated == |NullDueTasks(old(store.tasks))|
  {
    var toUpdate := store.NullDueRows();
    var due := OneWeekFrom(now);
    ghost var before := store.tasks;
    for i := 0 to |toUpdate|
      invariant store.Valid()
      invariant store.tasks == MarkedDue(before, Ids(toUpdate[..i]), due)
    {
      IdsSnoc(toUpdate, i);
      var _ := store.SetDueDate(toUpdate[i].id, due);
      MarkedDueStep(before, Ids(toUpdate[..i]), toUpdate[i].id, due, store.tasks);
    }
    assert toUpdate[..|toUpdate|] == toUpdate;
    SelectedIds(before, due);
    updated := |toUpdate|;
  }

  /** After the script no row is selected by its query, so a second run updates nothing. */
  lemma {:induction false} BackfillLeavesNoNull(tasks: seq<Task>, due: Timestamp)
    ensures NullDueTasks(Backfilled(tasks, due)) == []
  {
    var r := Backfilled(tasks, due);
    if NullDueTasks(r) != [] {
      assert NullDueTasks(r)[0] in NullDueTasks(r);
      assert false;
    }
  }

  /** Running the script twice leaves the table as one run does, whatever the second run's date. */
  lemma {:induction false} BackfillIdempotent(tasks: seq<Task>, due: Timestamp, later: Timestamp)
    ensures Backfilled(Backfilled(tasks, due), later) == Backfilled(tasks, due)
  {
  }

  /** After the script every task sits on the calendar at its due date: the one it had, or the new one. */
  lemma {:induction false} EventsAfterBackfill(tasks: seq<Task>, due: Timestamp)
    ensures forall k :: 0 <= k < |tasks| ==>
      CalendarEvents(Backfilled(tasks, due))[k].start == if tasks[k].dueDate.Some? then tasks[k].dueDate.value else due
  {
  }
}
