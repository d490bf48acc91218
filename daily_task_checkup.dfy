/**
 * The `daily-task:checkup` console command
 * (app/Console/Commands/DailyTaskCheckup.php): every pending task whose
 * start date is today is moved to in progress, one row at a time.
 * `Swept` and `Handle` are the sweep over a snapshot of the pending rows;
 * `ChunkedSweepFrom` is the paging Eloquent's `each` actually does, under
 * which a single run can leave due tasks pending.
 */
module DailyTaskCheckup {
  import opened TaskRecords

  /**
   * `Carbon::parse($task->start_date)->isToday()` (DailyTaskCheckup.php:43),
   * with dates as day numbers; stated through `Advanced`.
   */
  predicate StartsOn(t: Task, today: int)
  {
    Attr(t, "start_date") == Date(today)
  }

  /** What the sweep does to one task: a pending task starting today becomes in progress. */
  function Advanced(t: Task, today: int): (r: Task)
    ensures r.id == t.id && r.attrs.Keys == t.attrs.Keys
    ensures forall k :: k != "status" ==> Attr(r, k) == Attr(t, k)
    ensures HasStatus(t, PENDING) && StartsOn(t, today) ==> HasStatus(r, IN_PROGRESS)
    ensures !(HasStatus(t, PENDING) && StartsOn(t, today)) ==> r == t
    ensures !(HasStatus(r, PENDING) && StartsOn(r, today))
  {
    assert IN_PROGRESS[0] != PENDING[0];
    if HasStatus(t, PENDING) && StartsOn(t, today) then t.(attrs := t.attrs["status" := Text(IN_PROGRESS)])
    else t
  }

  /** The table after a sweep on day `today`. */
  function Swept(rows: map<nat, Task>, today: int): (r: map<nat, Task>)
    ensures r.Keys == rows.Keys
    ensures forall id :: id in rows ==> r[id].id == rows[id].id
    ensures forall id :: id in rows ==> !(HasStatus(r[id], PENDING) && StartsOn(r[id], today))
  {
    map id | id in rows :: Advanced(rows[id], today)
  }

  /**
   * `handle` (DailyTaskCheckup.php:40-50): the query selects the pending
   * rows; each one starting today gets status in_progress and is saved.
   * The command returns true.
   */
  method Handle(table: TaskTable, today: int) returns (done: bool)
    modifies table
    ensures table.rows == Swept(old(table.rows), today)
    ensures done
  {
    var pending := set id | id in table.rows && HasStatus(table.rows[id], PENDING);
    var left := pending;
    while left != {}
      invariant left <= pending
      invariant table.rows.Keys == old(table.rows).Keys
      invariant forall id :: id in table.rows ==>
        table.rows[id] == if id in left then old(table.rows)[id] else Advanced(old(table.rows)[id], today)
      decreases left
    {
      var id :| id in left;
      var task := table.rows[id];
      if StartsOn(task, today) {
        task := task.(attrs := task.attrs["status" := Text(IN_PROGRESS)]);
        table.rows := table.rows[id := task];
      }
      left := left - {id};
    }
    return true;
  }

  /** Every pending task starting today is in progress afterwards. */
  lemma DueTasksStart(rows: map<nat, Task>, today: int, id: nat)
    requires id in rows && HasStatus(rows[id], PENDING) && StartsOn(rows[id], today)
    ensures id in Swept(rows, today) && HasStatus(Swept(rows, today)[id], IN_PROGRESS)
  {
  }

  /** A task that is not pending, or does not start today, is left exactly as it was. */
  lemma OtherTasksUntouched(rows: map<nat, Task>, today: int, id: nat)
    requires id in rows && !(HasStatus(rows[id], PENDING) && StartsOn(rows[id], today))
    ensures id in Swept(rows, today) && Swept(rows, today)[id] == rows[id]
  {
  }

  /** The sweep adds and removes no row, and changes nothing but a row's status. */
  lemma OnlyStatusChanges(rows: map<nat, Task>, today: int)
    ensures Swept(rows, today).Keys == rows.Keys
    ensures forall id :: id in rows ==>
      && Swept(rows, today)[id].id == rows[id].id
      && Swept(rows, today)[id].attrs.Keys == rows[id].attrs.Keys
      && (forall k :: k in rows[id].attrs && k != "status" ==> Swept(rows, today)[id].attrs[k] == rows[id].attrs[k])
  {
  }

  /** Running the sweep twice on one day gives the same table as running it once. */
  lemma SweepIsIdempotent(rows: map<nat, Task>, today: int)
    ensures Swept(Swept(rows, today), today) == Swept(rows, today)
  {
    var once := Swept(rows, today);
    forall id | id in once
      ensures Advanced(once[id], today) == once[id]
    {
      if HasStatus(rows[id], PENDING) && StartsOn(rows[id], today) {
        assert Attr(once[id], "status") == Text(IN_PROGRESS);
      }
    }
  }

  /** The scenario of a task pending from a given day, swept that day and swept again. */
  lemma SweepScenario(t: Task, day: int)
    requires HasStatus(t, PENDING) && StartsOn(t, day)
    ensures var once := Swept(map[t.id := t], day);
      && HasStatus(once[t.id], IN_PROGRESS)
      && Swept(once, day) == once
  {
    SweepIsIdempotent(map[t.id := t], day);
  }

  /** The number of rows Eloquent's `each` reads per query. */
  const ChunkSize: nat := 1000

  /** The `where('status', 'pending')` query over a table held in primary-key order. */
  function PendingRows(rows: seq<Task>): (r: seq<Task>)
    ensures |r| <= |rows|
    ensures forall i :: 0 <= i < |r| ==> HasStatus(r[i], PENDING)
    ensures forall i :: 0 <= i < |rows| && HasStatus(rows[i], PENDING) ==> rows[i] in r
  {
    if rows == [] then []
    else (if HasStatus(rows[0], PENDING) then [rows[0]] else []) + PendingRows(rows[1..])
  }

  /** The identifiers of some rows. */
  function Ids(page: seq<Task>): set<nat>
  {
    set t | t in page :: t.id
  }

  /** The table after the callback has run on the rows whose identifiers are in `ids`. */
  function AdvanceAll(rows: seq<Task>, ids: set<nat>, today: int): (r: seq<Task>)
    ensures |r| == |rows|
    ensures forall i :: 0 <= i < |rows| ==> r[i] == if rows[i].id in ids then Advanced(rows[i], today) else rows[i]
  {
    seq(|rows|, i requires 0 <= i < |rows| => if rows[i].id in ids then Advanced(rows[i], today) else rows[i])
  }

  /**
   * `each` as Eloquent runs it: the pending query is run again for every
   * page, at the next offset, `size` rows at a time, after the previous page
   * was saved; it stops at the first page that comes back short.
   */
  function ChunkedSweepFrom(rows: seq<Task>, today: int, size: nat, offset: nat): (r: seq<Task>)
    requires size > 0
    ensures |r| == |rows|
    ensures forall i :: 0 <= i < |rows| ==> r[i] == rows[i] || r[i] == Advanced(rows[i], today)
    decreases |rows| - offset
  {
    var pending := PendingRows(rows);
    if offset >= |pending| then rows
    else
      var page := pending[offset..if offset + size <= |pending| then offset + size else |pending|];
      var next := AdvanceAll(rows, Ids(page), today);
      if |page| < size then next else ChunkedSweepFrom(next, today, size, offset + size)
  }

  /** The command as written, over the table in primary-key order. */
  function ChunkedSweep(rows: seq<Task>, today: int): (r: seq<Task>)
    ensures |r| == |rows|
    ensures forall i :: 0 <= i < |rows| ==> r[i].id == rows[i].id && r[i].attrs.Keys == rows[i].attrs.Keys
    ensures forall i, k :: 0 <= i < |rows| && k != "status" ==> Attr(r[i], k) == Attr(rows[i], k)
    ensures forall i :: 0 <= i < |rows| && !(HasStatus(rows[i], PENDING) && StartsOn(rows[i], today)) ==> r[i] == rows[i]
    ensures forall i :: 0 <= i < |rows| && HasStatus(r[i], IN_PROGRESS) ==> HasStatus(rows[i], IN_PROGRESS) || StartsOn(rows[i], today)
  {
    ChunkedSweepFrom(rows, today, ChunkSize, 0)
  }

  /**
   * Below one chunk of pending rows the command as written is the intended
   * sweep: every row ends as `Advanced` makes it, which is what `Swept`
   * does to every row of the table.
   */
  lemma ChunkedSweepAgreesBelowChunkSize(rows: seq<Task>, today: int)
    requires |PendingRows(rows)| < ChunkSize
    ensures forall i :: 0 <= i < |rows| ==> ChunkedSweep(rows, today)[i] == Advanced(rows[i], today)
  {
    var pending := PendingRows(rows);
    if |pending| > 0 {
      assert pending[0..|pending|] == pending;
      var next := AdvanceAll(rows, Ids(pending), today);
      assert ChunkedSweep(rows, today) == next;
      forall i | 0 <= i < |rows|
        ensures next[i] == Advanced(rows[i], today)
      {
        if HasStatus(rows[i], PENDING) {
          assert rows[i] in pending;
        }
      }
    }
  }

  /** A task the sweep advances is in progress, no longer pending, and keeps its identifier. */
  lemma AdvancedLeavesPending(t: Task, today: int)
    requires HasStatus(t, PENDING) && StartsOn(t, today)
    ensures HasStatus(Advanced(t, today), IN_PROGRESS) && !HasStatus(Advanced(t, today), PENDING)
    ensures Advanced(t, today).id == t.id
  {
    assert IN_PROGRESS[0] != PENDING[0];
  }

  /** The pending query of a table with no pending row is empty. */
  lemma {:induction false} NoPendingRows(rows: seq<Task>)
    requires forall i :: 0 <= i < |rows| ==> !HasStatus(rows[i], PENDING)
    ensures PendingRows(rows) == []
  {
    if rows != [] {
      NoPendingRows(rows[1..]);
    }
  }

  /** The pending query of a table whose rows are all pending is the table. */
  lemma {:induction false} AllPendingRows(rows: seq<Task>)
    requires forall i :: 0 <= i < |rows| ==> HasStatus(rows[i], PENDING)
    ensures PendingRows(rows) == rows
  {
    if rows != [] {
      AllPendingRows(rows[1..]);
    }
  }

  /** The pending query of a table whose only pending row is the last one. */
  lemma {:induction false} OnlyLastPending(rows: seq<Task>)
    requires |rows| > 0 && HasStatus(rows[|rows| - 1], PENDING)
    requires forall i :: 0 <= i < |rows| - 1 ==> !HasStatus(rows[i], PENDING)
    ensures PendingRows(rows) == [rows[|rows| - 1]]
  {
    var n := |rows| - 1;
    if n > 0 {
      var rest := rows[1..];
      assert rest[|rest| - 1] == rows[n];
      assert forall i :: 0 <= i < |rest| - 1 ==> rest[i] == rows[i + 1];
      OnlyLastPending(rest);
      assert !HasStatus(rows[0], PENDING);
      assert PendingRows(rows) == [] + PendingRows(rest);
    }
  }

  /**
   * The first run with chunks of `size` rows over `size + 1` pending tasks
   * all due today: the first page holds the first `size` tasks and they are
   * advanced; the second query, at offset `size`, runs over the one row still
   * pending and finds nothing, so the last task is left as it was.
   */
  lemma {:induction false} FirstRunStopsShort(rows: seq<Task>, today: int, size: nat)
    requires size > 0 && |rows| == size + 1
    requires forall i :: 0 <= i < |rows| ==> HasStatus(rows[i], PENDING) && StartsOn(rows[i], today)
    requires forall i, j :: 0 <= i < j < |rows| ==> rows[i].id != rows[j].id
    ensures forall i :: 0 <= i < size ==>
      && !HasStatus(ChunkedSweepFrom(rows, today, size, 0)[i], PENDING)
      && ChunkedSweepFrom(rows, today, size, 0)[i].id == rows[i].id
    ensures ChunkedSweepFrom(rows, today, size, 0)[size] == rows[size]
  {
    var last := rows[size];
    AllPendingRows(rows);
    var page := rows[..size];
    assert PendingRows(rows)[0..size] == page;
    IdOutsidePage(page, last.id);
    var next := AdvanceAll(rows, Ids(page), today);
    forall i | 0 <= i < size
      ensures !HasStatus(next[i], PENDING) && next[i].id == rows[i].id
    {
      assert page[i] == rows[i];
      InPage(page, i);
      AdvancedLeavesPending(rows[i], today);
    }
    assert next[size] == last;
    OnlyLastPending(next);
    assert ChunkedSweepFrom(rows, today, size, 0) == ChunkedSweepFrom(next, today, size, size);
  }

  /** Every row of a page has its identifier among the page's. */
  lemma InPage(page: seq<Task>, i: nat)
    requires i < |page|
    ensures page[i].id in Ids(page)
  {
    assert page[i] in page;
  }

  /** An identifier no row of a page carries is not among the page's. */
  lemma IdOutsidePage(page: seq<Task>, id: nat)
    requires forall i :: 0 <= i < |page| ==> page[i].id != id
    ensures id !in Ids(page)
  {
  }

  /**
   * A second run over a table whose only pending row is the last, due today:
   * the first page holds that row and it is advanced.
   */
  lemma {:induction false} SecondRunStartsLast(rows: seq<Task>, today: int, size: nat)
    requires size > 0 && |rows| == size + 1
    requires HasStatus(rows[size], PENDING) && StartsOn(rows[size], today)
    requires forall i :: 0 <= i < size ==> !HasStatus(rows[i], PENDING) && rows[i].id != rows[size].id
    ensures HasStatus(ChunkedSweepFrom(rows, today, size, 0)[size], IN_PROGRESS)
  {
    var last := rows[size];
    OnlyLastPending(rows);
    assert PendingRows(rows)[0..1] == [last];
    assert Ids([last]) == {last.id};
    var again := AdvanceAll(rows, Ids([last]), today);
    AdvancedLeavesPending(last, today);
    assert again[size] == Advanced(last, today);
    forall i | 0 <= i < |again|
      ensures !HasStatus(again[i], PENDING)
    {
      if i < size {
        assert again[i] == rows[i];
      }
    }
    NoPendingRows(again);
    if size == 1 {
      assert ChunkedSweepFrom(rows, today, size, 0) == ChunkedSweepFrom(again, today, size, 1);
    }
  }

  /**
   * With chunks of `size` rows and `size + 1` pending tasks all due today,
   * one run of the command as written leaves the last task pending, and only
   * a second run starts it.
   */
  lemma ChunkingMissesDueTask(rows: seq<Task>, today: int, size: nat)
    requires size > 0 && |rows| == size + 1
    requires forall i :: 0 <= i < |rows| ==> HasStatus(rows[i], PENDING) && StartsOn(rows[i], today)
    requires forall i, j :: 0 <= i < j < |rows| ==> rows[i].id != rows[j].id
    ensures HasStatus(ChunkedSweepFrom(rows, today, size, 0)[size], PENDING)
    ensures HasStatus(ChunkedSweepFrom(ChunkedSweepFrom(rows, today, size, 0), today, size, 0)[size], IN_PROGRESS)
  {
    FirstRunStopsShort(rows, today, size);
    SecondRunStartsLast(ChunkedSweepFrom(rows, today, size, 0), today, size);
  }

  /**
   * The command as written with 1001 pending tasks all due today: the last
   * one stays pending, where the intended sweep (`Swept`) starts every due
   * task; only a second run starts it.
   */
  lemma ThousandAndFirstDueTaskIsSkipped(rows: seq<Task>, today: int)
    requires |rows| == ChunkSize + 1
    requires forall i :: 0 <= i < |rows| ==> HasStatus(rows[i], PENDING) && StartsOn(rows[i], today)
    requires forall i, j :: 0 <= i < j < |rows| ==> rows[i].id != rows[j].id
    ensures HasStatus(ChunkedSweep(rows, today)[ChunkSize], PENDING)
    ensures HasStatus(ChunkedSweep(ChunkedSweep(rows, today), today)[ChunkSize], IN_PROGRESS)
  {
    ChunkingMissesDueTask(rows, today, ChunkSize);
  }
}
