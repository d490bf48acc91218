/**
 * The kanban board (resources/js/views/__backoffice/kanbanDashboard/kanban.js):
 * a fetched page of tasks split into three ordered columns by status, and
 * the drag handler that moves a card and, across columns, asks the server to
 * change the card's status.
 *
 * The board state `tasks` is the `Columns` value held by a `Board`; every
 * `setTasks` replaces it whole. Status requests and the errors they log are
 * recorded, in order, as effects: the network call itself is outside the model.
 */
module Kanban {
  import opened TaskRecords
  import opened Splice

  /** The three droppable columns; each one's droppableId is its status token. */
  datatype ColumnKey = PendingColumn | InProgressColumn | CompletedColumn

  function Key(c: ColumnKey): string
  {
    match c
    case PendingColumn => PENDING
    case InProgressColumn => IN_PROGRESS
    case CompletedColumn => COMPLETED
  }

  /** The `tasks` state: one ordered list of cards per column. */
  datatype Columns = Columns(pending: seq<Task>, inProgress: seq<Task>, completed: seq<Task>)
  {
    /** `tasks[c]` */
    function Get(c: ColumnKey): seq<Task>
    {
      match c
      case PendingColumn => pending
      case InProgressColumn => inProgress
      case CompletedColumn => completed
    }

    /** `{ ...tasks, [c]: s }`: column `c` replaced, the others kept. */
    function With(c: ColumnKey, s: seq<Task>): (r: Columns)
      ensures r.Get(c) == s
      ensures forall d :: d != c ==> r.Get(d) == Get(d)
    {
      match c
      case PendingColumn => this.(pending := s)
      case InProgressColumn => this.(inProgress := s)
      case CompletedColumn => this.(completed := s)
    }

    /** The number of cards on the board. */
    function Size(): nat
    {
      |pending| + |inProgress| + |completed|
    }

    /** The cards on the board, with their multiplicities. */
    function Cards(): multiset<Task>
    {
      multiset(pending) + multiset(inProgress) + multiset(completed)
    }
  }

  const EmptyColumns: Columns := Columns([], [], [])

  /** `page.filter(task => task.status === status)` */
  function WithStatus(page: seq<Task>, status: string): (r: seq<Task>)
    ensures |r| <= |page|
    ensures forall t :: t in r <==> t in page && HasStatus(t, status)
  {
    if page == [] then []
    else (if HasStatus(page[0], status) then [page[0]] else []) + WithStatus(page[1..], status)
  }

  /** The tasks of a page whose status is none of the three tokens. */
  function Unrecognized(page: seq<Task>): (r: seq<Task>)
    ensures |r| <= |page|
    ensures forall t :: t in r <==> t in page && !IsRecognized(t)
  {
    if page == [] then []
    else (if IsRecognized(page[0]) then [] else [page[0]]) + Unrecognized(page[1..])
  }

  /** The three columns derived from a fetched page (kanban.js:30-38). */
  function Partitioned(page: seq<Task>): (r: Columns)
    ensures forall c :: |r.Get(c)| <= |page|
    ensures forall c, t :: t in r.Get(c) ==> t in page && HasStatus(t, Key(c))
  {
    Columns(WithStatus(page, PENDING), WithStatus(page, IN_PROGRESS), WithStatus(page, COMPLETED))
  }

  /** Each column holds exactly the page's tasks with that column's status. */
  lemma PartitionedByStatus(page: seq<Task>, c: ColumnKey, t: Task)
    ensures t in Partitioned(page).Get(c) <==> t in page && HasStatus(t, Key(c))
  {
  }

  /** Filtering keeps the page's order. */
  lemma {:induction false} WithStatusKeepsOrder(page: seq<Task>, status: string)
    ensures Subsequence(WithStatus(page, status), page)
    decreases |page|
  {
    if page != [] {
      var rest := WithStatus(page[1..], status);
      WithStatusKeepsOrder(page[1..], status);
      if HasStatus(page[0], status) {
        assert WithStatus(page, status)[1..] == rest;
      } else {
        assert WithStatus(page, status) == rest;
        if rest != [] {
          assert rest[0] in rest;
          assert rest[0] != page[0];
        }
      }
    }
  }

  /** Each column keeps the order the tasks had on the page. */
  lemma ColumnsKeepPageOrder(page: seq<Task>, c: ColumnKey)
    ensures Subsequence(Partitioned(page).Get(c), page)
  {
    WithStatusKeepsOrder(page, Key(c));
  }

  /**
   * Every task of the page is on the board exactly as often as on the page,
   * unless its status is unrecognised, in which case it is on no column.
   */
  lemma {:induction false} PartitionAccountsForEveryTask(page: seq<Task>)
    ensures Partitioned(page).Cards() + multiset(Unrecognized(page)) == multiset(page)
    ensures Partitioned(page).Size() + |Unrecognized(page)| == |page|
    decreases |page|
  {
    if page != [] {
      var t, rest := page[0], page[1..];
      assert page == [t] + rest;
      PartitionAccountsForEveryTask(rest);
      PartitionStep(t, rest);
      HeadAccountsForTask(t);
      var q := Partitioned(rest);
      var hp, hi, hc, hu := WithStatus([t], PENDING), WithStatus([t], IN_PROGRESS), WithStatus([t], COMPLETED), Unrecognized([t]);
      Regroup(hp, hi, hc, hu, q.pending, q.inProgress, q.completed, Unrecognized(rest));
      assert multiset(page) == multiset{t} + multiset(rest);
    }
  }

  /** Four lists, each with a prefix, count as the prefixes plus the rests. */
  lemma Regroup<T>(a1: seq<T>, a2: seq<T>, a3: seq<T>, a4: seq<T>, b1: seq<T>, b2: seq<T>, b3: seq<T>, b4: seq<T>)
    ensures multiset(a1 + b1) + multiset(a2 + b2) + multiset(a3 + b3) + multiset(a4 + b4)
            == (multiset(a1) + multiset(a2) + multiset(a3) + multiset(a4)) + (multiset(b1) + multiset(b2) + multiset(b3) + multiset(b4))
    ensures |a1 + b1| + |a2 + b2| + |a3 + b3| + |a4 + b4| == (|a1| + |a2| + |a3| + |a4|) + (|b1| + |b2| + |b3| + |b4|)
  {
  }

  /** Partitioning a page with one more task in front. */
  lemma PartitionStep(t: Task, rest: seq<Task>)
    ensures var p, q := Partitioned([t] + rest), Partitioned(rest);
      && p.pending == WithStatus([t], PENDING) + q.pending
      && p.inProgress == WithStatus([t], IN_PROGRESS) + q.inProgress
      && p.completed == WithStatus([t], COMPLETED) + q.completed
      && Unrecognized([t] + rest) == Unrecognized([t]) + Unrecognized(rest)
  {
    WithStatusCons(t, rest, PENDING);
    WithStatusCons(t, rest, IN_PROGRESS);
    WithStatusCons(t, rest, COMPLETED);
    assert ([t] + rest)[1..] == rest && [t][1..] == [];
    assert Unrecognized([t]) == (if IsRecognized(t) then [] else [t]) + Unrecognized([]);
  }

  /** Filtering a page with one more task in front. */
  lemma WithStatusCons(t: Task, rest: seq<Task>, status: string)
    ensures WithStatus([t] + rest, status) == WithStatus([t], status) + WithStatus(rest, status)
  {
    var page := [t] + rest;
    assert page[0] == t && page[1..] == rest;
    assert WithStatus([t], status) == (if HasStatus(t, status) then [t] else []) by {
      assert [t][1..] == [];
    }
  }

  /** A single task lands in exactly one place: one column, or the unrecognised rest. */
  lemma HeadAccountsForTask(t: Task)
    ensures multiset(WithStatus([t], PENDING)) + multiset(WithStatus([t], IN_PROGRESS))
            + multiset(WithStatus([t], COMPLETED)) + multiset(Unrecognized([t])) == multiset{t}
    ensures |WithStatus([t], PENDING)| + |WithStatus([t], IN_PROGRESS)|
            + |WithStatus([t], COMPLETED)| + |Unrecognized([t])| == 1
  {
    assert [t][1..] == [];
  }

  /** No task is in two columns, and a task with an unrecognised status is in none. */
  lemma ColumnsAreDisjoint(page: seq<Task>, t: Task, c: ColumnKey, d: ColumnKey)
    ensures t in Partitioned(page).Get(c) && t in Partitioned(page).Get(d) ==> c == d
    ensures !IsRecognized(t) ==> t !in Partitioned(page).Get(c)
  {
  }

  /** What `react-beautiful-dnd` reports at the end of a drag. */
  datatype Location = Location(column: ColumnKey, index: nat)
  datatype DropResult = DropResult(source: Location, destination: Option<Location>)

  /** The drag started on a card that exists: the library's guarantee to `onDragEnd`. */
  predicate CanDrag(cols: Columns, drop: DropResult)
  {
    drop.source.index < |cols.Get(drop.source.column)|
  }

  function DraggedCard(cols: Columns, drop: DropResult): Task
    requires CanDrag(cols, drop)
  {
    cols.Get(drop.source.column)[drop.source.index]
  }

  /**
   * The columns after `onDragEnd` (kanban.js:50-64): both lists are copied
   * from the columns before the drag, and the destination key is written
   * after the source key, so on a same-column drag it wins.
   */
  function Dragged(cols: Columns, drop: DropResult): (r: Columns)
    requires CanDrag(cols, drop)
    ensures drop.destination.None? ==> r == cols
    ensures drop.destination.Some? ==>
      var dst := drop.destination.value;
      && r.Get(dst.column) == InsertAt(cols.Get(dst.column), dst.index, DraggedCard(cols, drop))
      && r.Get(dst.column)[InsertionPoint(|cols.Get(dst.column)|, dst.index)] == DraggedCard(cols, drop)
    ensures forall c :: c != drop.source.column && (drop.destination.None? || c != drop.destination.value.column) ==>
      r.Get(c) == cols.Get(c)
  {
    match drop.destination
    case None => cols
    case Some(dst) =>
      var sourceList := RemoveAt(cols.Get(drop.source.column), drop.source.index);
      var destList := InsertAt(cols.Get(dst.column), dst.index, DraggedCard(cols, drop));
      cols.With(drop.source.column, sourceList).With(dst.column, destList)
  }

  predicate IsCrossColumn(drop: DropResult)
  {
    drop.destination.Some? && drop.destination.value.column != drop.source.column
  }

  /** An outward effect of the board: a status request sent, or an error logged. */
  datatype Effect = StatusUpdateRequested(taskId: nat, status: string) | ErrorLogged(message: string)

  const StatusUpdateError: string := "An error occurred while updating the task status."

  /** The status requests a drag issues (kanban.js:65-68). */
  function DragRequests(cols: Columns, drop: DropResult): (r: seq<Effect>)
    requires CanDrag(cols, drop)
    ensures |r| <= 1
    ensures |r| == 1 <==> IsCrossColumn(drop)
    ensures IsCrossColumn(drop) ==>
      r[0] == StatusUpdateRequested(DraggedCard(cols, drop).id, Key(drop.destination.value.column))
  {
    if IsCrossColumn(drop) then
      [StatusUpdateRequested(DraggedCard(cols, drop).id, Key(drop.destination.value.column))]
    else []
  }

  /** A drag without a destination changes nothing and requests nothing. */
  lemma CancelledDragChangesNothing(cols: Columns, drop: DropResult)
    requires CanDrag(cols, drop) && drop.destination.None?
    ensures Dragged(cols, drop) == cols
    ensures DragRequests(cols, drop) == []
  {
  }

  /**
   * A drag to another column takes exactly the dragged card out of the source
   * column, puts it at the destination index, leaves the third column alone
   * and keeps every card on the board exactly once.
   */
  lemma CrossColumnDrag(cols: Columns, drop: DropResult)
    requires CanDrag(cols, drop) && IsCrossColumn(drop)
    ensures var src, dst, r := drop.source, drop.destination.value, Dragged(cols, drop);
      && r.Get(src.column) == RemoveAt(cols.Get(src.column), src.index)
      && r.Get(dst.column) == InsertAt(cols.Get(dst.column), dst.index, DraggedCard(cols, drop))
      && r.Get(dst.column)[InsertionPoint(|cols.Get(dst.column)|, dst.index)] == DraggedCard(cols, drop)
      && (forall c :: c != src.column && c != dst.column ==> r.Get(c) == cols.Get(c))
      && r.Size() == cols.Size()
      && r.Cards() == cols.Cards()
  {
    var src, dst, r := drop.source, drop.destination.value, Dragged(cols, drop);
    var card := DraggedCard(cols, drop);
    MultisetRemoveAt(cols.Get(src.column), src.index);
    MultisetInsertAt(cols.Get(dst.column), dst.index, card);
    var (o1, o2) := OtherTwo(src.column);
    var third := if o1 == dst.column then o2 else o1;
    assert third != src.column && third != dst.column;
    assert r.Get(third) == cols.Get(third);
    ColumnsCover(r, src.column, dst.column, third);
    ColumnsCover(cols, src.column, dst.column, third);
  }

  /** The two columns other than `c`. */
  function OtherTwo(c: ColumnKey): (r: (ColumnKey, ColumnKey))
    ensures r.0 != c && r.1 != c && r.0 != r.1
  {
    match c
    case PendingColumn => (InProgressColumn, CompletedColumn)
    case InProgressColumn => (PendingColumn, CompletedColumn)
    case CompletedColumn => (PendingColumn, InProgressColumn)
  }

  /** Three distinct keys name all three columns. */
  lemma ColumnsCover(cols: Columns, a: ColumnKey, b: ColumnKey, c: ColumnKey)
    requires a != b && b != c && a != c
    ensures cols.Cards() == multiset(cols.Get(a)) + multiset(cols.Get(b)) + multiset(cols.Get(c))
    ensures cols.Size() == |cols.Get(a)| + |cols.Get(b)| + |cols.Get(c)|
  {
  }

  /**
   * A drag inside one column leaves that column as it was with the dragged
   * card inserted once more: the removal is overwritten, the column grows by
   * one and the card is on it twice.
   */
  lemma SameColumnDrag(cols: Columns, drop: DropResult)
    requires CanDrag(cols, drop) && drop.destination.Some? && !IsCrossColumn(drop)
    ensures var c, r, card := drop.source.column, Dragged(cols, drop), DraggedCard(cols, drop);
      && r.Get(c) == InsertAt(cols.Get(c), drop.destination.value.index, card)
      && |r.Get(c)| == |cols.Get(c)| + 1
      && multiset(r.Get(c))[card] == multiset(cols.Get(c))[card] + 1
      && multiset(r.Get(c))[card] >= 2
      && (forall d :: d != c ==> r.Get(d) == cols.Get(d))
      && r.Cards() == cols.Cards() + multiset{card}
  {
    var c, r, card := drop.source.column, Dragged(cols, drop), DraggedCard(cols, drop);
    MultisetInsertAt(cols.Get(c), drop.destination.value.index, card);
    assert card in multiset(cols.Get(c));
    var (d1, d2) := OtherTwo(c);
    ColumnsCover(r, c, d1, d2);
    ColumnsCover(cols, c, d1, d2);
  }

  /**
   * The reorder the drag handler evidently intends on a same-column drag:
   * insert the card into the list it was removed from.
   */
  function Reordered(cols: Columns, drop: DropResult): (r: Columns)
    requires CanDrag(cols, drop)
    ensures drop.destination.None? ==> r == cols
    ensures drop.destination.Some? ==>
      var dst := drop.destination.value;
      var before := if dst.column == drop.source.column then |cols.Get(dst.column)| - 1 else |cols.Get(dst.column)|;
      && |r.Get(dst.column)| == before + 1
      && r.Get(dst.column)[InsertionPoint(before, dst.index)] == DraggedCard(cols, drop)
    ensures forall c :: c != drop.source.column && (drop.destination.None? || c != drop.destination.value.column) ==>
      r.Get(c) == cols.Get(c)
  {
    match drop.destination
    case None => cols
    case Some(dst) =>
      var sourceList := RemoveAt(cols.Get(drop.source.column), drop.source.index);
      var destList := if dst.column == drop.source.column then sourceList else cols.Get(dst.column);
      cols.With(drop.source.column, sourceList).With(dst.column, InsertAt(destList, dst.index, DraggedCard(cols, drop)))
  }

  /**
   * The intended handler agrees with the written one across columns and,
   * within a column, only reorders it: same cards, same size, the card at
   * the destination index.
   */
  lemma ReorderedIsPermutation(cols: Columns, drop: DropResult)
    requires CanDrag(cols, drop)
    ensures IsCrossColumn(drop) ==> Reordered(cols, drop) == Dragged(cols, drop)
    ensures drop.destination.Some? && !IsCrossColumn(drop) ==>
      var c, r := drop.source.column, Reordered(cols, drop);
      && |r.Get(c)| == |cols.Get(c)|
      && multiset(r.Get(c)) == multiset(cols.Get(c))
      && r.Get(c)[InsertionPoint(|cols.Get(c)| - 1, drop.destination.value.index)] == DraggedCard(cols, drop)
    ensures Reordered(cols, drop).Cards() == cols.Cards()
    ensures Reordered(cols, drop).Size() == cols.Size()
  {
    if IsCrossColumn(drop) {
      CrossColumnDrag(cols, drop);
    } else if drop.destination.Some? {
      SameColumnReorder(cols, drop);
    }
  }

  /** Within one column the intended handler moves the card and keeps every card once. */
  lemma SameColumnReorder(cols: Columns, drop: DropResult)
    requires CanDrag(cols, drop) && drop.destination.Some? && !IsCrossColumn(drop)
    ensures var c, r := drop.source.column, Reordered(cols, drop);
      && |r.Get(c)| == |cols.Get(c)|
      && multiset(r.Get(c)) == multiset(cols.Get(c))
      && r.Get(c)[InsertionPoint(|cols.Get(c)| - 1, drop.destination.value.index)] == DraggedCard(cols, drop)
      && r.Cards() == cols.Cards()
      && r.Size() == cols.Size()
  {
    var c, r, card := drop.source.column, Reordered(cols, drop), DraggedCard(cols, drop);
    var removed := RemoveAt(cols.Get(c), drop.source.index);
    assert r.Get(c) == InsertAt(removed, drop.destination.value.index, card);
    MultisetRemoveAt(cols.Get(c), drop.source.index);
    MultisetInsertAt(removed, drop.destination.value.index, card);
    var (d1, d2) := OtherTwo(c);
    assert r.Get(d1) == cols.Get(d1) && r.Get(d2) == cols.Get(d2);
    ColumnsCover(r, c, d1, d2);
    ColumnsCover(cols, c, d1, d2);
  }

  /**
   * Dragging the first of two pending cards one place down: the handler as
   * written leaves the card twice in the column, the intended one swaps them.
   */
  lemma SameColumnDragDuplicatesCard(a: Task, b: Task)
    ensures var cols, drop := Columns([a, b], [], []), DropResult(Location(PendingColumn, 0), Some(Location(PendingColumn, 1)));
      && Dragged(cols, drop).pending == [a, a, b]
      && Reordered(cols, drop).pending == [b, a]
  {
    var cols, drop := Columns([a, b], [], []), DropResult(Location(PendingColumn, 0), Some(Location(PendingColumn, 1)));
    assert InsertAt([a, b], 1, a) == [a, b][..1] + [a] + [a, b][1..];
    assert InsertAt(RemoveAt([a, b], 0), 1, a) == [b] + [a];
  }

  /** The board component's state and the effects it has issued. */
  class Board {
    var columns: Columns
    var effects: seq<Effect>

    constructor ()
      ensures columns == EmptyColumns && effects == []
    {
      columns := EmptyColumns;
      effects := [];
    }

    /**
     * The effect that runs when the fetched page changes (kanban.js:28-40):
     * a missing or empty page leaves the columns as they were.
     */
    method ApplyPage(page: Option<seq<Task>>)
      modifies this`columns
      ensures page.Some? && |page.value| > 0 ==> columns == Partitioned(page.value)
      ensures page.None? || |page.value| == 0 ==> columns == old(columns)
    {
      if page.Some? && |page.value| > 0 {
        var pendingTasks := WithStatus(page.value, PENDING);
        var inProgressTasks := WithStatus(page.value, IN_PROGRESS);
        var completedTasks := WithStatus(page.value, COMPLETED);
        columns := Columns(pendingTasks, inProgressTasks, completedTasks);
      }
    }

    /**
     * `updateTaskStatus` (kanban.js:42-48): the request is sent; when it
     * fails, the error is logged and nothing else happens.
     */
    method UpdateTaskStatus(taskId: nat, newStatus: string, remoteOk: bool)
      modifies this`effects
      ensures effects == old(effects) + [StatusUpdateRequested(taskId, newStatus)]
                         + (if remoteOk then [] else [ErrorLogged(StatusUpdateError)])
    {
      effects := effects + [StatusUpdateRequested(taskId, newStatus)];
      if !remoteOk {
        effects := effects + [ErrorLogged(StatusUpdateError)];
      }
    }

    /**
     * `onDragEnd` (kanban.js:50-69). `remoteOk` is the outcome of the status
     * request; a failure is logged and the columns are not rolled back.
     */
    method OnDragEnd(drop: DropResult, remoteOk: bool)
      requires CanDrag(columns, drop)
      modifies this
      ensures columns == Dragged(old(columns), drop)
      ensures effects == old(effects) + DragRequests(old(columns), drop)
                         + (if IsCrossColumn(drop) && !remoteOk then [ErrorLogged(StatusUpdateError)] else [])
    {
      if drop.destination.None? {
        return;
      }
      var dst := drop.destination.value;
      var sourceList := columns.Get(drop.source.column);
      var removed := sourceList[drop.source.index];
      sourceList := RemoveAt(sourceList, drop.source.index);
      var destList := InsertAt(columns.Get(dst.column), dst.index, removed);
      columns := columns.With(drop.source.column, sourceList).With(dst.column, destList);
      if drop.source.column != dst.column {
        UpdateTaskStatus(removed.id, Key(dst.column), remoteOk);
      }
    }
  }
}
