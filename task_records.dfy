/**
 * Task records as the store, the API and the browser see them.
 *
 * A task is an Eloquent model serialised to JSON: an identifier plus a bag
 * of attributes. The attributes are kept as a map because the API's `fill`
 * writes whatever attributes a request carries, and the browser compares
 * `task.status` against plain strings. Dates are day numbers.
 */
module TaskRecords {

  datatype Option<T> = None | Some(value: T)

  /** An attribute or request value. `Date(day)` stands for a string that parses as that calendar day. */
  datatype Value = Null | Text(s: string) | Num(n: int) | Date(day: int)

  /** The three status tokens the board and the sweep recognise. */
  const PENDING: string := "pending"
  const IN_PROGRESS: string := "in_progress"
  const COMPLETED: string := "completed"

  datatype Task = Task(id: nat, attrs: map<string, Value>)

  /** The attribute `key` of `t`; a missing attribute reads as null (undefined in the browser). */
  function Attr(t: Task, key: string): Value
  {
    if key in t.attrs then t.attrs[key] else Null
  }

  /** `task.status === status`, the strict comparison the board and the sweep's query make. */
  predicate HasStatus(t: Task, status: string)
  {
    Attr(t, "status") == Text(status)
  }

  /** The status is one of the three recognised tokens. */
  predicate IsRecognized(t: Task)
  {
    HasStatus(t, PENDING) || HasStatus(t, IN_PROGRESS) || HasStatus(t, COMPLETED)
  }

  /** The `tasks` table: rows keyed by their identifier, updated in place. */
  class TaskTable {
    var rows: map<nat, Task>

    constructor (initial: map<nat, Task>)
      ensures rows == initial
    {
      rows := initial;
    }
  }
}
