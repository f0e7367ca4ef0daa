/** The development task board on the specification page. */
module SpecificationTasks {
  import opened Common
  import opened Document
  import opened ListOps

  datatype TaskStatus = Todo | InProgress | Completed | Blocked
  datatype Priority = Low | Medium | High | Critical

  datatype DevTask = DevTask(
    id: string,
    title: string,
    description: string,
    section: string,
    status: TaskStatus,
    priority: Priority,
    createdAt: Timestamp)

  function TaskId(t: DevTask): string { t.id }

  /** `["todo", "in-progress", "completed", "blocked"]` */
  const StatusOrder: seq<TaskStatus> := [Todo, InProgress, Completed, Blocked]

  /** `statusOrder.indexOf(status)`: every status is listed, so never -1. */
  function StatusIndex(s: TaskStatus): (i: nat)
    ensures i < |StatusOrder| && StatusOrder[i] == s
  {
    match s
    case Todo => 0
    case InProgress => 1
    case Completed => 2
    case Blocked => 3
  }

  /** `statusOrder[(currentIndex + 1) % statusOrder.length]` */
  function NextStatus(s: TaskStatus): (n: TaskStatus)
    ensures n != s
    ensures StatusIndex(n) == (StatusIndex(s) + 1) % |StatusOrder|
  {
    StatusOrder[(StatusIndex(s) + 1) % |StatusOrder|]
  }

  /** Four toggles come back to where they started, and fewer never do. */
  lemma StatusCycle(s: TaskStatus)
    ensures NextStatus(NextStatus(NextStatus(NextStatus(s)))) == s
    ensures NextStatus(NextStatus(s)) != s && NextStatus(NextStatus(NextStatus(s))) != s
  {
  }

  /** `toggleTaskStatus(taskId)`: every task with the id moves on one status. */
  function ToggleTaskStatus(tasks: seq<DevTask>, id: string): (r: seq<DevTask>)
    ensures |r| == |tasks|
    ensures forall i :: 0 <= i < |tasks| && tasks[i].id == id ==> r[i] == tasks[i].(status := NextStatus(tasks[i].status))
    ensures forall i :: 0 <= i < |tasks| && tasks[i].id != id ==> r[i] == tasks[i]
  {
    seq(|tasks|, i requires 0 <= i < |tasks| =>
      if tasks[i].id == id then tasks[i].(status := NextStatus(tasks[i].status)) else tasks[i])
  }

  /** Toggling the same task four times restores the board. */
  lemma ToggleFourTimes(tasks: seq<DevTask>, id: string)
    ensures ToggleTaskStatus(ToggleTaskStatus(ToggleTaskStatus(ToggleTaskStatus(tasks, id), id), id), id) == tasks
  {
    var r := ToggleTaskStatus(ToggleTaskStatus(ToggleTaskStatus(ToggleTaskStatus(tasks, id), id), id), id);
    forall i | 0 <= i < |tasks| ensures r[i] == tasks[i] {
      StatusCycle(tasks[i].status);
    }
  }

  /** The board's editable state: the tasks and the new-task inputs. */
  datatype Board = Board(tasks: seq<DevTask>, newTaskTitle: string, newTaskSection: string)

  /** `handleAddTask()`; the id is `Date.now().toString()`. */
  function AddTask(b: Board, nowMillis: nat, now: Timestamp): (r: Board)
    ensures IsBlank(b.newTaskTitle) ==> r == b
    ensures !IsBlank(b.newTaskTitle) ==>
      r.tasks == b.tasks + [DevTask(NatToString(nowMillis), b.newTaskTitle, "", b.newTaskSection, Todo, Medium, now)] &&
      r.newTaskTitle == "" && r.newTaskSection == b.newTaskSection
  {
    if IsBlank(b.newTaskTitle) then b
    else
      var task := DevTask(NatToString(nowMillis), b.newTaskTitle, "", b.newTaskSection, Todo, Medium, now);
      b.(tasks := b.tasks + [task], newTaskTitle := "")
  }

  /** The new task's id reads back as the clock value, and it starts as a
      medium-priority to-do with the title as typed. */
  lemma AddedTask(b: Board, nowMillis: nat, now: Timestamp)
    requires !IsBlank(b.newTaskTitle)
    ensures var t := Last(AddTask(b, nowMillis, now).tasks);
      DecimalValue(t.id) == nowMillis && t.status == Todo && t.priority == Medium && t.title == b.newTaskTitle
  {
    NatToStringRoundTrip(nowMillis);
  }

  function Last(s: seq<DevTask>): DevTask
    requires s != []
  {
    s[|s| - 1]
  }

  /** `deleteTask(taskId)` */
  function DeleteTask(tasks: seq<DevTask>, id: string): (r: seq<DevTask>)
    ensures |r| <= |tasks| && multiset(r) <= multiset(tasks)
    ensures forall t :: t in r <==> t in tasks && t.id != id
  {
    var r := RemoveKey(tasks, TaskId, id);
    forall t ensures t in r <==> t in tasks && t.id != id {
      FilterMembership(tasks, LacksKey(TaskId, id), t);
      assert LacksKey(TaskId, id)(t) == (TaskId(t) != id);
    }
    r
  }

  /** `filteredTasks`: a selected section (a truthy string) narrows the list. */
  function FilteredTasks(tasks: seq<DevTask>, selectedSection: Option<string>): (r: seq<DevTask>)
    ensures !Truthy(selectedSection) ==> r == tasks
    ensures Truthy(selectedSection) ==> forall t :: t in r <==> t in tasks && t.section == selectedSection.value
    ensures multiset(r) <= multiset(tasks)
  {
    if Truthy(selectedSection) then
      var keep := (t: DevTask) => t.section == selectedSection.value;
      var r := Filter(tasks, keep);
      forall t ensures t in r <==> t in tasks && t.section == selectedSection.value {
        FilterMembership(tasks, keep, t);
      }
      r
    else tasks
  }

  function HasStatus(s: TaskStatus): DevTask -> bool {
    (t: DevTask) => t.status == s
  }

  datatype TaskStats = TaskStats(total: nat, completed: nat, inProgress: nat, blocked: nat)

  /** `taskStats` */
  function Stats(tasks: seq<DevTask>): (r: TaskStats)
    ensures r.total == |tasks|
    ensures r.completed + r.inProgress + r.blocked <= r.total
  {
    StatusCountsAdd(tasks);
    TaskStats(|tasks|, |Filter(tasks, HasStatus(Completed))|, |Filter(tasks, HasStatus(InProgress))|,
      |Filter(tasks, HasStatus(Blocked))|)
  }

  /** Each task has exactly one status, so the four counts add up to the
      number of tasks. */
  lemma {:induction false} StatusCountsAdd(tasks: seq<DevTask>)
    ensures |Filter(tasks, HasStatus(Todo))| + |Filter(tasks, HasStatus(InProgress))| +
            |Filter(tasks, HasStatus(Completed))| + |Filter(tasks, HasStatus(Blocked))| == |tasks|
    decreases |tasks|
  {
    if tasks != [] {
      StatusCountsAdd(tasks[1..]);
    }
  }
}
