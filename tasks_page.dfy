/**
 * The tasks page (`app/tasks/page.tsx`): its list of tasks split into active and
 * completed cards, reloads and cancels, and the "… ago" times.
 *
 * What the API client gave is a parameter of each handler; times are
 * milliseconds since the epoch.
 */
module TasksPage {
  import opened Wrappers
  import opened Text
  import opened Toasts

  datatype Task = Task(id: string, kind: string, status: string, progress: int, message: string, updatedAt: int)

  // ---------------------------------------------------------------------------
  // Active and completed tasks
  // ---------------------------------------------------------------------------

  predicate IsActive(status: string) {
    status == "pending" || status == "running"
  }

  predicate IsFinished(status: string) {
    status == "completed" || status == "failed"
  }

  /** `activeTasks`: the pending and running tasks, in list order. */
  function Active(tasks: seq<Task>): (r: seq<Task>)
    ensures |r| <= |tasks|
    ensures forall t :: t in r <==> t in tasks && IsActive(t.status)
    decreases |tasks|
  {
    if tasks == [] then []
    else if IsActive(tasks[0].status) then [tasks[0]] + Active(tasks[1..])
    else Active(tasks[1..])
  }

  /** `completedTasks`: the completed and failed tasks, in list order. */
  function Completed(tasks: seq<Task>): (r: seq<Task>)
    ensures |r| <= |tasks|
    ensures forall t :: t in r <==> t in tasks && IsFinished(t.status)
    decreases |tasks|
  {
    if tasks == [] then []
    else if IsFinished(tasks[0].status) then [tasks[0]] + Completed(tasks[1..])
    else Completed(tasks[1..])
  }

  /** `Active` on a list that starts with `x`. */
  lemma ActiveCons(x: Task, rest: seq<Task>)
    ensures Active([x] + rest) == (if IsActive(x.status) then [x] else []) + Active(rest)
  {
    assert ([x] + rest)[0] == x && ([x] + rest)[1..] == rest;
  }

  /**
   * The active card keeps the list order: the card of a concatenation is the
   * concatenation of the cards.
   */
  lemma {:induction false} ActiveSplit(a: seq<Task>, b: seq<Task>)
    ensures Active(a + b) == Active(a) + Active(b)
    decreases |a|
  {
    if a == [] {
      assert a + b == b;
    } else {
      var x, rest := a[0], a[1..];
      assert a == [x] + rest && a + b == [x] + (rest + b);
      ActiveCons(x, rest + b);
      ActiveCons(x, rest);
      ActiveSplit(rest, b);
      var head := if IsActive(x.status) then [x] else [];
      assert head + (Active(rest) + Active(b)) == (head + Active(rest)) + Active(b);
    }
  }

  /** `Completed` on a list that starts with `x`. */
  lemma CompletedCons(x: Task, rest: seq<Task>)
    ensures Completed([x] + rest) == (if IsFinished(x.status) then [x] else []) + Completed(rest)
  {
    assert ([x] + rest)[0] == x && ([x] + rest)[1..] == rest;
  }

  /** The completed card keeps the list order in the same way. */
  lemma {:induction false} CompletedSplit(a: seq<Task>, b: seq<Task>)
    ensures Completed(a + b) == Completed(a) + Completed(b)
    decreases |a|
  {
    if a == [] {
      assert a + b == b;
    } else {
      var x, rest := a[0], a[1..];
      assert a == [x] + rest && a + b == [x] + (rest + b);
      CompletedCons(x, rest + b);
      CompletedCons(x, rest);
      CompletedSplit(rest, b);
      var head := if IsFinished(x.status) then [x] else [];
      assert head + (Completed(rest) + Completed(b)) == (head + Completed(rest)) + Completed(b);
    }
  }

  /** A one-task list shows that task on the card its status selects, and on no other. */
  lemma CardsOfOne(t: Task)
    ensures Active([t]) == (if IsActive(t.status) then [t] else [])
    ensures Completed([t]) == (if IsFinished(t.status) then [t] else [])
  {
    assert [t][1..] == [];
  }

  /**
   * No task is in both cards, a cancelled task is in neither, and together
   * the cards show at most the whole list.
   */
  lemma {:induction false} CardsPartition(tasks: seq<Task>)
    ensures forall t :: t in Active(tasks) ==> t !in Completed(tasks)
    ensures forall t :: t in tasks && t.status == "cancelled" ==> t !in Active(tasks) && t !in Completed(tasks)
    ensures |Active(tasks)| + |Completed(tasks)| <= |tasks|
    decreases |tasks|
  {
    if tasks != [] {
      CardsPartition(tasks[1..]);
    }
  }

  /** The label on a completed card. */
  function CardLabel(status: string): (shown: string)
    ensures shown == "Completed" || shown == "Failed"
  {
    if status == "completed" then "Completed" else "Failed"
  }

  /** A card in the completed list says "Completed" for a completed task and "Failed" for a failed one. */
  lemma CardLabelOfCompleted(tasks: seq<Task>, t: Task)
    requires t in Completed(tasks)
    ensures CardLabel(t.status) == "Completed" <==> t.status == "completed"
    ensures CardLabel(t.status) == "Failed" <==> t.status == "failed"
  {
  }

  // ---------------------------------------------------------------------------
  // Cancelling
  // ---------------------------------------------------------------------------

  /** The list after a successful cancel of `id`: the matching tasks get status `cancelled`, nothing else changes. */
  function MarkCancelled(tasks: seq<Task>, id: string): (r: seq<Task>)
    ensures |r| == |tasks|
    ensures forall i :: 0 <= i < |tasks| ==>
      r[i] == if tasks[i].id == id then tasks[i].(status := "cancelled") else tasks[i]
  {
    seq(|tasks|, i requires 0 <= i < |tasks| =>
      if tasks[i].id == id then tasks[i].(status := "cancelled") else tasks[i])
  }

  /** After a cancel, the active card holds exactly the active tasks with another id. */
  lemma MarkCancelledLeavesActive(tasks: seq<Task>, id: string, t: Task)
    ensures t in Active(MarkCancelled(tasks, id)) <==> t in Active(tasks) && t.id != id
  {
    var after := MarkCancelled(tasks, id);
    if t in after && IsActive(t.status) {
      var i :| 0 <= i < |after| && after[i] == t;
      assert tasks[i] == t;
    }
    if t in tasks && t.id != id {
      var i :| 0 <= i < |tasks| && tasks[i] == t;
      assert after[i] == t;
    }
  }

  // ---------------------------------------------------------------------------
  // Relative times
  // ---------------------------------------------------------------------------

  /** `Math.round(diffMs / 1000)` for a whole number of milliseconds: halves round up. */
  function RoundedSeconds(diffMs: int): (s: int)
    ensures s * 1000 - 500 <= diffMs < s * 1000 + 500
  {
    (diffMs + 500) / 1000
  }

  /** The unit and count `formatRelativeTime` shows. */
  datatype RelativeTime = Seconds(count: int) | Minutes(count: int) | Hours(count: int) | Days(count: int)

  /** The bucket for a difference of `diffSec` seconds, counts rounded down. */
  function Bucket(diffSec: int): (r: RelativeTime)
    ensures r.Seconds? <==> diffSec < 60
    ensures r.Seconds? ==> r.count == diffSec
    ensures r.Minutes? <==> 60 <= diffSec < 3600
    ensures r.Minutes? ==> 1 <= r.count < 60 && r.count * 60 <= diffSec < (r.count + 1) * 60
    ensures r.Hours? <==> 3600 <= diffSec < 86400
    ensures r.Hours? ==> 1 <= r.count < 24 && r.count * 3600 <= diffSec < (r.count + 1) * 3600
    ensures r.Days? <==> 86400 <= diffSec
    ensures r.Days? ==> 1 <= r.count && r.count * 86400 <= diffSec < (r.count + 1) * 86400
  {
    if diffSec < 60 then Seconds(diffSec)
    else if diffSec < 3600 then Minutes(diffSec / 60)
    else if diffSec < 86400 then Hours(diffSec / 3600)
    else Days(diffSec / 86400)
  }

  function Render(t: RelativeTime): string {
    match t
    case Seconds(n) => IntToString(n) + " seconds ago"
    case Minutes(n) => IntToString(n) + " minutes ago"
    case Hours(n) => IntToString(n) + " hours ago"
    case Days(n) => IntToString(n) + " days ago"
  }

  /** `formatRelativeTime`: how long before `now` the time `date` was. */
  function FormatRelativeTime(now: int, date: int): string {
    var diffSec := RoundedSeconds(now - date);
    Render(Bucket(diffSec))
  }

  /** What the page shows at the bucket edges. */
  lemma FormatRelativeTimeEdges(now: int)
    ensures FormatRelativeTime(now, now - 59000) == "59 seconds ago"
    ensures FormatRelativeTime(now, now - 60000) == "1 minutes ago"
    ensures FormatRelativeTime(now, now - 3600000) == "1 hours ago"
    ensures FormatRelativeTime(now, now - 86400000) == "1 days ago"
    ensures FormatRelativeTime(now, now + 2000) == "-2 seconds ago"
  {
    assert now - (now - 59000) == 59000 && RoundedSeconds(59000) == 59;
    assert IntToString(59) == "59" by {
      assert NatToString(59) == NatToString(5) + [DigitChar(9)];
    }
    assert now - (now - 60000) == 60000 && RoundedSeconds(60000) == 60 && Bucket(60) == Minutes(1);
    assert IntToString(1) == "1";
    assert now - (now - 3600000) == 3600000 && RoundedSeconds(3600000) == 3600 && Bucket(3600) == Hours(1);
    assert now - (now - 86400000) == 86400000 && RoundedSeconds(86400000) == 86400 && Bucket(86400) == Days(1);
    assert now - (now + 2000) == -2000 && RoundedSeconds(-2000) == -2;
    assert IntToString(-2) == "-2";
  }

  /**
   * The bucket edges: 59 seconds, then 1 minute at 60 seconds, 1 hour at
   * 3600 and 1 day at 86400; a time in the future gives a negative count
   * of seconds.
   */
  lemma BucketEdges(diffSec: int)
    ensures Bucket(59) == Seconds(59) && Bucket(60) == Minutes(1)
    ensures Bucket(3599) == Minutes(59) && Bucket(3600) == Hours(1)
    ensures Bucket(86399) == Hours(23) && Bucket(86400) == Days(1)
    ensures diffSec < 0 ==> Bucket(diffSec) == Seconds(diffSec)
  {
  }

  /** A date 1.5 seconds ahead shows -1 seconds; half a second behind rounds up to 1. */
  lemma RoundingEdges()
    ensures RoundedSeconds(-1500) == -1 && RoundedSeconds(499) == 0 && RoundedSeconds(500) == 1
  {
  }

  // ---------------------------------------------------------------------------
  // The polling interval
  // ---------------------------------------------------------------------------

  /**
   * The interval's test as written: its callback was created on the first
   * render and reads that render's `activeTasks`, taken from the initial
   * empty list, whatever the list holds now.
   */
  function PollReloadsAsWritten(current: seq<Task>): bool {
    |Active([])| > 0
  }

  /** As written, the interval never reloads, even while a task is running. */
  lemma PollNeverReloads(current: seq<Task>)
    ensures !PollReloadsAsWritten(current)
  {
  }

  /** The evidently intended test: reload while the current list has an active task. */
  function PollReloads(current: seq<Task>): (reload: bool)
    ensures reload <==> exists t :: t in current && IsActive(t.status)
  {
    var active := Active(current);
    assert |active| > 0 ==> active[0] in active;
    |active| > 0
  }

  /** A running task makes the intended test reload and the written one not. */
  lemma PollDiscrepancy(t: Task)
    requires IsActive(t.status)
    ensures PollReloads([t]) && !PollReloadsAsWritten([t])
  {
    assert t in [t];
  }

  // ---------------------------------------------------------------------------
  // The page
  // ---------------------------------------------------------------------------

  /**
   * What `fetchTaskList` gave, as the page reads it: `tasks` is
   * `data.tasks` when present. The client never throws; `LoadThrew` is the
   * page's own `catch`.
   */
  datatype LoadOutcome = LoadThrew | Loaded(success: bool, message: string, tasks: Option<seq<Task>>)

  /** What `cancelTask` gave, as the page reads it. */
  datatype CancelOutcome = CancelThrew | CancelAnswered(success: bool, message: string)

  class TasksPage {
    var loading: bool
    var tasks: seq<Task>
    var refreshing: bool
    var toasts: seq<Toast>
    /** Reloads set for one second after a successful cancel. */
    ghost var reloadsScheduled: nat

    constructor()
      ensures loading && tasks == [] && !refreshing && toasts == [] && reloadsScheduled == 0
    {
      loading := true;
      tasks := [];
      refreshing := false;
      toasts := [];
      reloadsScheduled := 0;
    }

    /** `loadTasks`: the list is replaced only by a successful response with tasks. */
    method LoadTasks(outcome: LoadOutcome)
      modifies this`loading, this`tasks, this`toasts
      ensures outcome.Loaded? && outcome.success && outcome.tasks.Some? ==>
        tasks == outcome.tasks.value && toasts == old(toasts)
      ensures outcome.Loaded? && !(outcome.success && outcome.tasks.Some?) ==>
        tasks == old(tasks) && toasts == old(toasts) + [Failure("Failed to load tasks: " + outcome.message)]
      ensures outcome.LoadThrew? ==> tasks == old(tasks) && toasts == old(toasts) + [Failure("Failed to load tasks")]
      ensures !loading
    {
      loading := true;
      match outcome {
        case Loaded(success, message, loaded) =>
          if success && loaded.Some? {
            tasks := loaded.value;
          } else {
            toasts := toasts + [Failure("Failed to load tasks: " + message)];
          }
        case LoadThrew =>
          toasts := toasts + [Failure("Failed to load tasks")];
      }
      loading := false;
    }

    /** `handleRefreshTasks`: a load, with the refresh flag cleared afterwards. */
    method HandleRefreshTasks(outcome: LoadOutcome)
      modifies this`loading, this`tasks, this`toasts, this`refreshing
      ensures outcome.Loaded? && outcome.success && outcome.tasks.Some? ==>
        tasks == outcome.tasks.value && toasts == old(toasts)
      ensures outcome.Loaded? && !(outcome.success && outcome.tasks.Some?) ==>
        tasks == old(tasks) && toasts == old(toasts) + [Failure("Failed to load tasks: " + outcome.message)]
      ensures outcome.LoadThrew? ==> tasks == old(tasks) && toasts == old(toasts) + [Failure("Failed to load tasks")]
      ensures !refreshing && !loading
    {
      refreshing := true;
      LoadTasks(outcome);
      refreshing := false;
    }

    /** `handleCancelTask`: a successful cancel marks that task and schedules a reload. */
    method HandleCancelTask(id: string, outcome: CancelOutcome)
      modifies this`tasks, this`toasts, this`reloadsScheduled
      ensures outcome.CancelAnswered? && outcome.success ==>
        tasks == MarkCancelled(old(tasks), id)
        && toasts == old(toasts) + [Success("Task cancelled successfully")]
        && reloadsScheduled == old(reloadsScheduled) + 1
      ensures outcome.CancelAnswered? && !outcome.success ==>
        tasks == old(tasks) && toasts == old(toasts) + [Failure("Failed to cancel task: " + outcome.message)]
        && reloadsScheduled == old(reloadsScheduled)
      ensures outcome.CancelThrew? ==>
        tasks == old(tasks) && toasts == old(toasts) + [Failure("Failed to cancel task")]
        && reloadsScheduled == old(reloadsScheduled)
    {
      match outcome {
        case CancelAnswered(success, message) =>
          if success {
            toasts := toasts + [Success("Task cancelled successfully")];
            tasks := MarkCancelled(tasks, id);
            reloadsScheduled := reloadsScheduled + 1;
          } else {
            toasts := toasts + [Failure("Failed to cancel task: " + message)];
          }
        case CancelThrew =>
          toasts := toasts + [Failure("Failed to cancel task")];
      }
    }

    /** One tick of the five-second interval, with the intended test: whether to reload. */
    method PollTick() returns (reload: bool)
      ensures reload <==> exists t :: t in tasks && IsActive(t.status)
    {
      var active := Active(tasks);
      reload := |active| > 0;
      if reload {
        assert active[0] in active;
      }
    }
  }
}
