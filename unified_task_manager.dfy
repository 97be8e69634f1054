/**
 * The dashboard's task panel (`UnifiedTaskManager`): a table of system
 * tasks showing at most five rows with a status badge, a progress label and
 * a cancel button for running tasks, and a tab of human-in-loop tasks.
 *
 * The fetches are outside the component: what a fetch or a cancel request
 * gave is a parameter of the handler. Times are milliseconds since the
 * epoch.
 */
module UnifiedTaskManager {
  import opened Wrappers
  import opened Text
  import opened Toasts

  datatype SystemTask = SystemTask(
    id: string,
    kind: string,
    status: string,
    progress: int,
    description: string,
    createdAt: int)

  datatype HumanTask = HumanTask(id: string, action: string, description: string, status: string, createdAt: int)

  // ---------------------------------------------------------------------------
  // Status badges and progress
  // ---------------------------------------------------------------------------

  datatype Badge = Completed | InProgress | Paused | Failed | Raw(status: string)

  /** The statuses shown as running; exactly these can be cancelled. */
  predicate IsRunningStatus(status: string) {
    status == "in_progress" || status == "running" || status == "pending"
  }

  /** `getStatusBadge`. */
  function StatusBadge(status: string): (b: Badge)
    ensures b == Completed <==> status == "completed"
    ensures b == InProgress <==> IsRunningStatus(status)
    ensures b == Paused <==> status == "paused"
    ensures b == Failed <==> status == "failed" || status == "cancelled"
    ensures b.Raw? ==> b.status == status
  {
    if status == "completed" then Completed
    else if IsRunningStatus(status) then InProgress
    else if status == "paused" then Paused
    else if status == "failed" || status == "cancelled" then Failed
    else Raw(status)
  }

  /** Whether a row offers the cancel button. */
  predicate CanCancel(task: SystemTask) {
    task.status == "in_progress" || task.status == "running" || task.status == "pending"
  }

  /** A cancel button is offered exactly on the rows badged "In Progress". */
  lemma CancelOfferedIffInProgress(task: SystemTask)
    ensures CanCancel(task) <==> StatusBadge(task.status) == InProgress
  {
  }

  /** The text under a row's progress bar. */
  function ProgressLabel(progress: int): (shown: string)
    ensures progress < 0 ==> shown == "Failed"
    ensures progress >= 0 ==> shown == NatToString(progress) + "%"
  {
    if progress < 0 then "Failed" else IntToString(progress) + "%"
  }

  /** A negative progress shows "Failed"; any other shows a percentage, never "Failed". */
  lemma ProgressLabelFailedIffNegative(progress: int)
    ensures ProgressLabel(progress) == "Failed" <==> progress < 0
    ensures progress >= 0 ==> EndsWith(ProgressLabel(progress), "%")
  {
    if progress >= 0 {
      var shown := ProgressLabel(progress);
      assert shown[|shown| - 1] == '%';
      assert "Failed"[5] == 'd';
    }
  }

  /** The filled width of a row's progress bar, in percent: a failed task shows a full bar. */
  function ProgressWidth(progress: int): (width: int)
    ensures progress < 0 ==> width == 100
    ensures progress >= 0 ==> width == progress
  {
    if progress < 0 then 100 else progress
  }

  /** The rows of the system table: the first five tasks, in list order. */
  function VisibleTasks(tasks: seq<SystemTask>): (rows: seq<SystemTask>)
    ensures |rows| == if |tasks| < 5 then |tasks| else 5
    ensures rows == tasks[..|rows|]
  {
    if |tasks| <= 5 then tasks else tasks[..5]
  }

  /** How `formatDate` shows a creation time. */
  datatype DateForm = Relative | Absolute

  /** `formatDate`: relative ("3 hours ago") when less than 24 hours old, else the full date. */
  function DateFormAt(now: int, date: int): (f: DateForm)
    ensures f == Relative <==> now - date < 24 * 60 * 60 * 1000
  {
    var diffHours := (now - date) as real / (1000.0 * 60.0 * 60.0);
    if diffHours < 24.0 then Relative else Absolute
  }

  // ---------------------------------------------------------------------------
  // Cancelling
  // ---------------------------------------------------------------------------

  /** The list after a successful cancel of `id`: the matching task is cancelled with progress -1. */
  function CancelById(tasks: seq<SystemTask>, id: string): (r: seq<SystemTask>)
    ensures |r| == |tasks|
  {
    seq(|tasks|, i requires 0 <= i < |tasks| =>
      if tasks[i].id == id then tasks[i].(status := "cancelled", progress := -1) else tasks[i])
  }

  /**
   * A cancel keeps the list's length and order and every other task; the
   * cancelled task keeps its id and other fields, shows the "Failed" badge
   * and the "Failed" progress label, and no longer offers a cancel.
   */
  lemma CancelByIdEffects(tasks: seq<SystemTask>, id: string, i: nat)
    requires i < |tasks|
    ensures CancelById(tasks, id)[i].id == tasks[i].id
    ensures tasks[i].id != id ==> CancelById(tasks, id)[i] == tasks[i]
    ensures tasks[i].id == id ==>
      && CancelById(tasks, id)[i] == tasks[i].(status := "cancelled", progress := -1)
      && StatusBadge(CancelById(tasks, id)[i].status) == Failed
      && ProgressLabel(CancelById(tasks, id)[i].progress) == "Failed"
      && !CanCancel(CancelById(tasks, id)[i])
  {
  }

  /** Cancelling twice is the same as cancelling once. */
  lemma CancelByIdIdempotent(tasks: seq<SystemTask>, id: string)
    ensures CancelById(CancelById(tasks, id), id) == CancelById(tasks, id)
  {
  }

  // ---------------------------------------------------------------------------
  // The panel
  // ---------------------------------------------------------------------------

  /**
   * What a task fetch gave: `Rejected` when its promise was rejected,
   * otherwise the response's `success` flag and its `data.tasks`, if any.
   */
  datatype FetchResult<T> = Rejected | Resolved(success: bool, tasks: Option<seq<T>>)

  /** The list a fetch leaves: replaced by `data.tasks || []` on success, kept otherwise. */
  function AfterFetch<T>(current: seq<T>, result: FetchResult<T>): (r: seq<T>)
    ensures result.Rejected? || !result.success ==> r == current
    ensures result.Resolved? && result.success && result.tasks.Some? ==> r == result.tasks.value
    ensures result.Resolved? && result.success && result.tasks.None? ==> r == []
  {
    match result
    case Resolved(success, tasks) => if success then tasks.GetOr([]) else current
    case Rejected => current
  }

  /** What a tab shows. */
  datatype TabView<T> = Spinner | Rows(rows: seq<T>) | NoTasks

  class UnifiedTaskManager {
    var systemTasks: seq<SystemTask>
    var systemTasksLoading: bool
    var refreshing: bool
    var humanTasks: seq<HumanTask>
    /** Set when the panel mounts; no handler ever clears it. */
    var humanTasksLoading: bool
    var toasts: seq<Toast>

    /** Nothing clears `humanTasksLoading`. */
    predicate Valid()
      reads this
    {
      humanTasksLoading
    }

    constructor()
      ensures Valid()
      ensures systemTasks == [] && humanTasks == [] && toasts == []
      ensures systemTasksLoading && !refreshing
    {
      systemTasks := [];
      systemTasksLoading := true;
      refreshing := false;
      humanTasks := [];
      humanTasksLoading := true;
      toasts := [];
    }

    /** `loadSystemTasks`, run on mount and every 15 seconds. */
    method LoadSystemTasks(result: FetchResult<SystemTask>)
      requires Valid()
      modifies this`systemTasks, this`systemTasksLoading
      ensures Valid()
      ensures systemTasks == AfterFetch(old(systemTasks), result)
      ensures !systemTasksLoading
    {
      systemTasksLoading := true;
      if result.Resolved? && result.success {
        systemTasks := result.tasks.GetOr([]);
      }
      systemTasksLoading := false;
    }

    /**
     * The refresh button: both lists are fetched together, and each is
     * replaced only when its own fetch succeeded; when either promise is
     * rejected neither list changes.
     */
    method Refresh(tasksResult: FetchResult<SystemTask>, humanResult: FetchResult<HumanTask>)
      requires Valid()
      modifies this`systemTasks, this`humanTasks, this`refreshing
      ensures Valid()
      ensures tasksResult.Rejected? || humanResult.Rejected? ==>
        systemTasks == old(systemTasks) && humanTasks == old(humanTasks)
      ensures !tasksResult.Rejected? && !humanResult.Rejected? ==>
        systemTasks == AfterFetch(old(systemTasks), tasksResult)
        && humanTasks == AfterFetch(old(humanTasks), humanResult)
      ensures !refreshing
    {
      refreshing := true;
      if !tasksResult.Rejected? && !humanResult.Rejected? {
        if tasksResult.success {
          systemTasks := tasksResult.tasks.GetOr([]);
        }
        if humanResult.success {
          humanTasks := humanResult.tasks.GetOr([]);
        }
      }
      refreshing := false;
    }

    /**
     * The cancel button of the row for `id`. `outcome` is `None` when the
     * request was rejected, else the response's `success` flag.
     */
    method CancelTask(id: string, outcome: Option<bool>)
      requires Valid()
      modifies this`systemTasks, this`toasts
      ensures Valid()
      ensures outcome == Some(true) ==>
        systemTasks == CancelById(old(systemTasks), id)
        && toasts == old(toasts) + [Success("Task cancelled successfully")]
      ensures outcome == Some(false) ==> systemTasks == old(systemTasks) && toasts == old(toasts)
      ensures outcome.None? ==>
        systemTasks == old(systemTasks) && toasts == old(toasts) + [Failure("Failed to cancel task")]
    {
      match outcome {
        case Some(success) =>
          if success {
            toasts := toasts + [Success("Task cancelled successfully")];
            systemTasks := CancelById(systemTasks, id);
          }
        case None =>
          toasts := toasts + [Failure("Failed to cancel task")];
      }
    }

    /** The system tab: a spinner while loading, then at most five rows, or the empty notice. */
    function SystemTab(): (v: TabView<SystemTask>)
      reads this
      ensures v.Rows? ==> v.rows == VisibleTasks(systemTasks) && 1 <= |v.rows| <= 5
      ensures v.NoTasks? <==> !systemTasksLoading && systemTasks == []
    {
      if systemTasksLoading then Spinner
      else if |systemTasks| > 0 then Rows(VisibleTasks(systemTasks))
      else NoTasks
    }

    /** The human-in-loop tab. */
    function HumanTab(): TabView<HumanTask>
      reads this
    {
      if humanTasksLoading then Spinner
      else if |humanTasks| > 0 then Rows(humanTasks)
      else NoTasks
    }

    /** Since its loading flag is never cleared, the human-in-loop tab always shows the spinner. */
    lemma HumanTabAlwaysLoading()
      requires Valid()
      ensures HumanTab() == Spinner
    {
    }
  }
}
