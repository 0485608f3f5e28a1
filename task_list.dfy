/** The child's task screen (src/components/Kids/TaskList.tsx): each task's status today, the
    day's progress, the hold-to-start guard, the grid of tasks still to take, the ids being
    paid out, and the deadline display. */
module TaskList {
  import opened Wrappers
  import opened Seqs
  import opened Text
  import opened Domain

  /** A task with the status `allTasksForToday` derives for it. */
  datatype DisplayTask = DisplayTask(task: Task, isDone: bool, isInWork: bool, isPending: bool)

  /** `myApprovals.find(a => a.taskId === taskId)`: the first approval of the task. */
  function FirstApproval(approvals: seq<Approval>, taskId: string): (r: Option<Approval>)
    ensures r.None? <==> forall i :: 0 <= i < |approvals| ==> approvals[i].taskId != taskId
    ensures r.Some? ==> exists i :: (0 <= i < |approvals| && approvals[i] == r.value && r.value.taskId == taskId
                                     && forall j :: 0 <= j < i ==> approvals[j].taskId != taskId)
  {
    if approvals == [] then None
    else if approvals[0].taskId == taskId then Some(approvals[0])
    else
      var r := FirstApproval(approvals[1..], taskId);
      assert r.Some? ==> exists i :: (0 <= i < |approvals| && approvals[i] == r.value && r.value.taskId == taskId
                                       && forall j :: 0 <= j < i ==> approvals[j].taskId != taskId) by {
        if r.Some? {
          var i :| 0 <= i < |approvals[1..]| && approvals[1..][i] == r.value && r.value.taskId == taskId
            && forall j :: 0 <= j < i ==> approvals[1..][j].taskId != taskId;
          assert approvals[i + 1] == r.value;
          forall j | 0 <= j < i + 1 ensures approvals[j].taskId != taskId {
            if j > 0 { assert approvals[j] == approvals[1..][j - 1]; }
          }
        }
      }
      assert r.None? ==> forall i :: 0 <= i < |approvals| ==> approvals[i].taskId != taskId by {
        if r.None? {
          forall i | 0 <= i < |approvals| ensures approvals[i].taskId != taskId {
            if i > 0 { assert approvals[i] == approvals[1..][i - 1]; }
          }
        }
      }
      r
  }

  /** `myApprovals.some(a => a.taskId === taskId)`. */
  predicate HasRequest(approvals: seq<Approval>, taskId: string) {
    exists i :: 0 <= i < |approvals| && approvals[i].taskId == taskId
  }

  /** The status of one task: done when completed today, in work or pending as its first approval is. */
  function Derive(t: Task, approvals: seq<Approval>, today: string): (d: DisplayTask)
    ensures d.task == t
    ensures d.isDone <==> t.lastCompleted == today
    ensures d.isInWork <==> FirstApproval(approvals, t.id).Some? && FirstApproval(approvals, t.id).value.status == InProgress
    ensures d.isPending <==> FirstApproval(approvals, t.id).Some? && FirstApproval(approvals, t.id).value.status == Pending
    ensures !(d.isInWork && d.isPending)
    ensures d.isInWork || d.isPending ==> HasRequest(approvals, t.id)
  {
    var a := FirstApproval(approvals, t.id);
    DisplayTask(t, t.lastCompleted == today,
                a.Some? && a.value.status == InProgress,
                a.Some? && a.value.status == Pending)
  }

  /** `allTasksForToday`: every available task with its status, in order. */
  function TasksForToday(tasks: seq<Task>, approvals: seq<Approval>, today: string): (r: seq<DisplayTask>)
    ensures |r| == |tasks|
    ensures forall i :: 0 <= i < |tasks| ==> r[i] == Derive(tasks[i], approvals, today)
  {
    if tasks == [] then [] else [Derive(tasks[0], approvals, today)] + TasksForToday(tasks[1..], approvals, today)
  }

  /** `pointsEarnedToday`: the points of the tasks done today. */
  function PointsEarnedToday(ds: seq<DisplayTask>): int {
    if ds == [] then 0 else (if ds[0].isDone then ds[0].task.points else 0) + PointsEarnedToday(ds[1..])
  }

  /** `totalPointsPossible`: the points of all tasks on the screen. */
  function TotalPointsPossible(ds: seq<DisplayTask>): int {
    if ds == [] then 0 else ds[0].task.points + TotalPointsPossible(ds[1..])
  }

  lemma TasksForTodayCons(tasks: seq<Task>, approvals: seq<Approval>, today: string)
    requires tasks != []
    ensures var ds := TasksForToday(tasks, approvals, today);
      && ds[0].task == tasks[0]
      && (ds[0].isDone <==> tasks[0].lastCompleted == today)
      && ds[1..] == TasksForToday(tasks[1..], approvals, today)
  {
  }

  lemma SumPointsCons(t: Task, rest: seq<Task>)
    ensures SumPoints([t] + rest) == t.points + SumPoints(rest)
  {
    assert ([t] + rest)[1..] == rest;
  }

  /** The earned points are those of the tasks completed today. */
  lemma {:induction false} EarnedIsDoneSum(tasks: seq<Task>, approvals: seq<Approval>, today: string)
    ensures PointsEarnedToday(TasksForToday(tasks, approvals, today)) == SumPoints(Filter(DoneToday(today), tasks))
  {
    if tasks != [] {
      var t, rest := tasks[0], tasks[1..];
      TasksForTodayCons(tasks, approvals, today);
      EarnedIsDoneSum(rest, approvals, today);
      assert tasks == [t] + rest;
      FilterCons(DoneToday(today), t, rest);
      if t.lastCompleted == today {
        SumPointsCons(t, Filter(DoneToday(today), rest));
      }
    }
  }

  /** The possible points are those of all tasks. */
  lemma {:induction false} PossibleIsSum(tasks: seq<Task>, approvals: seq<Approval>, today: string)
    ensures TotalPointsPossible(TasksForToday(tasks, approvals, today)) == SumPoints(tasks)
  {
    if tasks != [] {
      TasksForTodayCons(tasks, approvals, today);
      PossibleIsSum(tasks[1..], approvals, today);
    }
  }

  /** With no negative points the progress never exceeds what is possible, and the percentage
      shown is 0 when nothing is possible and otherwise within 0..100. */
  lemma ProgressBounds(tasks: seq<Task>, approvals: seq<Approval>, today: string)
    requires NonNegativePoints(tasks)
    ensures var ds := TasksForToday(tasks, approvals, today);
      && 0 <= PointsEarnedToday(ds) <= TotalPointsPossible(ds)
      && (TotalPointsPossible(ds) == 0 ==> RoundedPercent(PointsEarnedToday(ds), TotalPointsPossible(ds)) == 0)
      && 0 <= RoundedPercent(PointsEarnedToday(ds), TotalPointsPossible(ds)) <= 100
  {
    EarnedIsDoneSum(tasks, approvals, today);
    PossibleIsSum(tasks, approvals, today);
    SumPointsFilterBound(DoneToday(today), tasks);
  }

  /** `startHolding`'s guard: a task can be held only when nothing about it is under way. */
  predicate CanStartHolding(d: DisplayTask, approvals: seq<Approval>, approvingId: Option<string>, holdId: Option<string>) {
    !(HasRequest(approvals, d.task.id) || d.isDone || d.isInWork || d.isPending
      || approvingId == Some(d.task.id) || holdId == Some(d.task.id))
  }

  /** For a derived task the in-work and pending tests add nothing to the request test: the hold
      is refused exactly when the task has a request, is done, or is being approved or held. */
  lemma HoldGuardSimplified(t: Task, approvals: seq<Approval>, today: string, approvingId: Option<string>, holdId: Option<string>)
    ensures CanStartHolding(Derive(t, approvals, today), approvals, approvingId, holdId)
       <==> !HasRequest(approvals, t.id) && t.lastCompleted != today
            && approvingId != Some(t.id) && holdId != Some(t.id)
  {
  }

  /** Whether the grid of available tasks shows a task. */
  predicate ShownInGrid(d: DisplayTask, approvingId: Option<string>, processingDoneIds: seq<string>) {
    !(d.isDone || d.isInWork || approvingId == Some(d.task.id) || d.task.id in processingDoneIds)
  }

  /** `isWaiting`: the card of a shown task waits for a parent. */
  predicate IsWaiting(d: DisplayTask, approvals: seq<Approval>) {
    d.isPending || HasRequest(approvals, d.task.id)
  }

  /** The tasks of the available grid, in order. */
  function AvailableGrid(ds: seq<DisplayTask>, approvingId: Option<string>, processingDoneIds: seq<string>): (r: seq<DisplayTask>)
    ensures forall d :: d in r <==> (d in ds && !d.isDone && !d.isInWork
                                     && approvingId != Some(d.task.id) && d.task.id !in processingDoneIds)
  {
    Filter((d: DisplayTask) => ShownInGrid(d, approvingId, processingDoneIds), ds)
  }

  /** A derived task's card waits exactly when the task has any request. */
  lemma WaitingMeansRequest(t: Task, approvals: seq<Approval>, today: string)
    ensures IsWaiting(Derive(t, approvals, today), approvals) <==> HasRequest(approvals, t.id)
  {
  }

  /** The "in progress" section: the approvals in work, in order. */
  function InProgressCards(approvals: seq<Approval>): (r: seq<Approval>)
    ensures forall a :: a in r <==> a in approvals && a.status == InProgress
    ensures |r| <= |approvals|
  {
    Filter((a: Approval) => a.status == InProgress, approvals)
  }

  /** `availableTasks.find(task => task.id === a.taskId)`. */
  function FindTask(tasks: seq<Task>, id: string): (r: Option<Task>)
    ensures r.None? <==> forall i :: 0 <= i < |tasks| ==> tasks[i].id != id
    ensures r.Some? ==> r.value in tasks && r.value.id == id
  {
    if tasks == [] then None
    else if tasks[0].id == id then Some(tasks[0])
    else
      var r := FindTask(tasks[1..], id);
      assert r.None? ==> forall i :: 0 <= i < |tasks| ==> tasks[i].id != id by {
        if r.None? {
          forall i | 0 <= i < |tasks| ensures tasks[i].id != id {
            if i > 0 { assert tasks[i] == tasks[1..][i - 1]; }
          }
        }
      }
      r
  }

  /** The start button of an in-work card: shown when that card is not being processed, no timer
      runs, and the card's task has a duration that is not zero; it starts that many minutes. */
  function TimerButton(a: Approval, tasks: seq<Task>, approvingId: Option<string>, timerRunning: bool): (r: Option<int>)
    ensures r.Some? <==> (approvingId != Some(a.id) && !timerRunning && FindTask(tasks, a.taskId).Some?
                          && FindTask(tasks, a.taskId).value.duration.Some? && FindTask(tasks, a.taskId).value.duration.value != 0)
    ensures r.Some? ==> r.value != 0 && exists t :: t in tasks && t.id == a.taskId && t.duration == Some(r.value)
  {
    var info := FindTask(tasks, a.taskId);
    if approvingId != Some(a.id) && !timerRunning && info.Some? && info.value.duration.Some? && info.value.duration.value != 0
    then Some(info.value.duration.value)
    else None
  }

  /** `processingDoneIds.filter(id => id !== taskId)`. */
  function WithoutId(ids: seq<string>, taskId: string): (r: seq<string>)
    ensures taskId !in r
    ensures forall x :: x != taskId ==> multiset(r)[x] == multiset(ids)[x]
  {
    if ids == [] then []
    else
      assert ids == [ids[0]] + ids[1..];
      if ids[0] == taskId then WithoutId(ids[1..], taskId) else [ids[0]] + WithoutId(ids[1..], taskId)
  }

  /** Adding an id and cleaning it up again leaves the other ids as they were. */
  lemma {:induction false} CleanupUndoesAdd(ids: seq<string>, taskId: string)
    ensures WithoutId(ids + [taskId], taskId) == WithoutId(ids, taskId)
  {
    if ids == [] {
      assert [] + [taskId] == [taskId];
    } else {
      assert (ids + [taskId])[1..] == ids[1..] + [taskId];
      CleanupUndoesAdd(ids[1..], taskId);
    }
  }

  /** The deadline card: hours and minutes left until the evening deadline, or expired. */
  datatype Deadline = Remaining(hours: nat, minutes: nat) | Expired

  const HourMs := 3600000
  const MinuteMs := 60000

  /** `getDeadlineInfo` for the milliseconds left (`diffMs`): whole hours, then whole minutes of
      the rest; nothing left shows as expired. */
  function DeadlineInfo(diffMs: int): (d: Deadline)
    ensures diffMs <= 0 <==> d == Expired
    ensures d.Remaining? ==>
      && d.minutes < 60
      && d.hours * HourMs + d.minutes * MinuteMs <= diffMs < d.hours * HourMs + (d.minutes + 1) * MinuteMs
  {
    if diffMs > 0 then Remaining(diffMs / HourMs, (diffMs % HourMs) / MinuteMs) else Expired
  }

  /** The deadline text: "<h>ч <m>м", or the expired message. */
  function DeadlineText(d: Deadline): (s: string)
    ensures d.Remaining? ==> s == NatToString(d.hours) + "ч " + NatToString(d.minutes) + "м"
    ensures d == Expired ==> s == "Время вышло"
  {
    match d
    case Remaining(h, m) => NatToString(h) + "ч " + NatToString(m) + "м"
    case Expired => "Время вышло"
  }

  /** The screen's own state: the request being approved, the tasks whose payout is in flight, and
      the task being held. */
  class TaskListView {
    var approvingId: Option<string>
    var processingDoneIds: seq<string>
    var holdId: Option<string>

    constructor ()
      ensures approvingId == None && processingDoneIds == [] && holdId == None
    {
      approvingId, processingDoneIds, holdId := None, [], None;
    }

    /** `startHolding`: refused by the guard; a parent who confirms starts the request at once,
        a child begins holding the card. */
    method StartHolding(d: DisplayTask, approvals: seq<Approval>, isParent: bool, confirmed: bool)
      modifies this`holdId, this`approvingId
      ensures !CanStartHolding(d, approvals, old(approvingId), old(holdId)) || (isParent && !confirmed) ==>
        holdId == old(holdId) && approvingId == old(approvingId)
      ensures CanStartHolding(d, approvals, old(approvingId), old(holdId)) && isParent && confirmed ==>
        holdId == None && approvingId == Some(d.task.id)
      ensures CanStartHolding(d, approvals, old(approvingId), old(holdId)) && !isParent ==>
        holdId == Some(d.task.id) && approvingId == old(approvingId)
    {
      if !CanStartHolding(d, approvals, approvingId, holdId) { return; }
      if isParent {
        if confirmed { ExecuteRequest(d.task); }
        return;
      }
      holdId := Some(d.task.id);
    }

    /** `stopHolding`: the card is released before the hold completed. */
    method StopHolding()
      modifies this`holdId
      ensures holdId == None
    {
      holdId := None;
    }

    /** `executeRequest` (the hold completed or a parent confirmed): the task is being approved. */
    method ExecuteRequest(t: Task)
      modifies this`holdId, this`approvingId
      ensures holdId == None && approvingId == Some(t.id)
    {
      holdId := None;
      approvingId := Some(t.id);
    }

    /** The end of `executeRequest`'s delay, after `requestToStart` was written. */
    method RequestWritten()
      modifies this`approvingId
      ensures approvingId == None
    {
      approvingId := None;
    }

    /** `handleDoneClick`: a parent must confirm; the approval is being processed and its task id
        joins the in-flight list. */
    method HandleDoneClick(approvalId: string, taskId: string, isParent: bool, confirmed: bool)
      modifies this`approvingId, this`processingDoneIds
      ensures isParent && !confirmed ==> approvingId == old(approvingId) && processingDoneIds == old(processingDoneIds)
      ensures !isParent || confirmed ==> approvingId == Some(approvalId) && processingDoneIds == old(processingDoneIds) + [taskId]
    {
      if isParent && !confirmed { return; }
      approvingId := Some(approvalId);
      processingDoneIds := processingDoneIds + [taskId];
    }

    /** The end of `handleDoneClick`'s first delay, after `markAsDone` was written. */
    method DoneWritten()
      modifies this`approvingId
      ensures approvingId == None
    {
      approvingId := None;
    }

    /** The later cleanup: every occurrence of the task id leaves the in-flight list, nothing else does. */
    method DoneCleanup(taskId: string)
      modifies this`processingDoneIds
      ensures processingDoneIds == WithoutId(old(processingDoneIds), taskId)
    {
      processingDoneIds := WithoutId(processingDoneIds, taskId);
    }
  }
}
