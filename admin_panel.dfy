/** The parent's panel (src/components/Admin/AdminPanel.tsx): the selected child's daily load,
    the final approval that settles a request against the ledger, clearing one-off tasks, and
    the task editor. */
module AdminPanel {
  import opened Wrappers
  import opened Seqs
  import opened Domain
  import App

  /** `childTasks`' test: assigned to the selected child (a missing `assignedTo` never equals it) or to 'all'. */
  predicate IsForChild(t: Task, selectedChildId: string) {
    t.assignedTo != "" && (t.assignedTo == selectedChildId || t.assignedTo == "all")
  }

  function ChildTasks(tasks: seq<Task>, selectedChildId: string): (r: seq<Task>)
    ensures forall t :: t in r <==> t in tasks && t.assignedTo != "" && (t.assignedTo == selectedChildId || t.assignedTo == "all")
  {
    Filter((t: Task) => IsForChild(t, selectedChildId), tasks)
  }

  /** `maxPointsToday`: the points of all the child's tasks. */
  function MaxPointsToday(tasks: seq<Task>, selectedChildId: string): int {
    SumPoints(ChildTasks(tasks, selectedChildId))
  }

  /** `earnedToday`: the points of the child's tasks completed today. */
  function EarnedToday(tasks: seq<Task>, selectedChildId: string, today: string): int {
    SumPoints(Filter(DoneToday(today), ChildTasks(tasks, selectedChildId)))
  }

  /** What is earned today never exceeds the day's maximum while no task has negative points, and
      the two differ by exactly the points of the child's tasks still open today. */
  lemma DailyLoadBounds(tasks: seq<Task>, selectedChildId: string, today: string)
    ensures EarnedToday(tasks, selectedChildId, today)
          + SumPoints(Filter(OpenToday(today), ChildTasks(tasks, selectedChildId)))
         == MaxPointsToday(tasks, selectedChildId)
    ensures NonNegativePoints(tasks) ==>
      0 <= EarnedToday(tasks, selectedChildId, today) <= MaxPointsToday(tasks, selectedChildId)
  {
    var child := ChildTasks(tasks, selectedChildId);
    SumPointsSplit(DoneToday(today), OpenToday(today), child);
    if NonNegativePoints(tasks) {
      assert forall i :: 0 <= i < |child| ==> child[i] in tasks;
      SumPointsFilterBound(DoneToday(today), child);
    }
  }

  /** `adminProgressPercent`: 0 when the maximum is 0, and within 0..100 while points are non-negative. */
  lemma AdminProgressBounds(tasks: seq<Task>, selectedChildId: string, today: string)
    ensures MaxPointsToday(tasks, selectedChildId) == 0 ==>
      RoundedPercent(EarnedToday(tasks, selectedChildId, today), MaxPointsToday(tasks, selectedChildId)) == 0
    ensures NonNegativePoints(tasks) ==>
      0 <= RoundedPercent(EarnedToday(tasks, selectedChildId, today), MaxPointsToday(tasks, selectedChildId)) <= 100
  {
    DailyLoadBounds(tasks, selectedChildId, today);
  }

  /** A request is a purchase when its points are negative. */
  predicate IsPurchase(app: Approval) {
    app.points < 0
  }

  /** The user document after the final approval: a purchase only lowers `currentBalance`, an
      earning raises both `totalPoints` and `currentBalance`. */
  function Settle(u: User, points: int): (v: User)
    ensures points < 0 ==> v.totalPoints == u.totalPoints && v.currentBalance == u.currentBalance + points
    ensures points >= 0 ==> v.totalPoints == u.totalPoints + points && v.currentBalance == u.currentBalance + points
    ensures v.(totalPoints := u.totalPoints, currentBalance := u.currentBalance) == u
  {
    if points < 0 then u.(currentBalance := u.currentBalance + points)
    else u.(totalPoints := u.totalPoints + points, currentBalance := u.currentBalance + points)
  }

  /** The history entry of a settled request: same user, label and points; 'spend' exactly for a purchase. */
  function SettlementEntry(app: Approval, day: string): (e: HistoryEntry)
    ensures e.userId == app.userId && e.caption == app.caption && e.points == app.points
    ensures e.day == Some(day)
    ensures e.kind == Spend <==> app.points < 0
  {
    HistoryEntry(app.userId, app.caption, app.points, Some(day), if app.points < 0 then Spend else Earn)
  }

  /** The task list after a request is settled: a linked auto-repeat task is stamped with today's
      date, a linked one-off task is deleted, anything else is left as it was. */
  function SettleTemplate(tasks: map<string, Task>, taskId: string, today: string): (r: map<string, Task>)
    ensures taskId == "" || taskId !in tasks ==> r == tasks
    ensures taskId != "" && taskId in tasks && tasks[taskId].isAutoRepeat ==>
      r == tasks[taskId := tasks[taskId].(lastCompleted := today)]
    ensures taskId != "" && taskId in tasks && !tasks[taskId].isAutoRepeat ==> r == tasks - {taskId}
  {
    if taskId != "" && taskId in tasks then
      if tasks[taskId].isAutoRepeat then tasks[taskId := tasks[taskId].(lastCompleted := today)]
      else tasks - {taskId}
    else tasks
  }

  /** `handleFinalApprove`: settles the request against its user's balances (creating the
      document if needed), logs it, settles the linked template and deletes the request; a
      request without a user writes nothing. */
  method HandleFinalApprove(db: Store, app: Approval, today: string, day: string)
    requires db.Valid()
    modifies db`users, db`history, db`tasks, db`approvals
    ensures db.Valid()
    ensures app.userId == "" ==> unchanged(db)
    ensures app.userId != "" ==>
      && db.users == old(db.users)[app.userId := Settle(if app.userId in old(db.users) then old(db.users)[app.userId] else EmptyUser, app.points)]
      && db.history == old(db.history) + [SettlementEntry(app, day)]
      && db.tasks == SettleTemplate(old(db.tasks), app.taskId, today)
      && db.approvals == old(db.approvals) - {app.id}
    ensures app.userId != "" ==>
      && TotalOf(db.users, app.userId) == TotalOf(old(db.users), app.userId) + (if app.points < 0 then 0 else app.points)
      && BalanceOf(db.users, app.userId) == BalanceOf(old(db.users), app.userId) + app.points
    ensures LedgerAgrees(old(db.users), old(db.history)) ==> LedgerAgrees(db.users, db.history)
  {
    if app.userId == "" { return; }
    ghost var users0, history0 := db.users, db.history;
    var u := if app.userId in db.users then db.users[app.userId] else EmptyUser;
    db.users := db.users[app.userId := Settle(u, app.points)];
    var entry := SettlementEntry(app, day);
    db.history := db.history + [entry];
    if LedgerAgrees(users0, history0) {
      LedgerStep(users0, history0, app.userId, Settle(u, app.points), entry);
    }
    db.tasks := SettleTemplate(db.tasks, app.taskId, today);
    db.approvals := db.approvals - {app.id};
  }

  /** The request list, by document id: every approval of the selected child, whatever its status,
      each shown with an OK button that settles it. */
  function RequestIds(approvals: map<string, Approval>, selectedChildId: string): (r: set<string>)
    ensures forall id :: id in r <==> id in approvals && approvals[id].userId == selectedChildId
    ensures r <= approvals.Keys
  {
    set id | id in approvals && approvals[id].userId == selectedChildId
  }

  /** A request paid out automatically stays on the list: `markAsDone` only marks it completed, so
      a parent's OK settles it again and the child's `totalPoints` grows by twice its points. */
  lemma AutoPaidRequestPaysTwice(approvals: map<string, Approval>, id: string, u: User)
    requires id in approvals && approvals[id].points > 0
    ensures var a := approvals[id];
      && id in RequestIds(approvals[id := a.(status := Completed)], a.userId)
      && Settle(App.CreditTotal(u, a.points), a.points).totalPoints == u.totalPoints + 2 * a.points
  {
  }

  /** `tasksToDelete`' test: the child's (or everyone's) tasks that do not repeat. */
  predicate IsClearable(t: Task, selectedChildId: string) {
    IsForChild(t, selectedChildId) && !t.isAutoRepeat
  }

  /** The task collection after `clearOldTasks`. */
  function ClearedTasks(tasks: map<string, Task>, selectedChildId: string): (r: map<string, Task>)
    ensures forall k :: k in r <==> k in tasks && !IsClearable(tasks[k], selectedChildId)
    ensures forall k :: k in r ==> r[k] == tasks[k]
  {
    map k | k in tasks && !IsClearable(tasks[k], selectedChildId) :: tasks[k]
  }

  /** Clearing twice deletes nothing more. */
  lemma ClearIdempotent(tasks: map<string, Task>, selectedChildId: string)
    ensures ClearedTasks(ClearedTasks(tasks, selectedChildId), selectedChildId) == ClearedTasks(tasks, selectedChildId)
  {
  }

  /** `clearOldTasks`: after the parent confirms, exactly the clearable tasks are deleted. */
  method ClearOldTasks(db: Store, selectedChildId: string, confirmed: bool)
    requires db.Valid()
    modifies db`tasks
    ensures db.Valid()
    ensures !confirmed ==> db.tasks == old(db.tasks)
    ensures confirmed ==> db.tasks == ClearedTasks(old(db.tasks), selectedChildId)
  {
    if !confirmed { return; }
    db.tasks := ClearedTasks(db.tasks, selectedChildId);
  }

  /** The editor's form fields. */
  datatype TaskForm = TaskForm(
    caption: string,
    points: int,
    icon: string,
    duration: int,
    autoRepeat: bool,
    autoApprove: bool,
    autoPayout: bool)

  const DefaultIcon := "\U{1F4DD}"

  /** The form's initial and reset values. */
  const DefaultForm := TaskForm("", 10, DefaultIcon, 0, false, false, false)

  /** `copyToForm`: the fields of a template, with the defaults for a missing icon or duration. */
  function FormOf(t: Task): (f: TaskForm)
    ensures f.caption == t.caption && f.points == t.points
    ensures f.icon == (if t.icon == "" then DefaultIcon else t.icon)
    ensures f.duration == (if t.duration.Some? then t.duration.value else 0)
    ensures f.autoRepeat == t.isAutoRepeat && f.autoApprove == t.isAutoApprove && f.autoPayout == t.isAutoPayout
  {
    TaskForm(t.caption, t.points, if t.icon == "" then DefaultIcon else t.icon,
             if t.duration.Some? then t.duration.value else 0,
             t.isAutoRepeat, t.isAutoApprove, t.isAutoPayout)
  }

  /** The template `addTask` writes: the form's data assigned to the selected child, a duration
      stored only when positive, and whatever `lastCompleted` the merged document already had. */
  function SavedTask(id: string, previous: Option<Task>, f: TaskForm, selectedChildId: string): (t: Task)
    ensures t.id == id && t.caption == f.caption && t.points == f.points && t.icon == f.icon
    ensures t.duration == (if f.duration > 0 then Some(f.duration) else None)
    ensures t.isAutoRepeat == f.autoRepeat && t.isAutoApprove == f.autoApprove && t.isAutoPayout == f.autoPayout
    ensures t.assignedTo == selectedChildId
    ensures t.lastCompleted == (if previous.Some? then previous.value.lastCompleted else "")
  {
    Task(id, f.caption, f.points, f.icon, if f.duration > 0 then Some(f.duration) else None,
         f.autoRepeat, f.autoApprove, f.autoPayout,
         if previous.Some? then previous.value.lastCompleted else "", selectedChildId)
  }

  /** Opening a template in the editor and saving it unchanged writes back the same template,
      as long as it had an icon, no non-positive duration, and belongs to the selected child. */
  lemma EditRoundTrip(t: Task)
    requires t.icon != "" && t.assignedTo != ""
    requires t.duration.None? || t.duration.value > 0
    ensures SavedTask(t.id, Some(t), FormOf(t), t.assignedTo) == t
  {
  }

  /** The editor: its form and the template being edited, if any. */
  class TaskEditor {
    var form: TaskForm
    var editingId: Option<string>

    constructor ()
      ensures form == DefaultForm && editingId == None
    {
      form := DefaultForm;
      editingId := None;
    }

    /** `copyToForm`: load a template for editing. */
    method CopyToForm(t: Task)
      modifies this
      ensures form == FormOf(t) && editingId == Some(t.id)
    {
      form := FormOf(t);
      editingId := Some(t.id);
    }

    /** The form's cancel button. */
    method CancelEdit()
      modifies this`editingId
      ensures editingId == None
    {
      editingId := None;
    }

    /** `addTask`: nothing without a label or a selected child; otherwise the edited template is
        merged (or a new one created under the fresh id the backend assigns), and the form resets. */
    method AddTask(db: Store, selectedChildId: string, newId: string)
      requires db.Valid() && newId !in db.tasks
      modifies this, db`tasks
      ensures db.Valid()
      ensures old(form.caption) == "" || selectedChildId == "" ==>
        db.tasks == old(db.tasks) && form == old(form) && editingId == old(editingId)
      ensures old(form.caption) != "" && selectedChildId != "" ==>
        && form == DefaultForm && editingId == None
        && (old(editingId).Some? ==>
              var id := old(editingId).value;
              db.tasks == old(db.tasks)[id := SavedTask(id, if id in old(db.tasks) then Some(old(db.tasks)[id]) else None, old(form), selectedChildId)])
        && (old(editingId).None? ==>
              db.tasks == old(db.tasks)[newId := SavedTask(newId, None, old(form), selectedChildId)])
    {
      if form.caption == "" || selectedChildId == "" { return; }
      if editingId.Some? {
        var id := editingId.value;
        var previous := if id in db.tasks then Some(db.tasks[id]) else None;
        db.tasks := db.tasks[id := SavedTask(id, previous, form, selectedChildId)];
        editingId := None;
      } else {
        db.tasks := db.tasks[newId := SavedTask(newId, None, form, selectedChildId)];
      }
      form := DefaultForm;
    }
  }
}
