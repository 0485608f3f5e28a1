/** The root component (src/App.tsx): the countdown display, which tasks a child sees, the
    default child of a parent, the countdown timer, and the two writes a child's task card
    triggers, `requestToStart` and `markAsDone`. */
module App {
  import opened Wrappers
  import opened Text
  import opened Seqs
  import opened Domain

  /** `formatTime`: minutes, a colon, and the seconds as two digits ("m:ss"). */
  function FormatTime(seconds: nat): (r: string)
    ensures |r| >= 4 && r[|r| - 3] == ':'
    ensures AllDigits(r[..|r| - 3]) && AllDigits(r[|r| - 2..])
    ensures DigitsValue(r[..|r| - 3]) == seconds / 60
    ensures DigitsValue(r[|r| - 2..]) == seconds % 60
    ensures r[..|r| - 3] == NatToString(seconds / 60)
    ensures r[0] == '0' ==> seconds < 60
  {
    var m := NatToString(seconds / 60);
    var ss := TwoDigits(seconds % 60);
    TimeParts(m, ss);
    m + ":" + ss
  }

  /** `padStart(2, '0')` of a number below 100. */
  function TwoDigits(n: nat): (ss: string)
    requires n < 100
    ensures |ss| == 2 && AllDigits(ss) && DigitsValue(ss) == n
  {
    if n < 10 then
      var ss := "0" + NatToString(n);
      assert ss[..1] == "0";
      ss
    else
      assert NatToString(n) == NatToString(n / 10) + [DigitChar(n % 10)];
      NatToString(n)
  }

  lemma TimeParts(m: string, ss: string)
    requires |ss| == 2
    ensures var r := m + ":" + ss; r[..|r| - 3] == m && r[|r| - 3] == ':' && r[|r| - 2..] == ss
  {
  }

  /** Reads an "m:ss" display back as seconds. */
  function ParseTime(r: string): Option<nat> {
    if |r| >= 4 && r[|r| - 3] == ':' && AllDigits(r[..|r| - 3]) && AllDigits(r[|r| - 2..]) then
      Some(DigitsValue(r[..|r| - 3]) * 60 + DigitsValue(r[|r| - 2..]))
    else None
  }

  /** The display reads back as the duration it shows. */
  lemma FormatTimeRoundTrip(seconds: nat)
    ensures ParseTime(FormatTime(seconds)) == Some(seconds)
  {
    assert seconds == seconds / 60 * 60 + seconds % 60;
  }

  /** Two different durations never display the same. */
  lemma FormatTimeInjective(a: nat, b: nat)
    requires FormatTime(a) == FormatTime(b)
    ensures a == b
  {
    FormatTimeRoundTrip(a);
    FormatTimeRoundTrip(b);
  }

  /** The snapshot filter of the task subscription: a task is shown when it is assigned to
      nobody, to 'all', or to the target user. */
  predicate IsVisible(task: Task, target: string) {
    task.assignedTo == "" || task.assignedTo == "all" || task.assignedTo == target
  }

  /** Whose data the screen shows: a child's own, or the child a parent selected. */
  function TargetId(profile: Profile, selectedChildId: string): (target: string)
    ensures profile.user.role == Child ==> target == profile.uid
    ensures profile.user.role != Child ==> target == selectedChildId
  {
    if profile.user.role == Child then profile.uid else selectedChildId
  }

  /** `availableTasks`: the visible tasks, in snapshot order. */
  function VisibleTasks(all: seq<Task>, target: string): (r: seq<Task>)
    ensures forall t :: t in r <==>
      t in all && (t.assignedTo == "" || t.assignedTo == "all" || t.assignedTo == target)
    ensures |r| <= |all|
  {
    Filter((t: Task) => IsVisible(t, target), all)
  }

  /** The uid of the first child member, "" when the family has no child. */
  function FirstChild(members: seq<Profile>): (uid: string)
    ensures (forall i :: 0 <= i < |members| ==> members[i].user.role != Child) ==> uid == ""
    ensures (exists i :: 0 <= i < |members| && members[i].user.role == Child) ==>
      exists i :: 0 <= i < |members| && members[i].user.role == Child && uid == members[i].uid
        && forall j :: 0 <= j < i ==> members[j].user.role != Child
  {
    if members == [] then ""
    else if members[0].user.role == Child then members[0].uid
    else
      var uid := FirstChild(members[1..]);
      assert (exists i :: 0 <= i < |members| && members[i].user.role == Child) ==>
        exists i :: 0 <= i < |members[1..]| && members[1..][i].user.role == Child by {
        if exists i :: 0 <= i < |members| && members[i].user.role == Child {
          var i :| 0 <= i < |members| && members[i].user.role == Child;
          assert members[1..][i - 1] == members[i];
        }
      }
      assert (exists i :: 0 <= i < |members[1..]| && members[1..][i].user.role == Child) ==>
        exists i :: 0 <= i < |members| && members[i].user.role == Child && uid == members[i].uid
          && forall j :: 0 <= j < i ==> members[j].user.role != Child by {
        if exists i :: 0 <= i < |members[1..]| && members[1..][i].user.role == Child {
          var i :| 0 <= i < |members[1..]| && members[1..][i].user.role == Child && uid == members[1..][i].uid
            && forall j :: 0 <= j < i ==> members[1..][j].user.role != Child;
          assert members[i + 1] == members[1..][i];
          forall j | 0 <= j < i + 1 ensures members[j].user.role != Child {
            if j > 0 { assert members[j] == members[1..][j - 1]; }
          }
        }
      }
      uid
  }

  /** The family snapshot's choice of child: an existing selection is kept; with none, the first
      child member becomes selected. */
  function DefaultChild(members: seq<Profile>, selectedChildId: string): (r: string)
    ensures selectedChildId != "" ==> r == selectedChildId
    ensures selectedChildId == "" ==> r == FirstChild(members)
  {
    if selectedChildId == "" then FirstChild(members) else selectedChildId
  }

  /** The running countdown: the approval it belongs to and the seconds left. */
  datatype Timer = Timer(id: string, timeLeft: int)

  /** One pass of the timer effect: a second goes by while time is left; at zero the timer is
      cleared; a negative count (never started that way) is left alone. */
  function Tick(t: Option<Timer>): (r: Option<Timer>)
    ensures t.Some? && t.value.timeLeft > 0 ==> r == Some(Timer(t.value.id, t.value.timeLeft - 1))
    ensures t.Some? && t.value.timeLeft == 0 ==> r == None
    ensures t.None? || t.value.timeLeft < 0 ==> r == t
  {
    match t
    case None => None
    case Some(tm) =>
      if tm.timeLeft > 0 then Some(tm.(timeLeft := tm.timeLeft - 1))
      else if tm.timeLeft == 0 then None
      else t
  }

  /** `n` passes of the timer effect. */
  function Ticks(t: Option<Timer>, n: nat): Option<Timer>
    decreases n
  {
    if n == 0 then t else Ticks(Tick(t), n - 1)
  }

  /** A countdown started at `n` seconds shows `n - k` after `k <= n` ticks, and is gone one
      tick after reaching zero. */
  lemma {:induction false} CountdownRunsDown(id: string, n: nat, k: nat)
    requires k <= n
    ensures Ticks(Some(Timer(id, n)), k) == Some(Timer(id, n - k))
    ensures Ticks(Some(Timer(id, n)), n + 1) == None
  {
    if k > 0 {
      CountdownRunsDown(id, n - 1, k - 1);
    } else if n > 0 {
      CountdownRunsDown(id, n - 1, 0);
    }
  }

  /** The approval `requestToStart` creates for `task`: auto-approved tasks start in progress,
      every other request waits for a parent. */
  function NewRequest(id: string, task: Task, profile: Profile): (a: Approval)
    ensures a.id == id && a.taskId == task.id && a.caption == task.caption && a.points == task.points
    ensures a.status == InProgress <==> task.isAutoApprove
    ensures a.status == Pending <==> !task.isAutoApprove
    ensures a.userId == profile.uid && a.familyId == profile.user.familyId
    ensures a.icon == if task.icon == "" then "\U{1F4DD}" else task.icon
  {
    Approval(id, task.id, task.caption, task.points,
             if task.isAutoApprove then InProgress else Pending,
             profile.uid, profile.user.familyId,
             if task.icon == "" then "\U{1F4DD}" else task.icon)
  }

  /** `myApprovals.find(a => a.id === approvalId)`: the target's approval with that id. */
  function FindApproval(approvals: map<string, Approval>, approvalId: string, target: string): (r: Option<Approval>)
    ensures r.Some? <==> approvalId in approvals && approvals[approvalId].userId == target
    ensures r.Some? ==> r.value == approvals[approvalId]
  {
    if approvalId in approvals && approvals[approvalId].userId == target then Some(approvals[approvalId]) else None
  }

  /** `availableTasks.find(t => t.id === approval.taskId)`: the visible template of a request. */
  function FindTemplate(tasks: map<string, Task>, taskId: string, target: string): (r: Option<Task>)
    ensures r.Some? <==> taskId != "" && taskId in tasks && IsVisible(tasks[taskId], target)
    ensures r.Some? ==> r.value == tasks[taskId]
  {
    if taskId != "" && taskId in tasks && IsVisible(tasks[taskId], target) then Some(tasks[taskId]) else None
  }

  /** The user document after an auto-payout: `totalPoints` is credited, nothing else changes. */
  function CreditTotal(u: User, points: int): (v: User)
    ensures v.totalPoints == u.totalPoints + points
    ensures v.currentBalance == u.currentBalance
    ensures v.(totalPoints := u.totalPoints) == u
  {
    u.(totalPoints := u.totalPoints + points)
  }

  /** An auto-payout credits `totalPoints` by exactly what its 'earn' entry adds to the history. */
  lemma PayoutKeepsLedger(users: map<string, User>, history: seq<HistoryEntry>, payout: bool, entry: HistoryEntry)
    requires payout ==> entry.userId in users && entry.kind == Earn
    ensures LedgerAgrees(users, history) ==>
      LedgerAgrees(if payout then users[entry.userId := CreditTotal(users[entry.userId], entry.points)] else users,
                   if payout then history + [entry] else history)
  {
    if payout && LedgerAgrees(users, history) {
      LedgerStep(users, history, entry.userId, CreditTotal(users[entry.userId], entry.points), entry);
    }
  }

  /** The state of the root component: the signed-in profile, the selected child, the family
      members and the countdown. */
  class AppState {
    const db: Store
    var profile: Option<Profile>
    var selectedChildId: string
    var familyMembers: seq<Profile>
    var runningTimer: Option<Timer>

    constructor (db: Store, profile: Option<Profile>)
      ensures this.db == db && this.profile == profile
      ensures selectedChildId == "" && familyMembers == [] && runningTimer == None
    {
      this.db := db;
      this.profile := profile;
      selectedChildId := "";
      familyMembers := [];
      runningTimer := None;
    }

    /** The user whose tasks and approvals are on screen. */
    function Target(): string
      reads this
      requires profile.Some?
    {
      TargetId(profile.value, selectedChildId)
    }

    /** A family snapshot arrives: the member list is replaced and a child is selected by default. */
    method OnFamilySnapshot(members: seq<Profile>)
      modifies this`familyMembers, this`selectedChildId
      ensures familyMembers == members
      ensures selectedChildId == DefaultChild(members, old(selectedChildId))
    {
      familyMembers := members;
      var children := Filter((m: Profile) => m.user.role == Child, members);
      if |children| > 0 && selectedChildId == "" {
        FirstChildIsFirstOfFilter(members);
        selectedChildId := children[0].uid;
      } else if selectedChildId == "" {
        assert forall i :: 0 <= i < |members| ==> members[i] in members;
      }
    }

    /** `startTaskTimer`: the countdown of an approval starts at `minutes * 60` seconds. */
    method StartTaskTimer(approvalId: string, minutes: int)
      modifies this`runningTimer
      ensures runningTimer == Some(Timer(approvalId, minutes * 60))
    {
      runningTimer := Some(Timer(approvalId, minutes * 60));
    }

    /** One second of the interval, or the clearing at zero. */
    method TimerStep()
      modifies this`runningTimer
      ensures runningTimer == Tick(old(runningTimer))
    {
      if runningTimer.Some? && runningTimer.value.timeLeft > 0 {
        runningTimer := Some(runningTimer.value.(timeLeft := runningTimer.value.timeLeft - 1));
      } else if runningTimer.Some? && runningTimer.value.timeLeft == 0 {
        runningTimer := None;
      }
    }

    /** `requestToStart`: one new approval for the task, under the fresh id the backend assigns;
        nothing without a profile. */
    method RequestToStart(task: Task, newId: string)
      requires db.Valid() && newId !in db.approvals
      modifies db`approvals
      ensures db.Valid()
      ensures profile.None? ==> db.approvals == old(db.approvals)
      ensures profile.Some? ==> db.approvals == old(db.approvals)[newId := NewRequest(newId, task, profile.value)]
    {
      if profile.Some? {
        db.approvals := db.approvals[newId := NewRequest(newId, task, profile.value)];
      }
    }

    /** `markAsDone`: completes the target's approval. For an auto-payout template the user's
        `totalPoints` (not `currentBalance`) is credited and an 'earn' entry is logged first; a
        found template is stamped with today's date; the countdown of this approval is cleared.
        An unknown approval changes nothing; a missing user document makes the first write fail,
        which ends the handler before any write. */
    method MarkAsDone(approvalId: string, today: string, day: string)
      requires db.Valid()
      modifies this`runningTimer, db`users, db`history, db`approvals, db`tasks
      ensures db.Valid()
      ensures profile.None? ==> unchanged(db) && runningTimer == old(runningTimer)
      ensures profile.Some? ==>
        var a := old(FindApproval(db.approvals, approvalId, Target()));
        var tpl := old(FindTemplate(db.tasks, if a.Some? then a.value.taskId else "", Target()));
        var payout := a.Some? && tpl.Some? && tpl.value.isAutoPayout;
        var fails := payout && a.value.userId !in old(db.users);
        if a.None? || fails then
          unchanged(db) && runningTimer == old(runningTimer)
        else
          && db.approvals == old(db.approvals)[approvalId := a.value.(status := Completed)]
          && db.users == (if payout then old(db.users)[a.value.userId := CreditTotal(old(db.users)[a.value.userId], a.value.points)]
                          else old(db.users))
          && db.history == old(db.history)
               + (if payout then [HistoryEntry(a.value.userId, a.value.caption, a.value.points, Some(day), Earn)] else [])
          && db.tasks == (if tpl.Some? then old(db.tasks)[a.value.taskId := tpl.value.(lastCompleted := today)]
                          else old(db.tasks))
          && runningTimer == (if old(runningTimer).Some? && old(runningTimer).value.id == approvalId then None
                              else old(runningTimer))
      ensures LedgerAgrees(old(db.users), old(db.history)) ==> LedgerAgrees(db.users, db.history)
    {
      if profile.None? { return; }
      var target := Target();
      var found := FindApproval(db.approvals, approvalId, target);
      if found.None? { return; }
      var a := found.value;
      var tpl := FindTemplate(db.tasks, a.taskId, target);
      var payout := tpl.Some? && tpl.value.isAutoPayout;
      if payout && a.userId !in db.users { return; }
      var entry := HistoryEntry(a.userId, a.caption, a.points, Some(day), Earn);
      var users := if payout then db.users[a.userId := CreditTotal(db.users[a.userId], a.points)] else db.users;
      var history := if payout then db.history + [entry] else db.history;
      PayoutKeepsLedger(db.users, db.history, payout, entry);
      var tasks := if tpl.Some? then db.tasks[a.taskId := tpl.value.(lastCompleted := today)] else db.tasks;
      var approvals := db.approvals[approvalId := a.(status := Completed)];
      db.users, db.history, db.tasks, db.approvals := users, history, tasks, approvals;
      runningTimer := if runningTimer.Some? && runningTimer.value.id == approvalId then None else runningTimer;
    }
  }

  /** `children[0].uid` of the filtered member list is the first child. */
  lemma {:induction false} FirstChildIsFirstOfFilter(members: seq<Profile>)
    requires |Filter((m: Profile) => m.user.role == Child, members)| > 0
    ensures Filter((m: Profile) => m.user.role == Child, members)[0].uid == FirstChild(members)
  {
    if members[0].user.role != Child {
      FirstChildIsFirstOfFilter(members[1..]);
    }
  }

  /** `location.search` of a URL: from the first '?' before the fragment up to the fragment, or
      "" when there is no query. */
  function SearchOf(url: string): (search: string)
    ensures search == "" || search[0] == '?'
    ensures '#' !in search
  {
    var beforeHash := url[..IndexOf(url, '#')];
    var q := IndexOf(beforeHash, '?');
    if q >= |beforeHash| - 1 then "" else beforeHash[q..]
  }

  /** The name of a query pair: up to the first '='. */
  function ParamName(pair: string): string {
    pair[..IndexOf(pair, '=')]
  }

  /** The value of a query pair: after the first '=', "" when there is none. */
  function ParamValue(pair: string): string {
    var e := IndexOf(pair, '=');
    if e == |pair| then "" else pair[e + 1..]
  }

  /** `URLSearchParams.get(name)` on a query without its '?': the value of the first non-empty
      '&'-separated pair with that name, `+` read as a space. */
  function GetParam(query: string, name: string): (r: Option<string>)
    decreases |query|
  {
    var k := IndexOf(query, '&');
    var pair := query[..k];
    if pair != "" && PlusToSpace(ParamName(pair)) == name then Some(PlusToSpace(ParamValue(pair)))
    else if k == |query| then None
    else GetParam(query[k + 1..], name)
  }

  /** `new URLSearchParams(search).get('join')`. */
  function JoinCode(search: string): Option<string> {
    GetParam(if search != "" && search[0] == '?' then search[1..] else search, "join")
  }

  /** The start-up effect: a non-empty `join` code of the page URL becomes the pending family
      code; otherwise the pending code stays as it was. */
  function PendingAfterLoad(url: string, pending: Option<string>): (r: Option<string>)
    ensures JoinCode(SearchOf(url)).Some? && JoinCode(SearchOf(url)).value != "" ==> r == JoinCode(SearchOf(url))
    ensures !(JoinCode(SearchOf(url)).Some? && JoinCode(SearchOf(url)).value != "") ==> r == pending
  {
    var code := JoinCode(SearchOf(url));
    if code.Some? && code.value != "" then code else pending
  }

  /** A code that a URL carries unchanged: no fragment mark, pair separator, plus sign or escape. */
  predicate UrlSafe(code: string) {
    '#' !in code && '&' !in code && '+' !in code && '%' !in code
  }

  lemma SearchOfLink(base: string, code: string)
    requires '?' !in base && '#' !in base && '#' !in code
    ensures SearchOf(base + "?join=" + code) == "?join=" + code
  {
    var tail := "?join=" + code;
    var url := base + tail;
    assert base + "?join=" + code == url;
    assert '#' !in tail;
    assert '#' !in url;
    IndexOfAppend(url, [], '#');
    assert url + [] == url;
    assert url[..IndexOf(url, '#')] == url;
    IndexOfAppend(base, tail, '?');
    assert IndexOf(tail, '?') == 0;
    assert url[|base|..] == tail;
  }

  lemma ReadJoinPair(code: string)
    requires '&' !in code && '+' !in code
    ensures GetParam("join=" + code, "join") == Some(code)
  {
    var pair := "join=" + code;
    var k := IndexOf(pair, '&');
    assert k == |pair| by {
      assert '&' !in pair;
      IndexOfAppend(pair, [], '&');
      assert pair + [] == pair;
    }
    assert pair[..k] == pair;
    var e := IndexOf(pair, '=');
    assert e == 4 by {
      assert pair == "join" + ("=" + code);
      IndexOfAppend("join", "=" + code, '=');
    }
    assert ParamName(pair) == "join";
    assert PlusToSpace("join") == "join";
    assert ParamValue(pair) == code;
  }

  /** For an origin and path without '?' or '#', the `join` parameter read back from the link
      `base + "?join=" + code` is the code. */
  lemma JoinLinkRoundTrip(base: string, code: string)
    requires '?' !in base && '#' !in base
    requires UrlSafe(code)
    ensures JoinCode(SearchOf(base + "?join=" + code)) == Some(code)
  {
    SearchOfLink(base, code);
    ReadJoinPair(code);
    var query := "join=" + code;
    QueryAfterMark(code);
    assert (['?'] + query)[1..] == query;
  }

  lemma QueryAfterMark(code: string)
    ensures "?join=" + code == ['?'] + ("join=" + code)
  {
    assert "?join=" == ['?'] + "join=";
  }
}
