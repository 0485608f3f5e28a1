/** The records the app keeps in its document database, and the database itself as one
    sequential in-memory store with the collections `users`, `tasks_list`, `approvals`,
    `achievements_list` and `history`. */
module Domain {
  import opened Wrappers
  import opened Seqs

  /** A user document's `role`; `NoRole` is a document written without one (a merge into a
      user that did not exist). */
  datatype Role = Child | Parent | NoRole

  datatype ApprovalStatus = Pending | InProgress | Completed

  /** The `type` of a history entry. */
  datatype EntryKind = Earn | Spend

  /** The `type` of an `achievements_list` document: a level title or a shop item. */
  datatype ItemType = Title | Reward | Exchange

  /** A task template (`caption` is the source's `label`, a keyword here). Optional text fields are "" when absent: the source only ever tests them
      for truthiness, and "" and a missing field are both falsy. `duration` is null or a number. */
  datatype Task = Task(
    id: string,
    caption: string,
    points: int,
    icon: string,
    duration: Option<int>,
    isAutoRepeat: bool,
    isAutoApprove: bool,
    isAutoPayout: bool,
    lastCompleted: string,
    assignedTo: string)

  /** An approval request; `taskId` is "" for a shop purchase, which has no task. */
  datatype Approval = Approval(
    id: string,
    taskId: string,
    caption: string,
    points: int,
    status: ApprovalStatus,
    userId: string,
    familyId: string,
    icon: string)

  /** A ledger entry; `day` is the entry's day key, `None` for an entry stored without a date. */
  datatype HistoryEntry = HistoryEntry(
    userId: string,
    caption: string,
    points: int,
    day: Option<string>,
    kind: EntryKind)

  /** A user document; missing point fields read as 0 and a missing achievement list as []. */
  datatype User = User(
    name: string,
    role: Role,
    avatar: string,
    familyId: string,
    totalPoints: int,
    currentBalance: int,
    activatedAchievements: seq<string>)

  /** A user document together with its id. */
  datatype Profile = Profile(uid: string, user: User)

  /** An `achievements_list` document: a level (`Title`) or a shop item (`Reward`, `Exchange`),
      with the label fields older documents used. */
  datatype CatalogueItem = CatalogueItem(
    id: string,
    threshold: int,
    icon: string,
    kind: ItemType,
    caption: string,
    captionRu: string,
    captions: Option<map<string, string>>,
    translationKey: string,
    bonus: string,
    description: string,
    valueInEuro: Option<int>)

  /** What a merge write creates when the user document does not exist yet. */
  const EmptyUser := User("", NoRole, "", "", 0, 0, [])

  const ChildAvatar := "\U{1F476}"
  const ParentAvatar := "\U{1F9D4}"

  /** The avatar chosen with a role: a baby for a child, a bearded face for a parent. */
  function AvatarFor(role: Role): (a: string)
    requires role != NoRole
    ensures role == Child ==> a == ChildAvatar
    ensures role == Parent ==> a == ParentAvatar
    ensures a != ""
  {
    if role == Child then ChildAvatar else ParentAvatar
  }

  /** `reduce((acc, t) => acc + t.points, 0)` over a task list. */
  function SumPoints(tasks: seq<Task>): int {
    if tasks == [] then 0 else tasks[0].points + SumPoints(tasks[1..])
  }

  predicate NonNegativePoints(tasks: seq<Task>) {
    forall i :: 0 <= i < |tasks| ==> tasks[i].points >= 0
  }

  /** The test "completed on the given day", and its negation. */
  function DoneToday(today: string): Task -> bool {
    (t: Task) => t.lastCompleted == today
  }

  function OpenToday(today: string): Task -> bool {
    (t: Task) => t.lastCompleted != today
  }

  /** Splitting a task list by a test and its negation splits its point sum. */
  lemma {:induction false} SumPointsSplit(p: Task -> bool, q: Task -> bool, tasks: seq<Task>)
    requires forall t :: q(t) == !p(t)
    ensures SumPoints(Filter(p, tasks)) + SumPoints(Filter(q, tasks)) == SumPoints(tasks)
  {
    if tasks != [] {
      SumPointsSplit(p, q, tasks[1..]);
    }
  }

  /** With no negative points, a selection of the tasks is worth no more than all of them. */
  lemma SumPointsFilterBound(p: Task -> bool, tasks: seq<Task>)
    requires NonNegativePoints(tasks)
    ensures 0 <= SumPoints(Filter(p, tasks)) <= SumPoints(tasks)
  {
    var q := (t: Task) => !p(t);
    SumPointsSplit(p, q, tasks);
    SumPointsNonNegative(Filter(p, tasks));
    SumPointsNonNegative(Filter(q, tasks));
  }

  lemma {:induction false} SumPointsNonNegative(tasks: seq<Task>)
    requires NonNegativePoints(tasks)
    ensures SumPoints(tasks) >= 0
  {
    if tasks != [] {
      SumPointsNonNegative(tasks[1..]);
    }
  }

  /** `Math.round(part / whole * 100)` for a positive `whole`, and 0 otherwise, in exact arithmetic
      (`Math.round(x)` is `floor(x + 1/2)`). */
  function RoundedPercent(part: int, whole: int): (p: int)
    ensures whole <= 0 ==> p == 0
    ensures whole > 0 ==> 2 * whole * p <= 200 * part + whole < 2 * whole * (p + 1)
    ensures whole > 0 && 0 <= part <= whole ==> 0 <= p <= 100
  {
    if whole > 0 then
      var q := (200 * part + whole) / (2 * whole);
      DivisionBounds(200 * part + whole, 2 * whole);
      if 0 <= part <= whole then PercentInRange(part, whole, q); q else q
    else 0
  }

  lemma DivisionBounds(n: int, d: int)
    requires d > 0
    ensures d * (n / d) <= n < d * (n / d + 1)
  {
    var q, r := n / d, n % d;
    assert n == d * q + r && 0 <= r < d;
    assert d * (q + 1) == d * q + d;
  }

  lemma PercentInRange(part: int, whole: int, q: int)
    requires whole > 0 && 0 <= part <= whole
    requires 2 * whole * q <= 200 * part + whole < 2 * whole * (q + 1)
    ensures 0 <= q <= 100
  {
    if q < 0 {
      MulNonPositive(2 * whole, q + 1);
    }
    if q > 100 {
      MulAtLeast(2 * whole, q, 101);
    }
  }

  lemma MulNonPositive(a: int, b: int)
    requires a > 0 && b <= 0
    ensures a * b <= 0
  {
  }

  lemma MulAtLeast(a: int, b: int, c: int)
    requires a > 0 && b >= c
    ensures a * b >= a * c
  {
    assert a * b == a * c + a * (b - c);
  }

  /** The points a user document holds, 0 when it does not exist. */
  function TotalOf(users: map<string, User>, uid: string): int {
    if uid in users then users[uid].totalPoints else 0
  }

  function BalanceOf(users: map<string, User>, uid: string): int {
    if uid in users then users[uid].currentBalance else 0
  }

  /** The points the history records as earned by `uid`. */
  function Earned(history: seq<HistoryEntry>, uid: string): int {
    if history == [] then 0
    else (if history[0].userId == uid && history[0].kind == Earn then history[0].points else 0)
         + Earned(history[1..], uid)
  }

  /** Appending one entry changes the earned sum of its user by its points when it is an earning,
      and no other user's sum. */
  lemma {:induction false} EarnedAppend(history: seq<HistoryEntry>, e: HistoryEntry, uid: string)
    ensures Earned(history + [e], uid)
         == Earned(history, uid) + (if e.userId == uid && e.kind == Earn then e.points else 0)
  {
    if history == [] {
      assert history + [e] == [e];
    } else {
      assert (history + [e])[1..] == history[1..] + [e];
      EarnedAppend(history[1..], e, uid);
    }
  }

  /** The ledger agrees with the users: every user's `totalPoints` is what the history says it earned. */
  ghost predicate LedgerAgrees(users: map<string, User>, history: seq<HistoryEntry>) {
    forall uid :: TotalOf(users, uid) == Earned(history, uid)
  }

  /** Writing one user document and logging one entry of that user keeps the ledger in agreement
      when the document's `totalPoints` moves by what the entry earns. */
  lemma LedgerStep(users: map<string, User>, history: seq<HistoryEntry>, uid: string, u: User, e: HistoryEntry)
    requires LedgerAgrees(users, history)
    requires e.userId == uid
    requires u.totalPoints == TotalOf(users, uid) + (if e.kind == Earn then e.points else 0)
    ensures LedgerAgrees(users[uid := u], history + [e])
  {
    forall v ensures TotalOf(users[uid := u], v) == Earned(history + [e], v) {
      EarnedAppend(history, e, v);
    }
  }

  /** The backend: each collection as a map from document id to document, and the history log. */
  class Store {
    var users: map<string, User>
    var tasks: map<string, Task>
    var approvals: map<string, Approval>
    var catalogue: map<string, CatalogueItem>
    var history: seq<HistoryEntry>

    /** Every document knows its own id (the `{ id: d.id, ...d.data() }` of each snapshot). */
    ghost predicate Valid()
      reads this
    {
      && (forall k :: k in tasks ==> tasks[k].id == k)
      && (forall k :: k in approvals ==> approvals[k].id == k)
      && (forall k :: k in catalogue ==> catalogue[k].id == k)
    }

    constructor ()
      ensures Valid()
      ensures users == map[] && tasks == map[] && approvals == map[] && catalogue == map[]
      ensures history == []
    {
      users, tasks, approvals, catalogue, history := map[], map[], map[], map[], [];
    }
  }
}
