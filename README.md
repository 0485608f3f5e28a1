# kids-tracker: a Dafny model of the task, approval and points core

kids-tracker is a family chore app. Parents publish task templates. A child starts a task, which
creates an approval request. The task is then completed, and points are paid out. The child spends
points on shop rewards and unlocks achievement levels.

The app is a React client over a hosted document database with the collections `users`,
`tasks_list`, `approvals`, `achievements_list` and `history`. This project models that database as
one sequential in-memory store (`Domain.Store`, a class whose fields are maps plus an append-only
history sequence). Writes happen one after another in source order. `increment(n)` is integer
addition.

Over that store the project models:

- **The approval and ledger state machine.**
  - Starting a task (`App.AppState.RequestToStart`) and buying a reward (`Shop.CompletePurchase`).
  - Completing a request (`App.AppState.MarkAsDone`).
  - A parent's final approval (`AdminPanel.HandleFinalApprove`).
  - Each is a method with its whole new state in its `ensures`.
  - A ledger invariant, `Domain.LedgerAgrees` ("every user's `totalPoints` equals the sum of their
    earn entries"), is proved to be preserved by the two steps that pay points
    (`App.AppState.MarkAsDone`, `AdminPanel.HandleFinalApprove`) and by the user writes that leave
    `totalPoints` alone (`FamilySettings.UpdateMember`, `Achievements.AchievementsView.HoldElapsed`).
    Writing a fresh document or removing one keeps it only when the replaced document held no points
    (`FamilySettings.AddMember`, `RegisterPage.HandleRegister`, `FamilySettings.DeleteMember`); see
    "## Left out".
- **The derived views.**
  - Which tasks a child sees, and each task's done, in-work or pending status.
  - The daily point totals and progress percentage.
  - The grouping and ordering of templates.
  - The per-day statistics and the recent-log list.
- **The catalogue rules.**
  - Filtering by type and sorting by threshold.
  - The label fallback chains.
  - The achievement unlock guard and activation as a set union.
  - The affordability guard.
- **The record builders.**
  - The member id slug and new-member record.
  - Registration and the invite link.
  - The saved shop and level records.
- **Small formats.**
  - `formatTime`'s `m:ss` and the deadline's hours and minutes.

The source's own form is kept:

- Component state that handlers set and clear becomes a class with `modifies` clauses:
  `App.AppState`, `AdminPanel.TaskEditor`, `TaskList.TaskListView`, `Achievements.AchievementsView`.
- A reduce that writes into an accumulator dictionary becomes a method with a loop, proved equal
  to a recursive function: `Stats.GroupByDay`, `TemplatesList.GroupTasks`.
- Filters, maps and string expressions become functions.

Modules follow the source files:

| module | source file |
|---|---|
| `App` | `src/App.tsx` |
| `AdminPanel` | `src/components/Admin/AdminPanel.tsx` |
| `TaskList` | `src/components/Kids/TaskList.tsx` |
| `Stats` | `src/components/Stats.tsx` |
| `TemplatesList` | `src/components/Admin/TemplatesList.tsx` |
| `Achievements` | `src/components/Kids/Achievements.tsx` |
| `Shop` | `src/components/Kids/Shop.tsx` |
| `ShopSettings` | `src/components/Admin/ShopSettings.tsx` |
| `AchievementsSettings` | `src/components/Admin/AchievementsSettings.tsx` |
| `FamilySettings` | `src/components/Admin/FamilySettings.tsx` |
| `RegisterPage` | `src/components/Auth/RegisterPage.tsx` |

Shared modules:

- `Domain`: the documents, the store and the ledger.
- `Catalogue`: the `achievements_list` rules shared by four components.
- `Text`: the JavaScript string operations used, such as `trim`, `toLowerCase`, `replace(/\s+/g, '_')`, number-to-text conversion and `||` chains. White space (`Text.IsSpace`) is the set `trim` and `\s` share: the ECMAScript WhiteSpace and LineTerminator code points, including no-break space, the byte order mark and the Unicode space separators.
- `Seqs`: `filter`, `map`, `reverse` and `slice`.
- `Wrappers`: `Option`.

Conventions:

- An optional text field (icon, `assignedTo`, `lastCompleted`, an approval's `taskId`) is `""` when
  absent. The source reads these fields in two ways.
  - Truthiness tests, such as `!t.assignedTo` (`src/App.tsx:146`) and `task.icon || '📝'`
    (`src/components/Admin/AdminPanel.tsx:91`), treat a missing field and `""` alike.
  - Strict comparisons are false for a missing field: `t.assignedTo === selectedChildId`
    (`src/components/Admin/AdminPanel.tsx:81`, `:159`), `t.lastCompleted === today`
    (`src/components/Admin/AdminPanel.tsx:84`, `src/components/Kids/TaskList.tsx:160`) and
    `a.taskId === task.id` (`src/components/Kids/TaskList.tsx:116`, `:161`). They are false for `""`
    too whenever the other side is non-empty, as a date or a document id is.
  - Where the other side can be empty, the model adds an explicit guard, so that `""` matches
    nothing: `AdminPanel.IsForChild` tests `assignedTo != ""` (the selected child id may be empty,
    `src/components/Admin/AdminPanel.tsx:139`), and `App.FindTemplate` tests `taskId != ""`.
  `duration` is `Option<int>`, because it is stored as null or a number.
- Fresh document ids from `addDoc` are parameters. `requires id !in …` states the backend's
  guarantee that they are new.
- The day, the time, the random family suffix, the `Date.now()` stamp and the user's answer to
  `window.confirm` are parameters.
- `updateDoc` on a missing document throws, and `markAsDone` has no `try`. The model therefore
  stops at that write and skips the later ones.
- `setDoc(…, {merge: true})` on a missing user creates a document that holds only the point
  fields (`Domain.EmptyUser`, role `NoRole`).

Behaviour modelled as written that a reader may not expect:

- `markAsDone`'s auto-payout raises `totalPoints` but not `currentBalance`
  (`src/App.tsx:213`), whereas the final approval raises both.
- `getItemName` yields `undefined` when a document has a `labels` map without the language and
  without `ru`. The purchase label then reads `…: undefined`.
- The day-grouping lemmas of `Stats` take the contribution rule as a parameter, so they hold for the
  rule as written and for the corrected one alike (see "## Findings").
- `markAsDone` finds approvals and templates in the screen's subscribed views. In the sequential
  model these are the approvals whose `userId` is the target. The templates are the tasks visible
  to the target (`App.FindApproval`, `App.FindTemplate`).
- An auto-paid request is marked completed, not removed (`src/App.tsx:212-216`). The parent's
  request list shows every approval of the child whatever its status, each with an OK button
  (`src/components/Admin/AdminPanel.tsx:192-206`). Pressing OK for an auto-paid request therefore
  credits `totalPoints` a second time (`AdminPanel.AutoPaidRequestPaysTwice`). The source does not
  say whether the parent is meant to confirm auto-paid requests, so this is recorded here and not
  as a finding.
- `TaskList`'s parent branches (confirm-and-start, confirm-and-approve) are modelled as written,
  but the app never reaches them: `App` renders `TaskList` without the optional `userRole`
  (`src/App.tsx:288`, `src/components/Kids/TaskList.tsx:37`), so the list always behaves as a
  child's.

## Model

| member | source | states |
|---|---|---|
| Domain.RoundedPercent | src/components/Admin/AdminPanel.tsx:86 | the percentage is 0 when the whole is not positive; otherwise it is the integer nearest to 100·part/whole (halves rounded up), and it lies in 0..100 when 0 ≤ part ≤ whole |
| Domain.AvatarFor | src/components/Auth/RegisterPage.tsx:90-102 | a child's default avatar is 👶 and a parent's is 🧔 |
| Domain.SumPointsSplit | src/components/Admin/AdminPanel.tsx:82-85 | splitting tasks by a predicate and its negation splits their point sum |
| Domain.SumPointsFilterBound | src/components/Admin/AdminPanel.tsx:83-85 | with non-negative points, the sum over any filtered subset lies between 0 and the sum over all |
| Domain.SumPointsNonNegative | src/components/Kids/TaskList.tsx:166 | a point sum of tasks with non-negative points is non-negative |
| Domain.EarnedAppend | src/components/Admin/AdminPanel.tsx:115-121 | appending one history entry changes only its own user's earned sum, by its points when it is an earning |
| Domain.LedgerStep | src/components/Admin/AdminPanel.tsx:104-121 | writing one user and logging one entry of that user keeps every user's `totalPoints` equal to their earned sum, when `totalPoints` moves by what the entry earns |
| App.FormatTime | src/App.tsx:184-188 | the text is digits, ':' and exactly two digits; the part before the colon is exactly the unpadded decimal text of seconds/60 (so it starts with '0' only under a minute) and the two digits read as seconds%60, zero-padded |
| App.TwoDigits | src/App.tsx:187 | a number below 100 becomes exactly two digits that read back as the number (a leading '0' below 10) |
| App.FormatTimeRoundTrip | src/App.tsx:184-188 | reading an `m:ss` display back yields the displayed seconds |
| App.FormatTimeInjective | src/App.tsx:184-188 | different durations never display the same text |
| App.TargetId | src/App.tsx:145 | a child's screen shows the child's own uid; a parent's shows the selected child |
| App.VisibleTasks | src/App.tsx:146 | a task is listed iff it is unassigned, assigned to 'all' or assigned to the target |
| App.FirstChild | src/App.tsx:117-119 | "" when the family has no child; otherwise the uid of the first child member, with no child before it |
| App.FirstChildIsFirstOfFilter | src/App.tsx:117-119 | the first child is exactly `children[0]` of the role filter |
| App.DefaultChild | src/App.tsx:118-120 | an existing selection is kept; an empty one becomes the first child |
| App.AppState.OnFamilySnapshot | src/App.tsx:114-121 | the member list is replaced and the selection becomes the default child of the new list |
| App.Tick | src/App.tsx:171-182 | a positive countdown loses exactly one second, a countdown at 0 is cleared, and no timer stays none |
| App.CountdownRunsDown | src/App.tsx:171-182 | after k ≤ n ticks a timer started at n has n−k left, and after n+1 ticks it is cleared |
| App.AppState.TimerStep | src/App.tsx:173-180 | the running timer advances by one tick and nothing else changes |
| App.AppState.StartTaskTimer | src/App.tsx:190-192 | the running timer belongs to the approval and holds minutes·60 seconds |
| App.NewRequest | src/App.tsx:199-203 | the request copies task id, label and points, is in progress iff the task auto-approves and pending otherwise, belongs to the profile's uid and family, and defaults its icon to 📝 |
| App.AppState.RequestToStart | src/App.tsx:197-204 | with no profile nothing is written; otherwise exactly one approval, the new request, is added under the fresh id |
| App.FindApproval | src/App.tsx:208-209 | an approval is found iff its id is stored and it belongs to the target, and then it is the stored one |
| App.FindTemplate | src/App.tsx:210 | a template is found iff the approval names a stored task visible to the target |
| App.CreditTotal | src/App.tsx:213 | `increment` raises `totalPoints` by the points and leaves every other field of the user alone |
| App.PayoutKeepsLedger | src/App.tsx:212-218 | an earn payout, or none, keeps the store's points in agreement with its history |
| App.AppState.constructor | src/App.tsx:62-68 | the screen starts over the given store and profile with no selected child, no members and no timer |
| App.AppState.MarkAsDone | src/App.tsx:206-223 | no profile, an unknown approval, or a payout to a missing user changes nothing; otherwise the approval becomes completed, an auto-payout adds its points to `totalPoints` and appends one earn entry, a found template is stamped with today, the timer is cleared only if it is this approval's, and the ledger invariant is kept |
| App.SearchOf | src/App.tsx:93 | the query part of a URL is "" or starts with '?', and never holds the fragment |
| App.PendingAfterLoad | src/App.tsx:92-98 | a non-empty `join` parameter becomes the pending family code; otherwise the pending code is unchanged |
| App.SearchOfLink | src/App.tsx:93 | the query part of an invite link is "?join=" followed by the code |
| App.ReadJoinPair | src/App.tsx:94 | the `join` parameter of "join=code" is the code |
| App.JoinLinkRoundTrip | src/App.tsx:92-95 | the start-up effect reads back exactly the family code that an invite link carries |
| AdminPanel.ChildTasks | src/components/Admin/AdminPanel.tsx:81 | a task counts for the child iff it is assigned to that child or to 'all' |
| AdminPanel.DailyLoadBounds | src/components/Admin/AdminPanel.tsx:82-85 | earned today plus still open today is the day's maximum, and with non-negative points 0 ≤ earned ≤ maximum |
| AdminPanel.AdminProgressBounds | src/components/Admin/AdminPanel.tsx:86 | the percentage is 0 when the maximum is 0, and within 0..100 when points are non-negative |
| AdminPanel.Settle | src/components/Admin/AdminPanel.tsx:104-113 | a purchase moves only `currentBalance`, by its (negative) points; an earning raises both `totalPoints` and `currentBalance` by its points; no other field changes |
| AdminPanel.SettlementEntry | src/components/Admin/AdminPanel.tsx:115-121 | the entry has the approval's user, label and points, today's day key, and type spend iff the points are negative |
| AdminPanel.SettleTemplate | src/components/Admin/AdminPanel.tsx:123-132 | with no linked template nothing changes; a linked auto-repeat template gets `lastCompleted` = today; any other linked template is deleted |
| AdminPanel.RequestIds | src/components/Admin/AdminPanel.tsx:192-206 | the request list holds exactly the approvals whose user is the selected child, whatever their status |
| AdminPanel.AutoPaidRequestPaysTwice | src/components/Admin/AdminPanel.tsx:198-206 | an auto-paid request, marked completed, is still listed, and settling it after the auto-payout raises `totalPoints` by twice its points |
| AdminPanel.HandleFinalApprove | src/components/Admin/AdminPanel.tsx:100-135 | an empty user id writes nothing; otherwise the user is settled, exactly one entry is appended, the template is kept or deleted, and the approval is deleted; `totalPoints` rises only for an earning, it grows by the points, and `currentBalance` moves by the points; the ledger invariant is kept |
| AdminPanel.ClearedTasks | src/components/Admin/AdminPanel.tsx:158-162 | exactly the non-repeating tasks of the child or of 'all' are removed, and every other task is unchanged |
| AdminPanel.ClearIdempotent | src/components/Admin/AdminPanel.tsx:156-164 | clearing twice is the same as clearing once |
| AdminPanel.ClearOldTasks | src/components/Admin/AdminPanel.tsx:156-164 | without confirmation nothing changes; with it the task collection becomes the cleared collection |
| AdminPanel.FormOf | src/components/Admin/AdminPanel.tsx:88-98 | the form holds the task's label, points and flags, its icon or 📝, and its duration or 0 |
| AdminPanel.SavedTask | src/components/Admin/AdminPanel.tsx:140-148 | the stored task has the form's fields, duration null unless positive, the selected child as assignee, and keeps the previous `lastCompleted` when merging |
| AdminPanel.EditRoundTrip | src/components/Admin/AdminPanel.tsx:88-148 | copying a task into the form and saving it unchanged gives back the same task |
| AdminPanel.TaskEditor.constructor | src/components/Admin/AdminPanel.tsx:56-63 | the editor starts with the default form (10 points, 📝) and nothing being edited |
| AdminPanel.TaskEditor.CopyToForm | src/components/Admin/AdminPanel.tsx:88-98 | the form shows the task and the editor edits that task's id |
| AdminPanel.TaskEditor.CancelEdit | src/components/Admin/AdminPanel.tsx:221 | nothing is being edited afterwards |
| AdminPanel.TaskEditor.AddTask | src/components/Admin/AdminPanel.tsx:137-154 | an empty label or no selected child changes nothing; otherwise the edited task is merged or a new task is created under the fresh id, and the form resets to defaults |
| TaskList.FirstApproval | src/components/Kids/TaskList.tsx:161 | none iff no approval names the task; otherwise the earliest approval naming it |
| TaskList.Derive | src/components/Kids/TaskList.tsx:159-163 | done iff completed today; in work or pending iff the task's first approval is in progress or pending; never both; either implies a request exists |
| TaskList.TasksForToday | src/components/Kids/TaskList.tsx:159-163 | one derived entry per task, in order |
| TaskList.TasksForTodayCons | src/components/Kids/TaskList.tsx:159-163 | the derived list is the first task's entry followed by the rest's |
| TaskList.EarnedIsDoneSum | src/components/Kids/TaskList.tsx:165 | points earned today is the point sum of the tasks completed today |
| TaskList.PossibleIsSum | src/components/Kids/TaskList.tsx:166 | the possible total is the point sum of all tasks |
| TaskList.ProgressBounds | src/components/Kids/TaskList.tsx:165-167 | with non-negative points 0 ≤ earned ≤ possible, the percentage is 0 when nothing is possible, and it lies within 0..100 |
| TaskList.HoldGuardSimplified | src/components/Kids/TaskList.tsx:116-117 | a hold may start iff no approval names the task, it is not done today, and it is neither being approved nor held |
| TaskList.AvailableGrid | src/components/Kids/TaskList.tsx:223-224 | the grid shows exactly the tasks not done, not in work, not being approved and not being processed |
| TaskList.WaitingMeansRequest | src/components/Kids/TaskList.tsx:226 | a shown task is waiting iff some approval names it |
| TaskList.InProgressCards | src/components/Kids/TaskList.tsx:198 | the cards are exactly the approvals in progress |
| TaskList.FindTask | src/components/Kids/TaskList.tsx:200 | none iff no task has the id; otherwise a task with that id |
| TaskList.TimerButton | src/components/Kids/TaskList.tsx:208-209 | the timer button appears iff the card is not being approved, no timer runs and its task has a non-zero duration, which it then offers |
| TaskList.WithoutId | src/components/Kids/TaskList.tsx:154 | every occurrence of the id is removed and every other id keeps its count |
| TaskList.CleanupUndoesAdd | src/components/Kids/TaskList.tsx:147-154 | the cleanup undoes the append: adding an id and removing it leaves what removing it alone leaves |
| TaskList.DeadlineInfo | src/components/Kids/TaskList.tsx:169-175 | expired iff the difference is not positive; otherwise whole hours and minutes below 60 that bracket the difference to the minute |
| TaskList.DeadlineText | src/components/Kids/TaskList.tsx:175 | "Hч Mм" for a remaining time, the expired message otherwise |
| TaskList.TaskListView.constructor | src/components/Kids/TaskList.tsx:58-61 | nothing is being approved, processed or held |
| TaskList.TaskListView.StartHolding | src/components/Kids/TaskList.tsx:115-130 | a refused guard, or a parent who declines, leaves the state alone; a confirming parent starts the request at once; a child starts holding that task |
| TaskList.TaskListView.StopHolding | src/components/Kids/TaskList.tsx:132-139 | no task is held afterwards |
| TaskList.TaskListView.ExecuteRequest | src/components/Kids/TaskList.tsx:102-105 | the hold ends and the task is being approved |
| TaskList.TaskListView.RequestWritten | src/components/Kids/TaskList.tsx:111 | nothing is being approved afterwards |
| TaskList.TaskListView.HandleDoneClick | src/components/Kids/TaskList.tsx:141-147 | a parent who declines changes nothing; otherwise the approval is being approved and the task id is appended to the processing list |
| TaskList.TaskListView.DoneWritten | src/components/Kids/TaskList.tsx:153 | nothing is being approved afterwards |
| TaskList.TaskListView.DoneCleanup | src/components/Kids/TaskList.tsx:154 | the processing list loses every occurrence of the task id and nothing else |
| Stats.ChildHistory | src/components/Stats.tsx:40-44 | exactly the child's entries are read |
| Stats.GroupByDay | src/components/Stats.tsx:54-66 | the loop over entries builds the same day keys and sums as the reduce |
| Stats.GroupWellFormed | src/components/Stats.tsx:54-66 | the day keys are distinct and are exactly the keys of the sums |
| Stats.GroupKeys | src/components/Stats.tsx:55-64 | a day key appears iff some dated entry has that day |
| Stats.GroupSkipsUndated | src/components/Stats.tsx:55 | entries without a date contribute nothing: grouping all entries equals grouping the dated ones |
| Stats.ChartOf | src/components/Stats.tsx:68 | one chart point per day key, in order, carrying that day's sum |
| Stats.Chart | src/components/Stats.tsx:68 | there is one chart entry per distinct day key |
| Stats.LastWeekPoints | src/components/Stats.tsx:80 | with at most 7 days the weekly figure is the full total |
| Stats.LastWeekIsTail | src/components/Stats.tsx:78-80 | the total is the sum over the older days plus the weekly figure over the last (up to) 7 |
| Stats.TotalAppend | src/components/Stats.tsx:78 | the total of a concatenation is the sum of the totals |
| Stats.ChartSum | src/components/Stats.tsx:68-78 | the chart total equals the sum of the day sums |
| Stats.SumOverBump | src/components/Stats.tsx:64 | adding a value to one existing day adds it to the sum over all days |
| Stats.ChartTotal | src/components/Stats.tsx:54-78 | the sum over all day groups equals the sum of the contributions of the dated entries |
| Stats.GroupSumTotal | src/components/Stats.tsx:54-66 | the groups are well formed and their sums add up to the dated entries' contributions |
| Stats.RecentLogs | src/components/Stats.tsx:52 | at most 30 entries, newest first: entry i is the i-th from the end |
| Stats.IntToString | src/components/Stats.tsx:142 | a number's text is non-empty, starts with '-' exactly when the number is negative, and the digits after any sign read back as the magnitude |
| Stats.LogAmount | src/components/Stats.tsx:142 | the log amount is one sign and digits, negative iff the points are, and reads back as the stored points |
| Stats.SettledSpendIsNegative | src/components/Admin/AdminPanel.tsx:115-121 | a settled entry is a spend iff its stored points are negative |
| Stats.AsWrittenPurchaseSign | src/components/Stats.tsx:63 | as written, a settled 50-point purchase lowers the balance by 50 but adds +50 to its day and logs "--50" |
| Stats.SettledEntryMatchesBalance | src/components/Stats.tsx:63-64 | with the corrected rule every settled entry adds to its day exactly its change of balance, and logs a minus iff it is a spend |
| TemplatesList.GroupKey | src/components/Admin/TemplatesList.tsx:38 | a task's group is its assignee, or 'all' when it has none |
| TemplatesList.GroupOfIsFilter | src/components/Admin/TemplatesList.tsx:37-42 | a group is the in-order filter of the tasks with its key |
| TemplatesList.GroupOfAbsent | src/components/Admin/TemplatesList.tsx:39 | a key no task has has an empty group |
| TemplatesList.GroupedStep | src/components/Admin/TemplatesList.tsx:38-40 | pushing one task into its group keeps keys distinct, keys and groups in step, and every group the in-order filter of its key |
| TemplatesList.GroupedFilters | src/components/Admin/TemplatesList.tsx:37-42 | a finished grouping has distinct keys, exactly the keys some task has, and each group is the in-order filter of its key |
| TemplatesList.GroupAllGrouped | src/components/Admin/TemplatesList.tsx:37-42 | the grouping of a whole task list is a grouping of that list |
| TemplatesList.GroupTasks | src/components/Admin/TemplatesList.tsx:37-42 | the reduce yields distinct keys, one per occurring assignee key, each group holding exactly that key's tasks in their original order |
| TemplatesList.GroupsPartition | src/components/Admin/TemplatesList.tsx:37-42 | every task is in the group of its key, and every grouped task is a task of the list filed under its own key |
| TemplatesList.Rank | src/components/Admin/TemplatesList.tsx:45-51 | 'all' ranks first (0), the selected child second, every other key last |
| TemplatesList.CompareIsByRank | src/components/Admin/TemplatesList.tsx:45-51 | the comparator orders two distinct keys exactly by rank and is antisymmetric |
| TemplatesList.SplitByRank | src/components/Admin/TemplatesList.tsx:45 | the three rank classes together hold exactly the keys |
| TemplatesList.SortKeysPermutation | src/components/Admin/TemplatesList.tsx:45 | the sorted keys are a permutation of the group keys |
| TemplatesList.RankAt | src/components/Admin/TemplatesList.tsx:45-51 | the rank of a sorted position follows from which class block it falls in |
| TemplatesList.SortKeysSorted | src/components/Admin/TemplatesList.tsx:45-51 | the ranks of the sorted keys never decrease |
| TemplatesList.SortKeysHead | src/components/Admin/TemplatesList.tsx:45-51 | 'all' comes first when present, and the selected child's key precedes every other key |
| TemplatesList.SortKeysStable | src/components/Admin/TemplatesList.tsx:45-51 | keys of equal rank keep their original relative order |
| TemplatesList.FilterClass | src/components/Admin/TemplatesList.tsx:45-51 | selecting one rank class from another class is that class or empty |
| TemplatesList.GroupHeading | src/components/Admin/TemplatesList.tsx:57-79 | the 'all' group is headed 🌍 and the templates title; a group whose owner is not a known user is headed "👤 User"; a known owner's group is headed 👤 and the name of the first user with that id, "User" when that name is empty |
| TemplatesList.OwnerName | src/components/Admin/TemplatesList.tsx:57-79 | the owner's name is that of the first user with the id, or "User" when there is none or the name is empty |
| TemplatesList.DeleteTemplate | src/components/Admin/TemplatesList.tsx:109 | a confirmed delete removes exactly that template; otherwise nothing changes |
| Catalogue.KindName | src/components/Admin/ShopSettings.tsx:56 | every item type has a non-empty name |
| Catalogue.KindNameInjective | src/components/Admin/ShopSettings.tsx:56 | different types have different names |
| Catalogue.StampedId | src/components/Admin/ShopSettings.tsx:56 | a new item's id is its type, '_' and the time stamp |
| Catalogue.StampedIdInjective | src/components/Admin/ShopSettings.tsx:56 | different types or stamps never give the same id |
| Catalogue.Insert | src/components/Admin/ShopSettings.tsx:46 | inserting adds exactly one item, keeps the rest, and keeps a sorted list sorted by threshold |
| Catalogue.LeadingMinimum | src/components/Admin/ShopSettings.tsx:46 | an item no larger than any in a sorted list may lead it |
| Catalogue.SortByThreshold | src/components/Admin/ShopSettings.tsx:46 | the result is ordered by non-decreasing threshold and is a permutation of the input |
| Catalogue.InsertStable | src/components/Admin/ShopSettings.tsx:46 | inserting keeps the order of items of equal threshold, the new one placed first among them |
| Catalogue.SortStable | src/components/Admin/ShopSettings.tsx:46 | the sort is stable: items of equal threshold keep their input order |
| Catalogue.TitleItems | src/components/Kids/Achievements.tsx:37-40 | the levels shown are exactly the 'title' documents, as a permutation of them, sorted by threshold |
| Catalogue.ShopItems | src/components/Kids/Shop.tsx:42-47 | the shop shows exactly the 'reward' and 'exchange' documents, as a permutation of them, sorted by threshold |
| Catalogue.DeleteItem | src/components/Admin/ShopSettings.tsx:149 | a confirmed delete removes exactly that item; otherwise nothing changes |
| Achievements.AchievementsView.OnCatalogueSnapshot | src/components/Kids/Achievements.tsx:36-42 | the levels become the sorted title items of the snapshot |
| Achievements.AchievementsView.OnUserSnapshot | src/components/Kids/Achievements.tsx:45-49 | an existing user's activated list is taken over; a missing user leaves it as it was |
| Achievements.ArrayUnion | src/components/Kids/Achievements.tsx:68-70 | the id is present afterwards, the old list is a prefix, nothing else is added, and the list grows by at most one |
| Achievements.ArrayUnionIdempotent | src/components/Kids/Achievements.tsx:68-70 | activating the same id twice is the same as once |
| Achievements.ArrayUnionDistinct | src/components/Kids/Achievements.tsx:68-70 | a list without duplicates stays without duplicates |
| Achievements.StatusOf | src/components/Kids/Achievements.tsx:92-93 | activated iff in the list; reached iff not activated and points reach the threshold; locked otherwise |
| Achievements.StatusIcon | src/components/Kids/Achievements.tsx:165 | 🌟 for activated, 🔓 for reached, 🔒 for locked |
| Achievements.GuardMatchesStatus | src/components/Kids/Achievements.tsx:55 | a hold may start exactly on a reached, not yet activated level |
| Achievements.CardCaption | src/components/Kids/Achievements.tsx:144 | the card shows the label, or the id when the label is empty |
| Achievements.Needed | src/components/Kids/Achievements.tsx:159 | the needed amount makes up the threshold exactly, and is positive for an unreached level |
| Achievements.BonusLine | src/components/Kids/Achievements.tsx:147-159 | a bonus line appears iff the level has a bonus; it shows the bonus when activated, the hold hint when reached, and the needed XP when locked |
| Achievements.AchievementsView.constructor | src/components/Kids/Achievements.tsx:25-27 | no levels, no activated ids, no hold |
| Achievements.AchievementsView.StartHold | src/components/Kids/Achievements.tsx:54-57 | a reached, unactivated level starts its hold; otherwise the hold is unchanged |
| Achievements.AchievementsView.StopHold | src/components/Kids/Achievements.tsx:76-81 | no level is held afterwards |
| Achievements.AchievementsView.HoldElapsed | src/components/Kids/Achievements.tsx:62-73 | an existing user gains the level's id by set union and the hold ends; a missing user makes the update fail and nothing changes; the ledger invariant is kept |
| Achievements.ActivationKeepsRest | src/components/Kids/Achievements.tsx:68-70 | activation keeps the user's points and every earlier id, makes the level activated, and closes its guard |
| Shop.ItemName | src/components/Kids/Shop.tsx:58-60 | the name is the label, else `labelRu`, else `labels[lang]`, else `labels.ru`, else '—' when there is no `labels`; it is undefined only when `labels` lacks both |
| Shop.NameInTemplate | src/components/Kids/Shop.tsx:78 | an undefined name is rendered "undefined" inside the label |
| Shop.StartHold | src/components/Kids/Shop.tsx:62-68 | the error flag is set iff the balance is below the threshold; otherwise the item is held |
| Shop.PurchaseRequest | src/components/Kids/Shop.tsx:76-83 | one pending request of −threshold points for the user, labelled type, ": " and the name, with the item's icon |
| Shop.CompletePurchase | src/components/Kids/Shop.tsx:76-83 | exactly that request is added under the fresh id |
| Shop.PurchaseSettles | src/components/Kids/Shop.tsx:76-83 | once approved, a purchase lowers the balance by the threshold, leaves `totalPoints`, and logs a spend of −threshold |
| Shop.AffordableLeavesNoDebt | src/components/Kids/Shop.tsx:63-79 | a purchase the guard lets through never takes the balance below zero |
| ShopSettings.SettingsCaption | src/components/Admin/ShopSettings.tsx:40 | the label falls back label → `labels.ru` → `labelRu` → "" |
| ShopSettings.WithSettingsCaption | src/components/Admin/ShopSettings.tsx:35-41 | the mapped document differs from the stored one only in its label |
| ShopSettings.SettingsList | src/components/Admin/ShopSettings.tsx:35-46 | exactly the relabelled reward and exchange documents, by non-decreasing threshold |
| ShopSettings.FormKind | src/components/Admin/ShopSettings.tsx:28 | the form's type is exchange iff it says so, never a title |
| ShopSettings.SavedShopItem | src/components/Admin/ShopSettings.tsx:56-64 | the record has the stamped id, the form's type, threshold, icon, label and description, and `valueInEuro` iff it is an exchange |
| ShopSettings.ClearedShopForm | src/components/Admin/ShopSettings.tsx:65-67 | label, description and euro value reset; threshold, icon and type are kept |
| ShopSettings.SaveItem | src/components/Admin/ShopSettings.tsx:54-68 | an empty label writes nothing; otherwise exactly the record is stored under its id and the form is cleared |
| ShopSettings.SavedItemReadsBack | src/components/Admin/ShopSettings.tsx:40-64 | a saved item reads back with its label in the settings list and in the shop |
| AchievementsSettings.LevelCaption | src/components/Admin/AchievementsSettings.tsx:39 | the label falls back label → `labelRu` → `translationKey` → "" |
| AchievementsSettings.WithLevelCaption | src/components/Admin/AchievementsSettings.tsx:33-41 | the mapped document differs from the stored one only in its label |
| AchievementsSettings.LevelList | src/components/Admin/AchievementsSettings.tsx:32-43 | exactly the relabelled title documents, by non-decreasing threshold |
| AchievementsSettings.SavedLevel | src/components/Admin/AchievementsSettings.tsx:51-58 | the id is "title_" and the stamp; the record has type title and the form's threshold, icon, label and bonus |
| AchievementsSettings.ClearedLevelForm | src/components/Admin/AchievementsSettings.tsx:59-60 | label and bonus reset; threshold and icon are kept |
| AchievementsSettings.SaveItem | src/components/Admin/AchievementsSettings.tsx:49-61 | an empty label writes nothing; otherwise exactly the record is stored under its id and the form is cleared |
| AchievementsSettings.SavedLevelReadsBack | src/components/Admin/AchievementsSettings.tsx:39-58 | a saved level reads back with its label in the settings list and on the child's levels screen |
| FamilySettings.RoleName | src/components/Admin/FamilySettings.tsx:88 | the role's text is "child" or "parent" |
| FamilySettings.JoinLink | src/components/Admin/FamilySettings.tsx:44 | origin, path, "?join=" and the family id |
| FamilySettings.FamilyMembers | src/components/Admin/FamilySettings.tsx:47-49 | exactly the users of the family, unchanged |
| FamilySettings.MemberId | src/components/Admin/FamilySettings.tsx:88 | role, '_' and the lower-cased, trimmed name with each whitespace run replaced by one '_' |
| FamilySettings.MemberIdShape | src/components/Admin/FamilySettings.tsx:88 | a member id has no whitespace and is no longer than role, '_' and the raw name |
| FamilySettings.MemberIdRolesDiffer | src/components/Admin/FamilySettings.tsx:88 | a child and a parent never share an id |
| FamilySettings.MemberIdOfPlainName | src/components/Admin/FamilySettings.tsx:88 | a lower-case one-word name is used as it is |
| FamilySettings.NewMember | src/components/Admin/FamilySettings.tsx:90-97 | the trimmed name, the role, avatar and family, and zero points and balance |
| FamilySettings.AddMember | src/components/Admin/FamilySettings.tsx:86-100 | a blank name writes nothing; otherwise the new member is stored under its slug and the name field clears; the ledger invariant is kept when the slug held no points |
| FamilySettings.UpdateMember | src/components/Admin/FamilySettings.tsx:102-107 | only name and avatar of that user change; a missing user makes the update fail and nothing changes; the ledger invariant is kept |
| FamilySettings.DeleteMember | src/components/Admin/FamilySettings.tsx:109-113 | a confirmed delete removes exactly that user; otherwise nothing changes; the ledger invariant is kept when that user held no points |
| FamilySettings.ChooseRole | src/components/Admin/FamilySettings.tsx:182-183 | the role is set, with avatar 👶 for a child and 🧔 for a parent |
| RegisterPage.InitialForm | src/components/Auth/RegisterPage.tsx:25-29 | the given name, role child, avatar 👶 and no family code |
| RegisterPage.PreloadInvite | src/components/Auth/RegisterPage.tsx:33-39 | a stored non-empty code fills the family code and forces child with 👶; otherwise the form is unchanged |
| RegisterPage.SelectRole | src/components/Auth/RegisterPage.tsx:90-102 | the role card sets the role, with avatar 👶 for a child and 🧔 for a parent |
| RegisterPage.FamilyIdFor | src/components/Auth/RegisterPage.tsx:48 | the trimmed code when it is non-empty, otherwise "fam_" and the random suffix; never empty |
| RegisterPage.Register | src/components/Auth/RegisterPage.tsx:43-58 | rejected iff the trimmed name is empty; otherwise a profile with the uid, trimmed name, role, avatar, family and zero points |
| RegisterPage.HandleRegister | src/components/Auth/RegisterPage.tsx:42-60 | a rejection writes nothing; a registration stores exactly the new profile under the uid; the ledger invariant is kept when the uid held no points |
| RegisterPage.InviteJoinsFamily | src/components/Auth/RegisterPage.tsx:33-58 | following a family's invite link and registering makes a child of that family, listed among its members |
| Text.NatToString | src/components/Kids/TaskList.tsx:175 | a number's decimal text: digits without a leading zero that read back as the number |
| Text.Trim | src/components/Admin/FamilySettings.tsx:87-88 | the trimmed text is the input less its leading and trailing white space (`Text.IsSpace`, the ECMAScript set), and is empty iff the input is all whitespace |
| Text.TrimOfUnpadded | src/components/Auth/RegisterPage.tsx:48 | trimming a text without outer whitespace leaves it unchanged |
| Text.ToLower | src/components/Admin/FamilySettings.tsx:88 | each ASCII capital becomes its small letter and every other character is kept |
| Text.CollapseSpaces | src/components/Admin/FamilySettings.tsx:88 | the result has no whitespace and is no longer than the input, and a text without whitespace is unchanged |
| Text.CollapseRun | src/components/Admin/FamilySettings.tsx:88 | a whitespace run after a word becomes exactly one '_' |
| Text.FirstNonEmpty | src/components/Admin/ShopSettings.tsx:40 | an `a || b || …` chain yields the first non-empty candidate, or "" iff all are empty |
| Text.IndexOf | src/App.tsx:93-94 | the first position of the character, or the length when absent |
| Text.PlusToSpace | src/App.tsx:94 | '+' in a query value reads as a space and nothing else changes |
| Seqs.Filter | src/App.tsx:146 | `filter` keeps exactly the elements satisfying the predicate, no more of each than the input holds, and every kept element passes |
| Seqs.FilterMultiplicity | src/App.tsx:146 | each element satisfying the predicate is kept as many times as it occurs in the input; every other is dropped |
| Seqs.FilterCons | src/App.tsx:146 | the filter of a list with a head is the head (when it passes) followed by the filter of the rest, so the order is kept |
| Seqs.FilterAppend | src/App.tsx:146 | the filter of a concatenation is the concatenation of the filters |
| Seqs.Map | src/components/Admin/ShopSettings.tsx:35-42 | `map` keeps the length and puts f of element i at position i |
| Seqs.MapMembers | src/components/Admin/ShopSettings.tsx:35-42 | the mapped list holds exactly the images of the input's elements |
| Seqs.FilterIdempotent | src/components/Admin/AdminPanel.tsx:158-162 | filtering twice is filtering once |
| Seqs.Reverse | src/components/Stats.tsx:52 | `reverse` puts element i at the mirrored position |
| Seqs.Take | src/components/Stats.tsx:52 | `slice(0, n)` is a prefix of length min(n, length) |
| Seqs.TakeLast | src/components/Stats.tsx:80 | for n > 0, `slice(-n)` is the suffix of length min(n, length) |

## Left out

- Firebase subscriptions, authentication, queries, network failures and the `try`/`catch` logging are not modelled. The database is one sequential store, and a snapshot is the current contents of its collection.
- Concurrent clients, and the concurrency of `Promise.all` in `clearOldTasks`, are not modelled. Its deletes are one set removal.
- Real-time behaviour is not modelled: hold durations, the 800 ms delays, the 1 s interval, the 2 s cleanup delay, sounds and coin animations. The end of a hold, a tick and a delayed callback are separate method calls (`HoldElapsed`, `TimerStep`, `RequestWritten`, `DoneCleanup`).
- Domain.RoundedPercent: computes `Math.round(x * 100)` exactly on rationals. Floating point can differ from this in the last place. The `toFixed(1)` average and the `Math.min` progress bar are not modelled.
- `Date`, `toISOString` and `toLocaleDateString` are not modelled. Today's date, the day key of a history entry and the deadline's millisecond difference are parameters. `createdAt` and `completedAt` are not stored.
- `Math.random` and `Date.now()` are not modelled. The family suffix and the item stamp are parameters, and so is each fresh `addDoc` id.
- Text.ToLower: folds ASCII letters only. Unicode case mapping is not modelled.
- The browser is not modelled: `sessionStorage`, `history.replaceState`, the clipboard, `navigator.share`, the QR code, `alert` and `window.confirm`. A confirmation is a boolean parameter, and a stored pending code is an `Option` parameter.
- App.PendingAfterLoad: does not decode `%`-escapes in the URL. Its round trip is stated only for codes without '#', '&', '+' and '%'.
- Stats.GroupByDay: `Object.keys` lists integer-like keys first, in numeric order. The model keeps first-seen order for every key. Day keys such as "3 Nov" are never integer-like.
- TemplatesList.SortKeys: the comparator is modelled as a stable sort by rank. Engines apply that comparator through different algorithms, and for this rank-based comparator every stable sort gives the same result.
- Catalogue.SortByThreshold: is an insertion sort and so is stable, as `Array.prototype.sort` is required to be.
- FamilySettings.AddMember: `setDoc` silently replaces an existing user with the same slug. The model states this replacement rather than ruling it out. When the replaced user held points, the new record starts at 0 while the history keeps the earnings, so the ledger invariant is preserved only when the slug held no points.
- RegisterPage.HandleRegister: the same holds for re-registering a uid whose document holds points; the ledger invariant is preserved only when it held none.
- FamilySettings.DeleteMember: deleting a user leaves that user's history entries in place (the history is not cleaned up), so the ledger invariant is preserved only when the user held no points.
- `deleteMyAccount`, `handleCopy` and `handleShare` are not modelled. They delete the signed-in user and call browser APIs, with no rule beyond one `deleteDoc`.
- The editing toggle (`editId`) in FamilySettings is not modelled, because it holds no rule. `updateMember`'s closing of the editor is the `editClosed` result.
- The JSX, styling and presentational components are not part of this model: Header, Navbar, Footer, ProfileSelector, TaskItem, AdminForm, PrivacyPolicy and Instructions. The translation table `src/translations.ts` is not part of it either.

## Findings

| source | as written | input that shows it | evidently intended | confidence | as-written member | corrected member |
|---|---|---|---|---|---|---|
| src/components/Stats.tsx:63 | a day's net points negate every non-earn entry (`-curr.points`), but the final approval stores a spend with its already negative points | a settled 50-point purchase: the entry has type spend and points −50, so the balance falls by 50 while the chart adds +50 | a spend lowers its day's total by what it cost, so the chart moves with the balance | high (not executed) | Stats.AsWrittenPurchaseSign | Stats.SettledEntryMatchesBalance |
| src/components/Stats.tsx:142 | the log prints "-" before every non-earn amount | the same purchase logs "--50" | one minus sign, "-50" | high (not executed) | Stats.AsWrittenPurchaseSign | Stats.LogAmount |
