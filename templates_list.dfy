/** The template list of the parent's panel (src/components/Admin/TemplatesList.tsx): tasks
    grouped by owner, the groups ordered with the shared group first and the selected child's next. */
module TemplatesList {
  import opened Wrappers
  import opened Seqs
  import opened Domain

  /** `task.assignedTo || 'all'`. */
  function GroupKey(t: Task): (k: string)
    ensures k != ""
    ensures t.assignedTo != "" ==> k == t.assignedTo
    ensures t.assignedTo == "" ==> k == "all"
  {
    if t.assignedTo != "" then t.assignedTo else "all"
  }

  function KeyIs(k: string): Task -> bool {
    (t: Task) => GroupKey(t) == k
  }

  /** The tasks of one key in a list, collected from the left as the reduce pushes them. */
  function GroupOf(tasks: seq<Task>, k: string): seq<Task> {
    if tasks == [] then []
    else GroupOf(tasks[..|tasks| - 1], k) + (if GroupKey(tasks[|tasks| - 1]) == k then [tasks[|tasks| - 1]] else [])
  }

  /** Collecting one key's tasks is filtering by that key. */
  lemma {:induction false} GroupOfIsFilter(tasks: seq<Task>, k: string)
    ensures GroupOf(tasks, k) == Filter(KeyIs(k), tasks)
  {
    if tasks != [] {
      var init, last := tasks[..|tasks| - 1], tasks[|tasks| - 1];
      GroupOfIsFilter(init, k);
      assert tasks == init + [last];
      FilterAppend(KeyIs(k), init, [last]);
      FilterCons(KeyIs(k), last, []);
      assert [last] + [] == [last];
    }
  }

  lemma {:induction false} GroupOfAbsent(tasks: seq<Task>, k: string)
    requires forall j :: 0 <= j < |tasks| ==> GroupKey(tasks[j]) != k
    ensures GroupOf(tasks, k) == []
  {
    if tasks != [] {
      GroupOfAbsent(tasks[..|tasks| - 1], k);
    }
  }

  /** The accumulator after some prefix of the tasks: distinct keys in first-seen order, and
      for each key the prefix's tasks with that key, in order. */
  ghost predicate Grouped(prefix: seq<Task>, keys: seq<string>, groups: map<string, seq<Task>>) {
    Distinct(keys) && SameKeys(keys, groups) && KeysOccur(prefix, keys) && GroupsMatch(prefix, groups)
  }

  ghost predicate SameKeys(keys: seq<string>, groups: map<string, seq<Task>>) {
    forall k :: k in groups <==> k in keys
  }

  /** The keys are exactly the keys some task of the prefix has. */
  ghost predicate KeysOccur(prefix: seq<Task>, keys: seq<string>) {
    forall k :: k in keys <==> exists j :: 0 <= j < |prefix| && GroupKey(prefix[j]) == k
  }

  ghost predicate GroupsMatch(prefix: seq<Task>, groups: map<string, seq<Task>>) {
    forall k :: k in groups ==> groups[k] == GroupOf(prefix, k)
  }

  lemma StepKeysOccur(prefix: seq<Task>, keys: seq<string>, t: Task, keys': seq<string>)
    requires KeysOccur(prefix, keys)
    requires keys' == keys || keys' == keys + [GroupKey(t)]
    requires GroupKey(t) in keys'
    ensures KeysOccur(prefix + [t], keys')
  {
    var prefix' := prefix + [t];
    forall k ensures k in keys' <==> exists j :: 0 <= j < |prefix'| && GroupKey(prefix'[j]) == k {
      if exists j :: 0 <= j < |prefix| && GroupKey(prefix[j]) == k {
        var j :| 0 <= j < |prefix| && GroupKey(prefix[j]) == k;
        assert prefix'[j] == prefix[j];
      }
      if exists j :: 0 <= j < |prefix'| && GroupKey(prefix'[j]) == k {
        var j :| 0 <= j < |prefix'| && GroupKey(prefix'[j]) == k;
        if j < |prefix| { assert prefix[j] == prefix'[j]; }
      }
      if k == GroupKey(t) {
        assert prefix'[|prefix|] == t;
      }
    }
  }

  lemma StepGroups(prefix: seq<Task>, groups: map<string, seq<Task>>, t: Task, groups': map<string, seq<Task>>)
    requires GroupsMatch(prefix, groups)
    requires GroupKey(t) !in groups ==> GroupOf(prefix, GroupKey(t)) == []
    requires groups' == groups[GroupKey(t) := (if GroupKey(t) in groups then groups[GroupKey(t)] else []) + [t]]
    ensures GroupsMatch(prefix + [t], groups')
  {
    forall k | k in groups' ensures groups'[k] == GroupOf(prefix + [t], k) {
      assert (prefix + [t])[..|prefix|] == prefix;
    }
  }

  /** One step of the reduce keeps the accumulator's meaning. */
  lemma GroupedStep(prefix: seq<Task>, keys: seq<string>, groups: map<string, seq<Task>>, t: Task,
                    prefix': seq<Task>, keys': seq<string>, groups': map<string, seq<Task>>)
    requires Grouped(prefix, keys, groups)
    requires prefix' == prefix + [t]
    requires keys' == if GroupKey(t) in groups then keys else keys + [GroupKey(t)]
    requires groups' == groups[GroupKey(t) := (if GroupKey(t) in groups then groups[GroupKey(t)] else []) + [t]]
    ensures Grouped(prefix', keys', groups')
  {
    if GroupKey(t) !in groups {
      GroupOfAbsent(prefix, GroupKey(t));
    }
    StepKeysOccur(prefix, keys, t, keys');
    StepGroups(prefix, groups, t, groups');
    StepSameKeys(keys, groups, GroupKey(t), t, keys', groups');
  }

  lemma StepSameKeys(keys: seq<string>, groups: map<string, seq<Task>>, key: string, t: Task,
                     keys': seq<string>, groups': map<string, seq<Task>>)
    requires Distinct(keys) && SameKeys(keys, groups)
    requires keys' == if key in groups then keys else keys + [key]
    requires groups' == groups[key := (if key in groups then groups[key] else []) + [t]]
    ensures Distinct(keys') && SameKeys(keys', groups')
  {
  }

  lemma GroupedFilters(tasks: seq<Task>, keys: seq<string>, groups: map<string, seq<Task>>)
    requires Grouped(tasks, keys, groups)
    ensures Distinct(keys)
    ensures forall k :: k in groups <==> k in keys
    ensures forall k :: k in keys <==> exists i :: 0 <= i < |tasks| && GroupKey(tasks[i]) == k
    ensures forall k :: k in groups ==> groups[k] == Filter(KeyIs(k), tasks)
  {
    forall k | k in groups ensures groups[k] == Filter(KeyIs(k), tasks) {
      GroupOfIsFilter(tasks, k);
    }
  }

  /** The reduce's accumulator: the keys in first-seen order and the group of each key. */
  datatype Grouping = Grouping(keys: seq<string>, groups: map<string, seq<Task>>)

  /** One step of the reduce: the task joins its key's group, opening the group when it is new. */
  function PushTask(g: Grouping, t: Task): Grouping {
    var key := GroupKey(t);
    var group := if key in g.groups then g.groups[key] else [];
    Grouping(if key in g.groups then g.keys else g.keys + [key], g.groups[key := group + [t]])
  }

  /** The reduce over a list of tasks, from the left. */
  function GroupAll(tasks: seq<Task>): Grouping {
    if tasks == [] then Grouping([], map[])
    else PushTask(GroupAll(tasks[..|tasks| - 1]), tasks[|tasks| - 1])
  }

  lemma {:induction false} GroupAllGrouped(tasks: seq<Task>)
    ensures Grouped(tasks, GroupAll(tasks).keys, GroupAll(tasks).groups)
  {
    if tasks != [] {
      var init, last := tasks[..|tasks| - 1], tasks[|tasks| - 1];
      GroupAllGrouped(init);
      var g := GroupAll(init);
      assert tasks == init + [last];
      GroupedStep(init, g.keys, g.groups, last, tasks, PushTask(g, last).keys, PushTask(g, last).groups);
    }
  }

  /** The grouping reduce: keys in first-seen order, each group the tasks with that key in their
      original order. */
  method GroupTasks(tasks: seq<Task>) returns (keys: seq<string>, groups: map<string, seq<Task>>)
    ensures Distinct(keys)
    ensures forall k :: k in groups <==> k in keys
    ensures forall k :: k in keys <==> exists i :: 0 <= i < |tasks| && GroupKey(tasks[i]) == k
    ensures forall k :: k in groups ==> groups[k] == Filter(KeyIs(k), tasks)
  {
    keys, groups := [], map[];
    var i := 0;
    while i < |tasks|
      invariant 0 <= i <= |tasks|
      invariant Grouping(keys, groups) == GroupAll(tasks[..i])
    {
      var t := tasks[i];
      var key := GroupKey(t);
      var group := if key in groups then groups[key] else [];
      if key !in groups {
        keys := keys + [key];
      }
      groups := groups[key := group + [t]];
      assert tasks[..i + 1][..i] == tasks[..i];
      i := i + 1;
    }
    assert tasks[..i] == tasks;
    GroupAllGrouped(tasks);
    GroupedFilters(tasks, keys, groups);
  }

  /** Every task lands in exactly one group, the group of its own key. */
  lemma GroupsPartition(tasks: seq<Task>, groups: map<string, seq<Task>>)
    requires forall k :: k in groups ==> groups[k] == Filter(KeyIs(k), tasks)
    requires forall i :: 0 <= i < |tasks| ==> GroupKey(tasks[i]) in groups
    ensures forall t :: t in tasks ==> t in groups[GroupKey(t)]
    ensures forall k, t :: k in groups && t in groups[k] ==> t in tasks && k == GroupKey(t)
  {
  }

  /** The position a key sorts into: the shared group, then the selected child, then the rest. */
  function Rank(k: string, selectedChildId: string): (n: nat)
    ensures n <= 2
    ensures n == 0 <==> k == "all"
  {
    if k == "all" then 0 else if k == selectedChildId then 1 else 2
  }

  /** The comparator as written. */
  function Compare(a: string, b: string, selectedChildId: string): int {
    if a == "all" then -1
    else if b == "all" then 1
    else if a == selectedChildId then -1
    else if b == selectedChildId then 1
    else 0
  }

  /** On two different keys the comparator orders by rank, so it is a consistent comparator on
      the (distinct) group keys. */
  lemma CompareIsByRank(a: string, b: string, selectedChildId: string)
    requires a != b
    ensures Compare(a, b, selectedChildId) < 0 <==> Rank(a, selectedChildId) < Rank(b, selectedChildId)
    ensures Compare(a, b, selectedChildId) > 0 <==> Rank(a, selectedChildId) > Rank(b, selectedChildId)
    ensures Compare(a, b, selectedChildId) == 0 <==> Rank(a, selectedChildId) == Rank(b, selectedChildId)
    ensures Compare(a, b, selectedChildId) == -Compare(b, a, selectedChildId)
  {
  }

  function RankIs(c: nat, selectedChildId: string): string -> bool {
    (k: string) => Rank(k, selectedChildId) == c
  }

  /** `sortedKeys`: the stable sort of the keys by the comparator, which on distinct keys is the
      keys of each rank in turn, each class in its original order. */
  function SortKeys(keys: seq<string>, selectedChildId: string): seq<string> {
    Filter(RankIs(0, selectedChildId), keys) + Filter(RankIs(1, selectedChildId), keys) + Filter(RankIs(2, selectedChildId), keys)
  }

  lemma {:induction false} SplitByRank(keys: seq<string>, selectedChildId: string)
    ensures multiset(Filter(RankIs(0, selectedChildId), keys)) + multiset(Filter(RankIs(1, selectedChildId), keys))
          + multiset(Filter(RankIs(2, selectedChildId), keys)) == multiset(keys)
  {
    if keys != [] {
      var x, rest := keys[0], keys[1..];
      SplitByRank(rest, selectedChildId);
      assert keys == [x] + rest;
      var r := Rank(x, selectedChildId);
      RankFilterCons(0, r, x, rest, selectedChildId);
      RankFilterCons(1, r, x, rest, selectedChildId);
      RankFilterCons(2, r, x, rest, selectedChildId);
      assert multiset(keys) == multiset{x} + multiset(rest);
      AddToOneOfThree(multiset{x}, r,
        multiset(Filter(RankIs(0, selectedChildId), rest)),
        multiset(Filter(RankIs(1, selectedChildId), rest)),
        multiset(Filter(RankIs(2, selectedChildId), rest)));
    }
  }

  lemma AddToOneOfThree<T>(m: multiset<T>, r: nat, a: multiset<T>, b: multiset<T>, c: multiset<T>)
    requires r <= 2
    ensures ((if r == 0 then m else multiset{}) + a) + ((if r == 1 then m else multiset{}) + b)
          + ((if r == 2 then m else multiset{}) + c) == m + (a + b + c)
  {
  }

  /** Putting a key of rank `r` in front adds it to the class of rank `r` alone. */
  lemma RankFilterCons(c: nat, r: nat, x: string, rest: seq<string>, selectedChildId: string)
    requires r == Rank(x, selectedChildId)
    ensures multiset(Filter(RankIs(c, selectedChildId), [x] + rest))
         == (if c == r then multiset{x} else multiset{}) + multiset(Filter(RankIs(c, selectedChildId), rest))
  {
    FilterCons(RankIs(c, selectedChildId), x, rest);
  }

  /** The sorted keys are a permutation of the group keys. */
  lemma SortKeysPermutation(keys: seq<string>, selectedChildId: string)
    ensures multiset(SortKeys(keys, selectedChildId)) == multiset(keys)
  {
    SplitByRank(keys, selectedChildId);
  }

  /** The rank of a sorted position is fixed by the segment it falls in. */
  lemma RankAt(keys: seq<string>, selectedChildId: string, i: int)
    requires 0 <= i < |SortKeys(keys, selectedChildId)|
    ensures var a, b := Filter(RankIs(0, selectedChildId), keys), Filter(RankIs(1, selectedChildId), keys);
      Rank(SortKeys(keys, selectedChildId)[i], selectedChildId) == (if i < |a| then 0 else if i < |a| + |b| then 1 else 2)
  {
    var a, b, c := Filter(RankIs(0, selectedChildId), keys), Filter(RankIs(1, selectedChildId), keys), Filter(RankIs(2, selectedChildId), keys);
    var r := SortKeys(keys, selectedChildId);
    if i < |a| {
      assert r[i] == a[i] && RankIs(0, selectedChildId)(a[i]);
    } else if i < |a| + |b| {
      assert r[i] == b[i - |a|] && RankIs(1, selectedChildId)(b[i - |a|]);
    } else {
      assert r[i] == c[i - |a| - |b|] && RankIs(2, selectedChildId)(c[i - |a| - |b|]);
    }
  }

  /** The sorted keys are ordered by the comparator: ranks never decrease, and no earlier key
      compares after a later one. */
  lemma SortKeysSorted(keys: seq<string>, selectedChildId: string)
    ensures var r := SortKeys(keys, selectedChildId);
      forall i, j :: 0 <= i < j < |r| ==> Rank(r[i], selectedChildId) <= Rank(r[j], selectedChildId) && Compare(r[i], r[j], selectedChildId) <= 0
  {
    var r := SortKeys(keys, selectedChildId);
    forall i, j | 0 <= i < j < |r| ensures Rank(r[i], selectedChildId) <= Rank(r[j], selectedChildId) && Compare(r[i], r[j], selectedChildId) <= 0 {
      RankAt(keys, selectedChildId, i);
      RankAt(keys, selectedChildId, j);
    }
  }

  /** 'all' comes first, and the selected child's key, when present, comes before every key but 'all'. */
  lemma SortKeysHead(keys: seq<string>, selectedChildId: string)
    ensures var r := SortKeys(keys, selectedChildId);
      && ("all" in keys ==> r[0] == "all")
      && (forall i, j :: 0 <= i < |r| && 0 <= j < |r| && r[i] == selectedChildId && r[j] != "all" && r[j] != selectedChildId ==> i < j)
  {
    var r := SortKeys(keys, selectedChildId);
    var a := Filter(RankIs(0, selectedChildId), keys);
    if "all" in keys {
      assert "all" in a;
      assert r[0] == a[0] && RankIs(0, selectedChildId)(a[0]);
    }
    forall i, j | 0 <= i < |r| && 0 <= j < |r| && r[i] == selectedChildId && r[j] != "all" && r[j] != selectedChildId ensures i < j {
      RankAt(keys, selectedChildId, i);
      RankAt(keys, selectedChildId, j);
    }
  }

  /** Stability: within each rank the keys keep their first-seen order. */
  lemma SortKeysStable(keys: seq<string>, selectedChildId: string, c: nat)
    requires c <= 2
    ensures Filter(RankIs(c, selectedChildId), SortKeys(keys, selectedChildId)) == Filter(RankIs(c, selectedChildId), keys)
  {
    var p := RankIs(c, selectedChildId);
    var a, b, d := Filter(RankIs(0, selectedChildId), keys), Filter(RankIs(1, selectedChildId), keys), Filter(RankIs(2, selectedChildId), keys);
    FilterAppend(p, a + b, d);
    FilterAppend(p, a, b);
    FilterClass(selectedChildId, c, 0, keys);
    FilterClass(selectedChildId, c, 1, keys);
    FilterClass(selectedChildId, c, 2, keys);
  }

  lemma FilterClass(selectedChildId: string, c: nat, e: nat, keys: seq<string>)
    ensures c == e ==> Filter(RankIs(c, selectedChildId), Filter(RankIs(e, selectedChildId), keys)) == Filter(RankIs(c, selectedChildId), keys)
    ensures c != e ==> Filter(RankIs(c, selectedChildId), Filter(RankIs(e, selectedChildId), keys)) == []
  {
    if c == e {
      FilterIdempotent(RankIs(c, selectedChildId), keys);
    }
  }

  /** A group's heading: the shared templates, or the owner's name, 'User' when the owner is unknown or unnamed. */
  function GroupHeading(groupId: string, users: seq<Profile>, templatesTitle: string): (h: string)
    ensures groupId == "all" ==> h == "\U{1F30D} " + templatesTitle
    ensures groupId != "all" && (forall i :: 0 <= i < |users| ==> users[i].uid != groupId) ==> h == "\U{1F464} User"
    ensures groupId != "all" ==> forall i ::
      0 <= i < |users| && users[i].uid == groupId && (forall j :: 0 <= j < i ==> users[j].uid != groupId) ==>
        h == "\U{1F464} " + (if users[i].user.name != "" then users[i].user.name else "User")
  {
    if groupId == "all" then "\U{1F30D} " + templatesTitle
    else "\U{1F464} " + OwnerName(users, groupId)
  }

  /** `users.find(u => u.uid === groupId)?.name || 'User'`. */
  function OwnerName(users: seq<Profile>, uid: string): (n: string)
    ensures n != ""
    ensures (forall i :: 0 <= i < |users| ==> users[i].uid != uid) ==> n == "User"
    ensures forall i :: 0 <= i < |users| && users[i].uid == uid && (forall j :: 0 <= j < i ==> users[j].uid != uid) ==>
      n == (if users[i].user.name != "" then users[i].user.name else "User")
  {
    if users == [] then "User"
    else if users[0].uid == uid then (if users[0].user.name != "" then users[0].user.name else "User")
    else OwnerName(users[1..], uid)
  }

  /** The delete button: with confirmation the template is removed, nothing else changes. */
  method DeleteTemplate(db: Store, id: string, confirmed: bool)
    requires db.Valid()
    modifies db`tasks
    ensures db.Valid()
    ensures confirmed ==> db.tasks == old(db.tasks) - {id}
    ensures !confirmed ==> db.tasks == old(db.tasks)
  {
    if confirmed {
      db.tasks := db.tasks - {id};
    }
  }
}
