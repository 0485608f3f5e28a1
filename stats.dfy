/** The statistics screen (src/components/Stats.tsx): a child's history grouped into per-day net
    points, the totals over the chart, and the most recent log lines. */
module Stats {
  import opened Wrappers
  import opened Seqs
  import opened Text
  import opened Domain
  import AdminPanel

  /** The history query: one child's entries, in stored (date) order. */
  function ChildHistory(history: seq<HistoryEntry>, childId: string): (r: seq<HistoryEntry>)
    ensures forall e :: e in r <==> e in history && e.userId == childId
  {
    Filter((e: HistoryEntry) => e.userId == childId, history)
  }

  /** What an entry adds to its day, as written: `type === 'earn' ? points : -points`. */
  function AsWrittenContribution(e: HistoryEntry): int {
    if e.kind == Earn then e.points else -e.points
  }

  /** What an entry adds to its day: its stored points, which are already negative for a spend. */
  function Contribution(e: HistoryEntry): int {
    e.points
  }

  /** The grouping accumulator: day keys in first-seen (insertion) order and their sums. */
  datatype Groups = Groups(keys: seq<string>, sums: map<string, int>)

  predicate WellFormed(g: Groups) {
    Distinct(g.keys) && (forall k :: k in g.keys ==> k in g.sums) && (forall k :: k in g.sums ==> k in g.keys)
  }

  /** One step of the reduce: an undated entry is skipped, a dated one is added to its day,
      opening the day when it is new. */
  function AddEntry(g: Groups, e: HistoryEntry, value: HistoryEntry -> int): Groups {
    if e.day.None? then g
    else
      var k := e.day.value;
      if k in g.sums then Groups(g.keys, g.sums[k := g.sums[k] + value(e)])
      else Groups(g.keys + [k], g.sums[k := value(e)])
  }

  /** The reduce over the whole list, from the left. */
  function Group(items: seq<HistoryEntry>, value: HistoryEntry -> int): Groups {
    if items == [] then Groups([], map[])
    else AddEntry(Group(items[..|items| - 1], value), items[|items| - 1], value)
  }

  /** The grouping loop: the accumulator after the loop is the reduce over the list. */
  method GroupByDay(items: seq<HistoryEntry>, value: HistoryEntry -> int) returns (keys: seq<string>, sums: map<string, int>)
    ensures Groups(keys, sums) == Group(items, value)
  {
    keys, sums := [], map[];
    var i := 0;
    while i < |items|
      invariant 0 <= i <= |items|
      invariant Groups(keys, sums) == Group(items[..i], value)
    {
      var e := items[i];
      if e.day.Some? {
        var k := e.day.value;
        if k in sums {
          sums := sums[k := sums[k] + value(e)];
        } else {
          keys := keys + [k];
          sums := sums[k := value(e)];
        }
      }
      assert items[..i + 1][..i] == items[..i];
      i := i + 1;
    }
    assert items[..i] == items;
  }

  /** The accumulator stays well formed: each day key once, and exactly the keys with a sum. */
  lemma {:induction false} GroupWellFormed(items: seq<HistoryEntry>, value: HistoryEntry -> int)
    ensures WellFormed(Group(items, value))
  {
    if items != [] {
      GroupWellFormed(items[..|items| - 1], value);
    }
  }

  /** The chart has exactly one entry per day key that occurs on a dated entry. */
  lemma {:induction false} GroupKeys(items: seq<HistoryEntry>, value: HistoryEntry -> int)
    ensures forall k :: k in Group(items, value).keys <==> exists i :: 0 <= i < |items| && items[i].day == Some(k)
  {
    if items != [] {
      var init := items[..|items| - 1];
      GroupKeys(init, value);
      GroupWellFormed(init, value);
      forall k ensures k in Group(items, value).keys <==> exists i :: 0 <= i < |items| && items[i].day == Some(k) {
        if exists i :: 0 <= i < |init| && init[i].day == Some(k) {
          var i :| 0 <= i < |init| && init[i].day == Some(k);
          assert items[i].day == Some(k);
        }
        if exists i :: 0 <= i < |items| && items[i].day == Some(k) {
          var i :| 0 <= i < |items| && items[i].day == Some(k);
          if i < |init| { assert init[i].day == Some(k); }
        }
      }
    }
  }

  predicate Dated(e: HistoryEntry) {
    e.day.Some?
  }

  /** The reduce over a list with one more entry is one more step. */
  lemma GroupSnoc(items: seq<HistoryEntry>, e: HistoryEntry, value: HistoryEntry -> int)
    ensures Group(items + [e], value) == AddEntry(Group(items, value), e, value)
  {
    assert (items + [e])[..|items|] == items;
  }

  /** Undated entries are skipped: grouping the dated entries alone gives the same chart. */
  lemma {:induction false} GroupSkipsUndated(items: seq<HistoryEntry>, value: HistoryEntry -> int)
    ensures Group(items, value) == Group(Filter(Dated, items), value)
  {
    if items != [] {
      var init, last := items[..|items| - 1], items[|items| - 1];
      GroupSkipsUndated(init, value);
      assert items == init + [last];
      FilterAppend(Dated, init, [last]);
      FilterCons(Dated, last, []);
      assert [last] + [] == [last];
      if Dated(last) {
        assert Filter(Dated, items) == Filter(Dated, init) + [last];
        GroupSnoc(Filter(Dated, init), last, value);
      } else {
        assert Filter(Dated, items) == Filter(Dated, init);
      }
    }
  }

  /** A chart point: a day and its net points. */
  datatype ChartPoint = ChartPoint(name: string, points: int)

  /** `Object.keys(grouped).map(...)`: the chart in key order. */
  function ChartOf(keys: seq<string>, sums: map<string, int>): (c: seq<ChartPoint>)
    requires forall k :: k in keys ==> k in sums
    ensures |c| == |keys|
    ensures forall i :: 0 <= i < |c| ==> c[i] == ChartPoint(keys[i], sums[keys[i]])
  {
    if keys == [] then [] else [ChartPoint(keys[0], sums[keys[0]])] + ChartOf(keys[1..], sums)
  }

  /** The chart of a history list under a contribution rule. */
  function Chart(items: seq<HistoryEntry>, value: HistoryEntry -> int): (c: seq<ChartPoint>)
    ensures |c| == |Group(items, value).keys|
  {
    GroupWellFormed(items, value);
    var g := Group(items, value);
    ChartOf(g.keys, g.sums)
  }

  /** `totalPoints`: the sum over the chart. */
  function TotalPoints(c: seq<ChartPoint>): int {
    if c == [] then 0 else c[0].points + TotalPoints(c[1..])
  }

  /** `lastWeekPoints`: the sum over the last seven chart points. */
  function LastWeekPoints(c: seq<ChartPoint>): (n: int)
    ensures |c| <= 7 ==> n == TotalPoints(c)
  {
    TotalPoints(TakeLast(c, 7))
  }

  /** The last seven points are the tail of the chart: the week and the earlier points make up the total. */
  lemma {:induction false} LastWeekIsTail(c: seq<ChartPoint>)
    ensures TotalPoints(c) == TotalPoints(c[..|c| - |TakeLast(c, 7)|]) + LastWeekPoints(c)
  {
    var n := |c| - |TakeLast(c, 7)|;
    assert c == c[..n] + c[n..];
    TotalAppend(c[..n], c[n..]);
  }

  lemma {:induction false} TotalAppend(a: seq<ChartPoint>, b: seq<ChartPoint>)
    ensures TotalPoints(a + b) == TotalPoints(a) + TotalPoints(b)
  {
    if a == [] {
      assert a + b == b;
    } else {
      assert (a + b)[1..] == a[1..] + b;
      TotalAppend(a[1..], b);
    }
  }

  /** The sum of the dated entries' contributions, from the left. */
  function DatedTotal(items: seq<HistoryEntry>, value: HistoryEntry -> int): int {
    if items == [] then 0
    else DatedTotal(items[..|items| - 1], value) + (if items[|items| - 1].day.Some? then value(items[|items| - 1]) else 0)
  }

  function SumOver(keys: seq<string>, sums: map<string, int>): int
    requires forall k :: k in keys ==> k in sums
  {
    if keys == [] then 0 else sums[keys[0]] + SumOver(keys[1..], sums)
  }

  lemma {:induction false} ChartSum(keys: seq<string>, sums: map<string, int>)
    requires forall k :: k in keys ==> k in sums
    ensures TotalPoints(ChartOf(keys, sums)) == SumOver(keys, sums)
  {
    if keys != [] {
      ChartSum(keys[1..], sums);
      assert ChartOf(keys, sums)[1..] == ChartOf(keys[1..], sums);
    }
  }

  lemma {:induction false} SumOverAppend(keys: seq<string>, k: string, sums: map<string, int>)
    requires forall x :: x in keys ==> x in sums
    requires k in sums
    ensures SumOver(keys + [k], sums) == SumOver(keys, sums) + sums[k]
  {
    if keys == [] {
      assert [] + [k] == [k];
    } else {
      assert (keys + [k])[1..] == keys[1..] + [k];
      SumOverAppend(keys[1..], k, sums);
    }
  }

  lemma {:induction false} SumOverOther(keys: seq<string>, sums: map<string, int>, k: string, x: int)
    requires forall y :: y in keys ==> y in sums
    requires k !in keys
    ensures SumOver(keys, sums[k := x]) == SumOver(keys, sums)
  {
    if keys != [] {
      SumOverOther(keys[1..], sums, k, x);
    }
  }

  lemma {:induction false} SumOverBump(keys: seq<string>, sums: map<string, int>, k: string, v: int)
    requires forall y :: y in keys ==> y in sums
    requires Distinct(keys) && k in keys
    ensures SumOver(keys, sums[k := sums[k] + v]) == SumOver(keys, sums) + v
  {
    if keys[0] == k {
      assert k !in keys[1..] by {
        forall i | 0 <= i < |keys[1..]| ensures keys[1..][i] != k {
          assert keys[i + 1] != keys[0];
        }
      }
      SumOverOther(keys[1..], sums, k, sums[k] + v);
    } else {
      assert Distinct(keys[1..]) by {
        forall i, j | 0 <= i < j < |keys[1..]| ensures keys[1..][i] != keys[1..][j] {
          assert keys[i + 1] != keys[j + 1];
        }
      }
      SumOverBump(keys[1..], sums, k, v);
    }
  }

  /** Nothing is lost or counted twice: the chart's total is the sum of every dated entry's contribution. */
  lemma {:induction false} ChartTotal(items: seq<HistoryEntry>, value: HistoryEntry -> int)
    ensures TotalPoints(Chart(items, value)) == DatedTotal(items, value)
  {
    GroupWellFormed(items, value);
    var g := Group(items, value);
    ChartSum(g.keys, g.sums);
    GroupSumTotal(items, value);
  }

  lemma {:induction false} GroupSumTotal(items: seq<HistoryEntry>, value: HistoryEntry -> int)
    ensures WellFormed(Group(items, value))
    ensures SumOver(Group(items, value).keys, Group(items, value).sums) == DatedTotal(items, value)
  {
    GroupWellFormed(items, value);
    if items != [] {
      var init, e := items[..|items| - 1], items[|items| - 1];
      GroupSumTotal(init, value);
      var g := Group(init, value);
      if e.day.Some? {
        var k := e.day.value;
        if k in g.sums {
          SumOverBump(g.keys, g.sums, k, value(e));
        } else {
          SumOverOther(g.keys, g.sums, k, value(e));
          SumOverAppend(g.keys, k, g.sums[k := value(e)]);
        }
      }
    }
  }

  /** `recentLogs`: the newest 30 entries, newest first. */
  function RecentLogs(items: seq<HistoryEntry>): (r: seq<HistoryEntry>)
    ensures |r| == if |items| < 30 then |items| else 30
    ensures forall i :: 0 <= i < |r| ==> r[i] == items[|items| - 1 - i]
  {
    Take(Reverse(items), 30)
  }

  /** A signed decimal: "-" and the digits of the magnitude for a negative number, the digits otherwise. */
  function IntToString(n: int): (s: string)
    ensures n < 0 ==> s == "-" + NatToString(-n)
    ensures n >= 0 ==> s == NatToString(n)
    ensures |s| >= 1 && (s[0] == '-' <==> n < 0)
    ensures n < 0 ==> AllDigits(s[1..]) && DigitsValue(s[1..]) == -n
    ensures n >= 0 ==> AllDigits(s) && DigitsValue(s) == n
  {
    if n < 0 then "-" + NatToString(-n) else NatToString(n)
  }

  /** A log line's amount, as written: `type === 'earn' ? '+' + points : '-' + points`. */
  function AsWrittenLogAmount(e: HistoryEntry): string {
    if e.kind == Earn then "+" + IntToString(e.points) else "-" + IntToString(e.points)
  }

  /** A log line's amount: a sign and the magnitude of the stored points. */
  function LogAmount(e: HistoryEntry): (s: string)
    ensures |s| >= 2 && (s[0] == '+' || s[0] == '-') && AllDigits(s[1..])
    ensures (s[0] == '-' <==> e.points < 0)
    ensures (if s[0] == '-' then -(DigitsValue(s[1..]) as int) else DigitsValue(s[1..]) as int) == e.points
  {
    var mag := if e.points < 0 then -e.points else e.points;
    var s := (if e.points < 0 then "-" else "+") + NatToString(mag);
    assert s[1..] == NatToString(mag);
    s
  }

  /** The stored sign agrees with the kind for the entries the final approval writes: a spend has
      negative points. */
  lemma SettledSpendIsNegative(app: Approval, day: string)
    ensures var e := AdminPanel.SettlementEntry(app, day); e.kind == Spend <==> e.points < 0
  {
  }

  /** As written, a settled purchase counts towards its day with the opposite sign of the balance
      change it made, and its log line shows a doubled minus. */
  lemma AsWrittenPurchaseSign(u: User, day: string)
    ensures var app := Approval("a1", "", "Reward: Ice cream", -50, Pending, "kid", "fam", "\U{1F381}");
      var e := AdminPanel.SettlementEntry(app, day);
      && AdminPanel.Settle(u, app.points).currentBalance - u.currentBalance == -50
      && AsWrittenContribution(e) == 50
      && AsWrittenLogAmount(e) == "--50"
  {
    assert NatToString(50) == "50" by {
      assert NatToString(5) == "5";
    }
    assert IntToString(-50) == "-50";
  }

  /** The corrected rule: every settled entry adds to its day exactly what it did to the balance,
      and its log line reads back as that amount. */
  lemma SettledEntryMatchesBalance(u: User, app: Approval, day: string)
    ensures var e := AdminPanel.SettlementEntry(app, day);
      && Contribution(e) == AdminPanel.Settle(u, app.points).currentBalance - u.currentBalance
      && (LogAmount(e)[0] == '-' <==> e.kind == Spend)
  {
  }
}
