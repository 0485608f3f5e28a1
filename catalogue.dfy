/** The catalogue (`achievements_list`) as the screens read it: filtered by item type and sorted
    by ascending threshold with the stable `sort((a, b) => a.threshold - b.threshold)`. */
module Catalogue {
  import opened Wrappers
  import opened Seqs
  import opened Text
  import opened Domain

  /** An item type as it is stored. */
  function KindName(k: ItemType): (s: string)
    ensures s != ""
  {
    match k
    case Title => "title"
    case Reward => "reward"
    case Exchange => "exchange"
  }

  /** Distinct types are stored under distinct names. */
  lemma KindNameInjective(a: ItemType, b: ItemType)
    ensures KindName(a) == KindName(b) ==> a == b
  {
  }

  /** The id a settings screen gives a new item: its type, '_' and the save time in milliseconds. */
  function StampedId(k: ItemType, stamp: nat): (id: string)
    ensures id == KindName(k) + "_" + NatToString(stamp)
  {
    KindName(k) + "_" + NatToString(stamp)
  }

  /** Saves of different types or at different milliseconds never share an id, so a save never
      overwrites another item saved by either settings screen. */
  lemma StampedIdInjective(a: ItemType, x: nat, b: ItemType, y: nat)
    requires StampedId(a, x) == StampedId(b, y)
    ensures a == b && x == y
  {
    var s := StampedId(a, x);
    assert s[0] == KindName(a)[0] && s[0] == KindName(b)[0];
    var n := |KindName(a) + "_"|;
    assert s[n..] == NatToString(x);
    assert s[n..] == NatToString(y);
  }

  predicate SortedByThreshold(s: seq<CatalogueItem>) {
    forall i, j :: 0 <= i < j < |s| ==> s[i].threshold <= s[j].threshold
  }

  /** Places an item in a sorted list before the first item whose threshold is not smaller. */
  function Insert(x: CatalogueItem, s: seq<CatalogueItem>): (r: seq<CatalogueItem>)
    ensures multiset(r) == multiset(s) + multiset{x}
    ensures forall y :: y in r ==> y == x || y in s
    ensures SortedByThreshold(s) ==> SortedByThreshold(r)
  {
    if s == [] || x.threshold <= s[0].threshold then [x] + s
    else
      var rest := Insert(x, s[1..]);
      assert s == [s[0]] + s[1..];
      if SortedByThreshold(s) then
        InsertBehindHead(x, s, rest);
        [s[0]] + rest
      else [s[0]] + rest
  }

  /** Behind a smaller head, the insertion into the tail stays sorted. */
  lemma InsertBehindHead(x: CatalogueItem, s: seq<CatalogueItem>, rest: seq<CatalogueItem>)
    requires s != [] && SortedByThreshold(s) && s[0].threshold < x.threshold
    requires SortedByThreshold(rest)
    requires forall y :: y in rest ==> y == x || y in s[1..]
    ensures SortedByThreshold([s[0]] + rest)
  {
    forall y | y in rest ensures s[0].threshold <= y.threshold {
      if y != x {
        var k :| 0 <= k < |s[1..]| && s[1..][k] == y;
        assert s[k + 1] == y;
      }
    }
    LeadingMinimum(s[0], rest);
  }

  lemma LeadingMinimum(x: CatalogueItem, s: seq<CatalogueItem>)
    requires SortedByThreshold(s)
    requires forall y :: y in s ==> x.threshold <= y.threshold
    ensures SortedByThreshold([x] + s)
  {
    forall i, j | 0 <= i < j < |[x] + s| ensures ([x] + s)[i].threshold <= ([x] + s)[j].threshold {
      if i > 0 {
        assert ([x] + s)[i] == s[i - 1] && ([x] + s)[j] == s[j - 1];
      } else {
        assert ([x] + s)[j] == s[j - 1] && s[j - 1] in s;
      }
    }
  }

  /** The sort: an insertion sort, which is stable like the array sort it models. */
  function SortByThreshold(s: seq<CatalogueItem>): (r: seq<CatalogueItem>)
    ensures SortedByThreshold(r)
    ensures multiset(r) == multiset(s)
    ensures |r| == |s|
  {
    if s == [] then []
    else
      assert s == [s[0]] + s[1..];
      var r := Insert(s[0], SortByThreshold(s[1..]));
      assert |r| == |multiset(r)|;
      r
  }

  function ThresholdIs(v: int): CatalogueItem -> bool {
    (i: CatalogueItem) => i.threshold == v
  }

  /** Inserting adds the item to its threshold's run without reordering that run. */
  lemma {:induction false} InsertStable(x: CatalogueItem, s: seq<CatalogueItem>, v: int)
    ensures Filter(ThresholdIs(v), Insert(x, s)) == (if x.threshold == v then [x] else []) + Filter(ThresholdIs(v), s)
  {
    if s == [] || x.threshold <= s[0].threshold {
      FilterCons(ThresholdIs(v), x, s);
    } else {
      var rest := Insert(x, s[1..]);
      assert Insert(x, s) == [s[0]] + rest;
      assert s == [s[0]] + s[1..];
      InsertStable(x, s[1..], v);
      // the head's threshold is below x's, so the head is never in x's run
      FilterPrepend(ThresholdIs(v), s[0], rest, s[1..], if x.threshold == v then [x] else []);
    }
  }

  /** Stability: the items of any one threshold keep their original order. */
  lemma {:induction false} SortStable(s: seq<CatalogueItem>, v: int)
    ensures Filter(ThresholdIs(v), SortByThreshold(s)) == Filter(ThresholdIs(v), s)
  {
    if s != [] {
      assert s == [s[0]] + s[1..];
      SortStable(s[1..], v);
      InsertStable(s[0], SortByThreshold(s[1..]), v);
      FilterCons(ThresholdIs(v), s[0], s[1..]);
    }
  }

  predicate IsTitle(item: CatalogueItem) {
    item.kind == Title
  }

  predicate IsShopItem(item: CatalogueItem) {
    item.kind == Reward || item.kind == Exchange
  }

  /** The achievement list: exactly the 'title' items, by ascending threshold. */
  function TitleItems(items: seq<CatalogueItem>): (r: seq<CatalogueItem>)
    ensures SortedByThreshold(r)
    ensures multiset(r) == multiset(Filter(IsTitle, items))
    ensures forall x :: x in r <==> x in items && x.kind == Title
  {
    var r := SortByThreshold(Filter(IsTitle, items));
    assert forall x :: x in r <==> x in multiset(r);
    r
  }

  /** The shop list: exactly the 'reward' and 'exchange' items, by ascending threshold. */
  function ShopItems(items: seq<CatalogueItem>): (r: seq<CatalogueItem>)
    ensures SortedByThreshold(r)
    ensures multiset(r) == multiset(Filter(IsShopItem, items))
    ensures forall x :: x in r <==> x in items && (x.kind == Reward || x.kind == Exchange)
  {
    var r := SortByThreshold(Filter(IsShopItem, items));
    assert forall x :: x in r <==> x in multiset(r);
    r
  }

  /** A settings screen's delete button: with confirmation the item is removed, nothing else changes. */
  method DeleteItem(db: Store, id: string, confirmed: bool)
    requires db.Valid()
    modifies db`catalogue
    ensures db.Valid()
    ensures confirmed ==> db.catalogue == old(db.catalogue) - {id}
    ensures !confirmed ==> db.catalogue == old(db.catalogue)
  {
    if confirmed {
      db.catalogue := db.catalogue - {id};
    }
  }
}
