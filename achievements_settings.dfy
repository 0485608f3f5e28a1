/** The parent's level editor (src/components/Admin/AchievementsSettings.tsx): the label read
    from older documents, the listed levels, and the record `saveItem` writes. */
module AchievementsSettings {
  import opened Wrappers
  import opened Seqs
  import opened Text
  import opened Domain
  import opened Catalogue
  import Achievements

  /** The label shown for a level: label, then the old Russian label, then the old translation key. */
  function LevelCaption(item: CatalogueItem): (s: string)
    ensures item.caption != "" ==> s == item.caption
    ensures item.caption == "" && item.captionRu != "" ==> s == item.captionRu
    ensures item.caption == "" && item.captionRu == "" ==> s == item.translationKey
  {
    FirstNonEmptyOfThree(item.caption, item.captionRu, item.translationKey);
    FirstNonEmpty([item.caption, item.captionRu, item.translationKey])
  }

  function WithLevelCaption(item: CatalogueItem): (r: CatalogueItem)
    ensures r == item.(caption := LevelCaption(item))
  {
    item.(caption := LevelCaption(item))
  }

  /** The listed levels: the title documents with their labels filled in, by ascending threshold. */
  function LevelList(docs: seq<CatalogueItem>): (r: seq<CatalogueItem>)
    ensures SortedByThreshold(r)
    ensures forall x :: x in r <==> (exists d :: d in docs && x == WithLevelCaption(d)) && x.kind == Title
  {
    MapMembers(WithLevelCaption, docs);
    TitleItems(Map(WithLevelCaption, docs))
  }

  /** The editor's fields. */
  datatype LevelForm = LevelForm(caption: string, bonus: string, threshold: int, icon: string)

  const DefaultLevelForm := LevelForm("", "", 100, "\U{1F3C6}")

  /** The record `saveItem` writes: a title under a "title_" id with the form's fields. */
  function SavedLevel(f: LevelForm, stamp: nat): (item: CatalogueItem)
    ensures item.id == "title_" + NatToString(stamp) && item.id == StampedId(Title, stamp)
    ensures item.kind == Title
    ensures item.threshold == f.threshold && item.icon == f.icon && item.caption == f.caption && item.bonus == f.bonus
    ensures item.captionRu == "" && item.captions.None? && item.translationKey == "" && item.description == ""
    ensures item.valueInEuro.None?
  {
    CatalogueItem(StampedId(Title, stamp), f.threshold, f.icon, Title, f.caption, "", None, "", f.bonus, "", None)
  }

  /** The form after a save: label and bonus cleared, threshold and icon kept. */
  function ClearedLevelForm(f: LevelForm): (g: LevelForm)
    ensures g.caption == "" && g.bonus == ""
    ensures g.threshold == f.threshold && g.icon == f.icon
  {
    f.(caption := "", bonus := "")
  }

  /** `saveItem`: an empty label writes nothing; otherwise the level is stored under its id and
      the form is cleared. */
  method SaveItem(db: Store, f: LevelForm, stamp: nat) returns (g: LevelForm)
    requires db.Valid()
    modifies db`catalogue
    ensures db.Valid()
    ensures f.caption == "" ==> db.catalogue == old(db.catalogue) && g == f
    ensures f.caption != "" ==>
      && db.catalogue == old(db.catalogue)[SavedLevel(f, stamp).id := SavedLevel(f, stamp)]
      && g == ClearedLevelForm(f)
  {
    if f.caption == "" { return f; }
    var item := SavedLevel(f, stamp);
    db.catalogue := db.catalogue[item.id := item];
    g := ClearedLevelForm(f);
  }

  /** A saved level reads back unchanged: the editor and the child's card show the typed label,
      and both lists contain it. */
  lemma SavedLevelReadsBack(f: LevelForm, stamp: nat, docs: seq<CatalogueItem>)
    requires f.caption != ""
    ensures var item := SavedLevel(f, stamp);
      && WithLevelCaption(item) == item
      && Achievements.CardCaption(item) == f.caption
      && item in LevelList(docs + [item])
      && item in TitleItems(docs + [item])
  {
    var item := SavedLevel(f, stamp);
    assert item in docs + [item];
  }
}
