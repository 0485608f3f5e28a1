/** The parent's shop editor (src/components/Admin/ShopSettings.tsx): the label read from older
    documents, the listed items, and the record `saveItem` writes. */
module ShopSettings {
  import opened Wrappers
  import opened Seqs
  import opened Text
  import opened Domain
  import opened Catalogue
  import Shop

  /** `labels?.ru`, "" when absent. */
  function RuTranslation(item: CatalogueItem): string {
    if item.captions.Some? && "ru" in item.captions.value then item.captions.value["ru"] else ""
  }

  /** The label shown for a document: label, then its Russian translation, then the old Russian label. */
  function SettingsCaption(item: CatalogueItem): (s: string)
    ensures item.caption != "" ==> s == item.caption
    ensures item.caption == "" && RuTranslation(item) != "" ==> s == RuTranslation(item)
    ensures item.caption == "" && RuTranslation(item) == "" ==> s == item.captionRu
  {
    FirstNonEmptyOfThree(item.caption, RuTranslation(item), item.captionRu);
    FirstNonEmpty([item.caption, RuTranslation(item), item.captionRu])
  }

  function WithSettingsCaption(item: CatalogueItem): (r: CatalogueItem)
    ensures r == item.(caption := SettingsCaption(item))
  {
    item.(caption := SettingsCaption(item))
  }

  /** The listed items: the reward and exchange documents with their labels filled in, by
      ascending threshold. */
  function SettingsList(docs: seq<CatalogueItem>): (r: seq<CatalogueItem>)
    ensures SortedByThreshold(r)
    ensures forall x :: x in r <==> (exists d :: d in docs && x == WithSettingsCaption(d)) && IsShopItem(x)
  {
    MapMembers(WithSettingsCaption, docs);
    ShopItems(Map(WithSettingsCaption, docs))
  }

  /** The editor's fields. */
  datatype ShopForm = ShopForm(caption: string, description: string, threshold: int, icon: string, isExchange: bool, euroValue: int)

  const DefaultShopForm := ShopForm("", "", 50, "\U{1F381}", false, 0)

  function FormKind(f: ShopForm): (k: ItemType)
    ensures k == Exchange <==> f.isExchange
    ensures k != Title
  {
    if f.isExchange then Exchange else Reward
  }

  /** The record `saveItem` writes: the form's fields under a stamped id, with a euro value
      exactly for an exchange. */
  function SavedShopItem(f: ShopForm, stamp: nat): (item: CatalogueItem)
    ensures item.id == StampedId(FormKind(f), stamp)
    ensures item.kind == FormKind(f) && IsShopItem(item)
    ensures item.threshold == f.threshold && item.icon == f.icon
    ensures item.caption == f.caption && item.description == f.description
    ensures item.valueInEuro.Some? <==> f.isExchange
    ensures item.valueInEuro.Some? ==> item.valueInEuro.value == f.euroValue
    ensures item.captionRu == "" && item.captions.None? && item.translationKey == "" && item.bonus == ""
  {
    CatalogueItem(StampedId(FormKind(f), stamp), f.threshold, f.icon, FormKind(f), f.caption, "", None, "", "",
                  f.description, if f.isExchange then Some(f.euroValue) else None)
  }

  /** The form after a save: label, description and euro value cleared, the rest kept. */
  function ClearedShopForm(f: ShopForm): (g: ShopForm)
    ensures g.caption == "" && g.description == "" && g.euroValue == 0
    ensures g.threshold == f.threshold && g.icon == f.icon && g.isExchange == f.isExchange
  {
    f.(caption := "", description := "", euroValue := 0)
  }

  /** `saveItem`: an empty label writes nothing; otherwise the record is stored under its id and
      the form is cleared. */
  method SaveItem(db: Store, f: ShopForm, stamp: nat) returns (g: ShopForm)
    requires db.Valid()
    modifies db`catalogue
    ensures db.Valid()
    ensures f.caption == "" ==> db.catalogue == old(db.catalogue) && g == f
    ensures f.caption != "" ==>
      && db.catalogue == old(db.catalogue)[SavedShopItem(f, stamp).id := SavedShopItem(f, stamp)]
      && g == ClearedShopForm(f)
  {
    if f.caption == "" { return f; }
    var item := SavedShopItem(f, stamp);
    db.catalogue := db.catalogue[item.id := item];
    g := ClearedShopForm(f);
  }

  /** A saved item reads back unchanged: the editor shows the label that was typed, the shop
      names it by that label whatever the language, and it is listed. */
  lemma SavedItemReadsBack(f: ShopForm, stamp: nat, docs: seq<CatalogueItem>, lang: string)
    requires f.caption != ""
    ensures var item := SavedShopItem(f, stamp);
      && WithSettingsCaption(item) == item
      && Shop.ItemName(item, lang) == Some(f.caption)
      && item in SettingsList(docs + [item])
  {
    var item := SavedShopItem(f, stamp);
    assert item in docs + [item];
  }
}
