/** The child's shop (src/components/Kids/Shop.tsx): rewards and exchanges by price, the name
    shown for an item, the affordability guard, and the purchase request a completed hold files. */
module Shop {
  import opened Wrappers
  import opened Seqs
  import opened Text
  import opened Domain
  import opened Catalogue
  import AdminPanel

  /** `getItemName`: label, then the old Russian label, then the translations for the current
      language and for Russian; a dash when there are no translations. With translations but
      neither language, there is no name (`undefined`). */
  function ItemName(item: CatalogueItem, lang: string): (r: Option<string>)
    ensures item.caption != "" ==> r == Some(item.caption)
    ensures item.caption == "" && item.captionRu != "" ==> r == Some(item.captionRu)
    ensures item.caption == "" && item.captionRu == "" && item.captions.None? ==> r == Some("—")
    ensures item.caption == "" && item.captionRu == "" && item.captions.Some? ==>
      var m := item.captions.value;
      && (lang in m && m[lang] != "" ==> r == Some(m[lang]))
      && (!(lang in m && m[lang] != "") ==> r == (if "ru" in m then Some(m["ru"]) else None))
    ensures r.None? ==> item.captions.Some? && "ru" !in item.captions.value
  {
    if item.caption != "" then Some(item.caption)
    else if item.captionRu != "" then Some(item.captionRu)
    else if item.captions.None? then Some("—")
    else
      var m := item.captions.value;
      if lang in m && m[lang] != "" then Some(m[lang])
      else if "ru" in m then Some(m["ru"])
      else None
  }

  /** A name as a template string writes it: a missing name becomes "undefined". */
  function NameInTemplate(name: Option<string>): (s: string)
    ensures name.Some? ==> s == name.value
    ensures name.None? ==> s == "undefined"
  {
    if name.Some? then name.value else "undefined"
  }

  /** `canAfford`: the balance covers the price. */
  predicate CanAfford(balance: int, item: CatalogueItem) {
    balance >= item.threshold
  }

  /** What pressing a card does: too expensive shakes the card with an error, otherwise the hold
      begins. */
  datatype Press = ShowError(errorId: string) | Holding(holdId: string)

  function StartHold(balance: int, item: CatalogueItem): (p: Press)
    ensures p.ShowError? <==> !CanAfford(balance, item)
    ensures p.ShowError? ==> p.errorId == item.id
    ensures p.Holding? ==> p.holdId == item.id
  {
    if balance < item.threshold then ShowError(item.id) else Holding(item.id)
  }

  /** The request a completed hold files: pending, for the user, at minus the price, named
      "<reward word>: <item name>", with the item's icon and no linked task. */
  function PurchaseRequest(id: string, userId: string, item: CatalogueItem, lang: string, typeReward: string): (a: Approval)
    ensures a.id == id && a.userId == userId && a.status == Pending
    ensures a.points == -item.threshold
    ensures a.caption == typeReward + ": " + NameInTemplate(ItemName(item, lang))
    ensures a.icon == item.icon && a.taskId == "" && a.familyId == ""
  {
    Approval(id, "", typeReward + ": " + NameInTemplate(ItemName(item, lang)), -item.threshold, Pending, userId, "", item.icon)
  }

  /** The end of a hold: exactly one request is added under the fresh id, nothing else changes. */
  method CompletePurchase(db: Store, newId: string, userId: string, item: CatalogueItem, lang: string, typeReward: string)
    requires db.Valid() && newId !in db.approvals
    modifies db`approvals
    ensures db.Valid()
    ensures db.approvals == old(db.approvals)[newId := PurchaseRequest(newId, userId, item, lang, typeReward)]
  {
    db.approvals := db.approvals[newId := PurchaseRequest(newId, userId, item, lang, typeReward)];
  }

  /** Once approved, a purchase of a priced item is a spend: it lowers the balance by the price,
      leaves the total untouched, and is logged as a spend of minus the price. */
  lemma PurchaseSettles(u: User, id: string, userId: string, item: CatalogueItem, lang: string, typeReward: string, day: string)
    requires item.threshold > 0
    ensures var a := PurchaseRequest(id, userId, item, lang, typeReward);
      && AdminPanel.IsPurchase(a)
      && AdminPanel.Settle(u, a.points).currentBalance == u.currentBalance - item.threshold
      && AdminPanel.Settle(u, a.points).totalPoints == u.totalPoints
      && AdminPanel.SettlementEntry(a, day).kind == Spend
      && AdminPanel.SettlementEntry(a, day).points == -item.threshold
  {
  }

  /** A purchase the guard let through and that is settled against the balance the guard saw
      leaves that balance non-negative. */
  lemma AffordableLeavesNoDebt(u: User, id: string, item: CatalogueItem, lang: string, typeReward: string)
    requires StartHold(u.currentBalance, item).Holding?
    requires item.threshold >= 0
    ensures AdminPanel.Settle(u, PurchaseRequest(id, "", item, lang, typeReward).points).currentBalance >= 0
  {
  }
}
