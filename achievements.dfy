/** The child's level screen (src/components/Kids/Achievements.tsx): the levels by threshold,
    the unlock guard, activation as a set union on the user document, and each card's status. */
module Achievements {
  import opened Wrappers
  import opened Seqs
  import opened Text
  import opened Domain
  import opened Catalogue

  /** `handleStartHold`'s guard: a level can be activated once the points reach it, and only once. */
  predicate CanActivate(totalPoints: int, item: CatalogueItem, activatedIds: seq<string>) {
    !(totalPoints < item.threshold || item.id in activatedIds)
  }

  /** `arrayUnion(id)`: the id is appended unless it is already present. */
  function ArrayUnion(ids: seq<string>, id: string): (r: seq<string>)
    ensures id in r
    ensures ids <= r
    ensures forall x :: x in r <==> x in ids || x == id
    ensures |r| <= |ids| + 1
  {
    if id in ids then ids else ids + [id]
  }

  /** Activating twice is activating once. */
  lemma ArrayUnionIdempotent(ids: seq<string>, id: string)
    ensures ArrayUnion(ArrayUnion(ids, id), id) == ArrayUnion(ids, id)
  {
  }

  /** The union keeps a list without repeats free of repeats. */
  lemma ArrayUnionDistinct(ids: seq<string>, id: string)
    requires Distinct(ids)
    ensures Distinct(ArrayUnion(ids, id))
  {
  }

  /** A card's state: activated, reached but not activated, or locked. */
  datatype Status = Activated | Reached | Locked

  function StatusOf(totalPoints: int, item: CatalogueItem, activatedIds: seq<string>): (s: Status)
    ensures s == Activated <==> item.id in activatedIds
    ensures s == Reached <==> item.id !in activatedIds && totalPoints >= item.threshold
    ensures s == Locked <==> item.id !in activatedIds && totalPoints < item.threshold
  {
    if item.id in activatedIds then Activated
    else if totalPoints >= item.threshold then Reached
    else Locked
  }

  /** The corner icon: a star when activated, an open lock when reached, a closed lock otherwise. */
  function StatusIcon(s: Status): (icon: string)
    ensures s == Activated ==> icon == "\U{1F31F}"
    ensures s == Reached ==> icon == "\U{1F513}"
    ensures s == Locked ==> icon == "\U{1F512}"
  {
    match s
    case Activated => "\U{1F31F}"
    case Reached => "\U{1F513}"
    case Locked => "\U{1F512}"
  }

  /** Exactly the reached, not yet activated cards can be held. */
  lemma GuardMatchesStatus(totalPoints: int, item: CatalogueItem, activatedIds: seq<string>)
    ensures CanActivate(totalPoints, item, activatedIds) <==> StatusOf(totalPoints, item, activatedIds) == Reached
  {
  }

  /** The card's title: its label, or its id when the label is empty. */
  function CardCaption(item: CatalogueItem): (s: string)
    ensures item.caption != "" ==> s == item.caption
    ensures item.caption == "" ==> s == item.id
  {
    if item.caption != "" then item.caption else item.id
  }

  /** The points still missing to reach a level. */
  function Needed(totalPoints: int, item: CatalogueItem): (n: int)
    ensures totalPoints < item.threshold ==> n > 0
    ensures totalPoints + n == item.threshold
  {
    item.threshold - totalPoints
  }

  /** The bonus line of a card with a bonus: the bonus once activated, the hold hint once
      reached, otherwise the missing points. */
  function BonusLine(totalPoints: int, item: CatalogueItem, activatedIds: seq<string>, holdHint: string, neededWord: string): (line: Option<string>)
    ensures item.bonus == "" <==> line.None?
    ensures line.Some? && StatusOf(totalPoints, item, activatedIds) == Activated ==> line.value == "\U{1F381} " + item.bonus
    ensures line.Some? && StatusOf(totalPoints, item, activatedIds) == Reached ==> line.value == "\U{1F381} " + holdHint
    ensures line.Some? && StatusOf(totalPoints, item, activatedIds) == Locked ==>
      line.value == "\U{1F381} " + neededWord + " " + NatToString(Needed(totalPoints, item)) + " XP"
  {
    if item.bonus == "" then None
    else
      match StatusOf(totalPoints, item, activatedIds)
      case Activated => Some("\U{1F381} " + item.bonus)
      case Reached => Some("\U{1F381} " + holdHint)
      case Locked => Some("\U{1F381} " + neededWord + " " + NatToString(Needed(totalPoints, item)) + " XP")
  }

  /** The screen's state: the levels shown, the user's activated ids as last read, and the card held. */
  class AchievementsView {
    var items: seq<CatalogueItem>
    var activatedIds: seq<string>
    var holdId: Option<string>

    constructor ()
      ensures items == [] && activatedIds == [] && holdId == None
    {
      items, activatedIds, holdId := [], [], None;
    }

    /** The catalogue subscription: the title items by threshold. */
    method OnCatalogueSnapshot(docs: seq<CatalogueItem>)
      modifies this`items
      ensures items == TitleItems(docs)
    {
      items := TitleItems(docs);
    }

    /** The user subscription: the activated list of an existing user document; a missing
        document leaves the list as it was. */
    method OnUserSnapshot(users: map<string, User>, userId: string)
      modifies this`activatedIds
      ensures userId in users ==> activatedIds == users[userId].activatedAchievements
      ensures userId !in users ==> activatedIds == old(activatedIds)
    {
      if userId in users {
        activatedIds := users[userId].activatedAchievements;
      }
    }

    /** `handleStartHold`: refused below the threshold or when already activated. */
    method StartHold(item: CatalogueItem, totalPoints: int)
      modifies this`holdId
      ensures CanActivate(totalPoints, item, activatedIds) ==> holdId == Some(item.id)
      ensures !CanActivate(totalPoints, item, activatedIds) ==> holdId == old(holdId)
    {
      if totalPoints < item.threshold || item.id in activatedIds { return; }
      holdId := Some(item.id);
    }

    /** `handleStopHold`. */
    method StopHold()
      modifies this`holdId
      ensures holdId == None
    {
      holdId := None;
    }

    /** The end of a completed hold: the id is added to the user's activated list, then the hold
        ends; the update fails on a missing user document and nothing else happens. */
    method HoldElapsed(db: Store, userId: string, item: CatalogueItem)
      modifies db`users, this`holdId
      ensures userId in old(db.users) ==>
        && db.users == old(db.users)[userId := old(db.users)[userId].(activatedAchievements :=
             ArrayUnion(old(db.users)[userId].activatedAchievements, item.id))]
        && holdId == None
      ensures userId !in old(db.users) ==> db.users == old(db.users) && holdId == old(holdId)
      ensures LedgerAgrees(old(db.users), db.history) ==> LedgerAgrees(db.users, db.history)
    {
      if userId !in db.users { return; }
      var u := db.users[userId];
      db.users := db.users[userId := u.(activatedAchievements := ArrayUnion(u.activatedAchievements, item.id))];
      holdId := None;
    }
  }

  /** Activation touches only the activated list: the points stay, no id is removed, and the
      level shows as activated and can no longer be held. */
  lemma ActivationKeepsRest(u: User, item: CatalogueItem)
    ensures var v := u.(activatedAchievements := ArrayUnion(u.activatedAchievements, item.id));
      && v.totalPoints == u.totalPoints && v.currentBalance == u.currentBalance
      && (forall x :: x in u.activatedAchievements ==> x in v.activatedAchievements)
      && StatusOf(v.totalPoints, item, v.activatedAchievements) == Activated
      && !CanActivate(v.totalPoints, item, v.activatedAchievements)
  {
  }
}
