/** The parent's family screen (src/components/Admin/FamilySettings.tsx): the invite link, the
    member list, adding a member under a name-derived id, renaming, and removal. */
module FamilySettings {
  import opened Wrappers
  import opened Text
  import opened Domain

  /** A role as it is stored. */
  function RoleName(role: Role): (s: string)
    requires role != NoRole
    ensures role == Child ==> s == "child"
    ensures role == Parent ==> s == "parent"
  {
    if role == Child then "child" else "parent"
  }

  /** The invite link: the page's origin and path with the family id as the `join` parameter. */
  function JoinLink(origin: string, path: string, familyId: string): (link: string)
    ensures link == origin + path + "?join=" + familyId
  {
    origin + path + "?join=" + familyId
  }

  /** The member subscription: the users of the family. */
  function FamilyMembers(users: map<string, User>, familyId: string): (r: map<string, User>)
    ensures forall k :: k in r <==> k in users && users[k].familyId == familyId
    ensures forall k :: k in r ==> r[k] == users[k]
  {
    map k | k in users && users[k].familyId == familyId :: users[k]
  }

  /** The document id of a manually added member: role, '_', then the name lowercased, trimmed,
      and with every run of white space replaced by one '_'. */
  function MemberId(role: Role, name: string): (id: string)
    requires role != NoRole
    ensures id == RoleName(role) + "_" + CollapseSpaces(Trim(ToLower(name)))
  {
    RoleName(role) + "_" + CollapseSpaces(Trim(ToLower(name)))
  }

  /** The id holds no white space, and the part after the role prefix is never longer than the name. */
  lemma MemberIdShape(role: Role, name: string)
    requires role != NoRole
    ensures var id := MemberId(role, name);
      && NoSpace(id)
      && |id| <= |RoleName(role)| + 1 + |name|
  {
    var prefix := RoleName(role) + "_";
    var slug := CollapseSpaces(Trim(ToLower(name)));
    RolePrefixNoSpace(role);
    NoSpaceAppend(prefix, slug);
  }

  lemma RolePrefixNoSpace(role: Role)
    requires role != NoRole
    ensures NoSpace(RoleName(role) + "_")
  {
    if role == Child { assert RoleName(role) + "_" == "child_"; } else { assert RoleName(role) + "_" == "parent_"; }
  }

  /** Members of different roles never share an id, whatever their names. */
  lemma MemberIdRolesDiffer(name1: string, name2: string)
    ensures MemberId(Child, name1) != MemberId(Parent, name2)
  {
    assert MemberId(Child, name1)[0] == 'c';
    assert MemberId(Parent, name2)[0] == 'p';
  }

  /** A name of lowercase letters alone is kept as it is. */
  lemma MemberIdOfPlainName(role: Role, name: string)
    requires role != NoRole
    requires forall i :: 0 <= i < |name| ==> 'a' <= name[i] <= 'z'
    ensures MemberId(role, name) == RoleName(role) + "_" + name
  {
    assert ToLower(name) == name;
    assert NoSpace(name);
    if name != "" {
      assert !IsSpace(name[0]) && !IsSpace(name[|name| - 1]);
    }
    TrimOfUnpadded(name);
  }

  /** A name blank after trimming. */
  predicate IsBlank(name: string) {
    Trim(name) == ""
  }

  /** The new member's document: the trimmed name, role, avatar and family, with no points. */
  function NewMember(name: string, role: Role, avatar: string, familyId: string): (u: User)
    ensures u.name == Trim(name) && u.role == role && u.avatar == avatar && u.familyId == familyId
    ensures u.totalPoints == 0 && u.currentBalance == 0 && u.activatedAchievements == []
  {
    User(Trim(name), role, avatar, familyId, 0, 0, [])
  }

  /** `addMember`: a blank name writes nothing; otherwise the member document is (re)written under
      its id and the name field is cleared. */
  method AddMember(db: Store, name: string, role: Role, avatar: string, familyId: string) returns (nameField: string)
    requires role != NoRole
    modifies db`users
    ensures IsBlank(name) ==> db.users == old(db.users) && nameField == name
    ensures !IsBlank(name) ==>
      && db.users == old(db.users)[MemberId(role, name) := NewMember(name, role, avatar, familyId)]
      && nameField == ""
    ensures LedgerAgrees(old(db.users), db.history) && TotalOf(old(db.users), MemberId(role, name)) == 0 ==>
      LedgerAgrees(db.users, db.history)
  {
    if Trim(name) == "" { return name; }
    db.users := db.users[MemberId(role, name) := NewMember(name, role, avatar, familyId)];
    nameField := "";
  }

  /** `updateMember`: the member's name and avatar change and nothing else; on a missing document
      the update fails, nothing changes and the row stays in edit mode. */
  method UpdateMember(db: Store, id: string, newName: string, newAvatar: string) returns (editClosed: bool)
    modifies db`users
    ensures editClosed <==> id in old(db.users)
    ensures id in old(db.users) ==> db.users == old(db.users)[id := old(db.users)[id].(name := newName, avatar := newAvatar)]
    ensures id !in old(db.users) ==> db.users == old(db.users)
    ensures LedgerAgrees(old(db.users), db.history) ==> LedgerAgrees(db.users, db.history)
  {
    if id !in db.users { return false; }
    db.users := db.users[id := db.users[id].(name := newName, avatar := newAvatar)];
    editClosed := true;
  }

  /** `deleteMember` (and the document part of `deleteMyAccount`): with confirmation the member
      document is removed. */
  method DeleteMember(db: Store, id: string, confirmed: bool)
    modifies db`users
    ensures confirmed ==> db.users == old(db.users) - {id}
    ensures !confirmed ==> db.users == old(db.users)
    ensures LedgerAgrees(old(db.users), db.history) && TotalOf(old(db.users), id) == 0 ==>
      LedgerAgrees(db.users, db.history)
  {
    if confirmed {
      db.users := db.users - {id};
    }
  }

  /** The add form. */
  datatype MemberForm = MemberForm(name: string, role: Role, avatar: string)

  const DefaultMemberForm := MemberForm("", Child, ChildAvatar)

  /** Choosing a role also chooses its avatar. */
  function ChooseRole(f: MemberForm, role: Role): (g: MemberForm)
    requires role != NoRole
    ensures g.role == role && g.name == f.name
    ensures role == Child ==> g.avatar == "\U{1F476}"
    ensures role == Parent ==> g.avatar == "\U{1F9D4}"
  {
    f.(role := role, avatar := AvatarFor(role))
  }
}
