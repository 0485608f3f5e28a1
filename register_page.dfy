/** The registration screen (src/components/Auth/RegisterPage.tsx): the form, the invite
    preload, and the profile `handleRegister` writes. */
module RegisterPage {
  import opened Wrappers
  import opened Text
  import opened Domain
  import App
  import FamilySettings

  /** The form's fields. */
  datatype RegisterForm = RegisterForm(name: string, role: Role, avatar: string, familyCode: string)

  /** The form as it opens: the sign-in name, a child with the baby avatar, no family code. */
  function InitialForm(initialName: string): (f: RegisterForm)
    ensures f == RegisterForm(initialName, Child, ChildAvatar, "")
  {
    RegisterForm(initialName, Child, ChildAvatar, "")
  }

  /** The pending invite preload: a stored code fills the family code and makes the form a child's. */
  function PreloadInvite(f: RegisterForm, pending: Option<string>): (g: RegisterForm)
    ensures pending.Some? && pending.value != "" ==>
      g == f.(familyCode := pending.value, role := Child, avatar := ChildAvatar)
    ensures !(pending.Some? && pending.value != "") ==> g == f
  {
    if pending.Some? && pending.value != "" then f.(familyCode := pending.value, role := Child, avatar := ChildAvatar)
    else f
  }

  /** A role card: the role together with its avatar. */
  function SelectRole(f: RegisterForm, role: Role): (g: RegisterForm)
    requires role != NoRole
    ensures g.role == role && g.name == f.name && g.familyCode == f.familyCode
    ensures role == Child ==> g.avatar == "\U{1F476}"
    ensures role == Parent ==> g.avatar == "\U{1F9D4}"
  {
    f.(role := role, avatar := AvatarFor(role))
  }

  /** The family joined: the trimmed code, or a new family "fam_" + the generated suffix when the
      code is blank. */
  function FamilyIdFor(familyCode: string, suffix: string): (id: string)
    ensures Trim(familyCode) != "" ==> id == Trim(familyCode)
    ensures Trim(familyCode) == "" ==> id == "fam_" + suffix
    ensures id != ""
  {
    if Trim(familyCode) != "" then Trim(familyCode) else "fam_" + suffix
  }

  datatype Outcome = Rejected | Registered(profile: Profile)

  /** `handleRegister`'s decision: a blank name is rejected; otherwise the profile has the sign-in
      uid, the trimmed name, the chosen role and avatar, the family, and no points. */
  function Register(f: RegisterForm, uid: string, suffix: string): (o: Outcome)
    ensures o == Rejected <==> Trim(f.name) == ""
    ensures o.Registered? ==>
      && o.profile.uid == uid
      && o.profile.user == User(Trim(f.name), f.role, f.avatar, FamilyIdFor(f.familyCode, suffix), 0, 0, [])
  {
    if Trim(f.name) == "" then Rejected
    else Registered(Profile(uid, User(Trim(f.name), f.role, f.avatar, FamilyIdFor(f.familyCode, suffix), 0, 0, [])))
  }

  /** `handleRegister`: a rejected form writes nothing; a registered profile replaces the user
      document under the uid. */
  method HandleRegister(db: Store, f: RegisterForm, uid: string, suffix: string) returns (o: Outcome)
    modifies db`users
    ensures o == Register(f, uid, suffix)
    ensures o == Rejected ==> db.users == old(db.users)
    ensures o.Registered? ==> db.users == old(db.users)[uid := o.profile.user]
    ensures LedgerAgrees(old(db.users), db.history) && TotalOf(old(db.users), uid) == 0 ==>
      LedgerAgrees(db.users, db.history)
  {
    o := Register(f, uid, suffix);
    if o.Registered? {
      db.users := db.users[uid := o.profile.user];
    }
  }

  /** The invite flow end to end: a family id that is URL-safe and has no surrounding white space,
      sent as the join link, read back at start-up, preloaded and registered under a non-blank
      name, makes the new user a child of exactly that family, listed among its members. */
  lemma InviteJoinsFamily(origin: string, path: string, familyId: string, initialName: string,
                          uid: string, suffix: string, users: map<string, User>)
    requires '?' !in origin + path && '#' !in origin + path
    requires App.UrlSafe(familyId) && familyId != ""
    requires !IsSpace(familyId[0]) && !IsSpace(familyId[|familyId| - 1])
    requires Trim(initialName) != ""
    ensures var pending := App.PendingAfterLoad(FamilySettings.JoinLink(origin, path, familyId), None);
      var o := Register(PreloadInvite(InitialForm(initialName), pending), uid, suffix);
      && o.Registered?
      && o.profile.user.role == Child
      && o.profile.user.familyId == familyId
      && uid in FamilySettings.FamilyMembers(users[uid := o.profile.user], familyId)
  {
    App.JoinLinkRoundTrip(origin + path, familyId);
    TrimOfUnpadded(familyId);
  }
}
