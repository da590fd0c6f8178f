/** The client session context (contexts/AuthContext.tsx): the current user,
    the current profile and the browser store they are mirrored into. The
    operations never talk to the server; they are transitions of this state.
    `now` is the clock reading (`Date.now()` / `new Date()`). */
module AuthContext {
  import opened Common
  import opened Json
  import opened BrowserStorage

  /** The provider's state: the `user` and `profile` hooks and `localStorage`. */
  datatype Session = Session(user: Option<User>, profile: Option<Document>, storage: Store)

  /** The sign-up form. The password is accepted and never stored. */
  datatype SignUpData = SignUpData(email: string, password: string, firstName: string, lastName: string)

  /** The user `signIn` falls back to when no registered user has the email. */
  function DemoUser(email: string, now: int): (u: User)
    ensures u.id == "1" && u.email == email
    ensures u.profileCompleted && u.registrationStep == 8
  {
    User("1", email, "John", "Doe", true, 8, now, now)
  }

  function HasEmail(email: string): User -> bool {
    (u: User) => u.email == email
  }

  function HasId(id: string): User -> bool {
    (u: User) => u.id == id
  }

  /** The user `signIn` selects: the first registered user with the email,
      otherwise the demo user. */
  function SignInUser(users: seq<User>, email: string, now: int): (u: User)
    ensures (exists i :: 0 <= i < |users| && users[i].email == email) ==>
      exists i :: 0 <= i < |users| && users[i] == u && u.email == email &&
        forall j :: 0 <= j < i ==> users[j].email != email
    ensures (forall i :: 0 <= i < |users| ==> users[i].email != email) ==> u == DemoUser(email, now)
    ensures u.email == email
  {
    match FirstIndex(users, HasEmail(email))
    case Some(i) => users[i]
    case None => DemoUser(email, now)
  }

  /** `signIn(email, password)`: the password plays no part. The chosen user
      becomes current and is written under `user`; the stored profile of that
      user, when there is one, replaces the current profile. */
  function SignIn(s: Session, email: string, password: string, now: int): (s': Session)
    ensures s'.user == Some(SignInUser(StoredUsers(s.storage), email, now))
    ensures s'.storage == s.storage[UserKey := UserItem(s'.user.value)]
    ensures StoredProfile(s.storage, s'.user.value.id).Some? ==>
      s'.profile == StoredProfile(s.storage, s'.user.value.id)
    ensures StoredProfile(s.storage, s'.user.value.id).None? ==> s'.profile == s.profile
  {
    var u := SignInUser(StoredUsers(s.storage), email, now);
    var st := s.storage[UserKey := UserItem(u)];
    ProfileKeysDistinct(u.id, u.id);
    var saved := StoredProfile(st, u.id);
    Session(Some(u), if saved.Some? then saved else s.profile, st)
  }

  /** `signUp(data)`: a fresh user (id `Date.now().toString()`, step 0, profile
      not completed) becomes current and is appended to `registeredUsers`,
      whether or not its email is already there. */
  function SignUp(s: Session, data: SignUpData, now: nat): (s': Session)
    ensures s'.user.Some?
    ensures var u := s'.user.value;
      && u.id == NatToString(now)
      && u.email == data.email && u.firstName == data.firstName && u.lastName == data.lastName
      && !u.profileCompleted && u.registrationStep == 0
    ensures StoredUsers(s'.storage) == StoredUsers(s.storage) + [s'.user.value]
    ensures UserKey in s'.storage && s'.storage[UserKey] == UserItem(s'.user.value)
    ensures SameExcept(s.storage, s'.storage, {UserKey, RegisteredUsersKey})
    ensures s'.profile == s.profile
  {
    var u := User(NatToString(now), data.email, data.firstName, data.lastName, false, 0, now, now);
    var st := s.storage[UserKey := UserItem(u)];
    var users := StoredUsers(st) + [u];
    Session(Some(u), s.profile, st[RegisteredUsersKey := UserListItem(users)])
  }

  /** `signOut()`: no current user or profile; only `user` and `profile` are
      removed from the store. */
  function SignOut(s: Session): (s': Session)
    ensures s'.user.None? && s'.profile.None?
    ensures UserKey !in s'.storage && ProfileKey !in s'.storage
    ensures SameExcept(s.storage, s'.storage, {UserKey, ProfileKey})
  {
    Session(None, None, s.storage - {UserKey, ProfileKey})
  }

  /** `profileData.firstName || user.firstName` for a string-valued field. */
  function NameOr(data: Document, k: string, current: string): (name: string)
    ensures Truthy(Field(data, k)) && data[k].Str? ==> name == data[k].s
    ensures !Truthy(Field(data, k)) ==> name == current
  {
    if k in data && data[k].Str? && data[k].s != "" then data[k].s else current
  }

  /** The merge as the source writes it,
      `{userId: user.id, ...profile, ...profileData, updatedAt, createdAt}`:
      `userId` comes first, so a `userId` already in the current profile (or
      in the data) overrides the current user's id. */
  function MergedProfileAsWritten(u: User, profile: Option<Document>, data: Document, now: int): (p: Document)
    ensures p.Keys == {"userId", "updatedAt", "createdAt"} + profile.OrElse(map[]).Keys + data.Keys
    ensures forall k :: k in data && k != "updatedAt" && k != "createdAt" ==> p[k] == data[k]
    ensures forall k :: profile.Some? && k in profile.value && k !in data && k != "updatedAt" && k != "createdAt" ==>
      p[k] == profile.value[k]
    ensures "userId" !in data && (profile.None? || "userId" !in profile.value) ==> p["userId"] == Str(u.id)
    ensures p["updatedAt"] == Time(now)
    ensures profile.Some? && Truthy(Field(profile.value, "createdAt")) ==> p["createdAt"] == profile.value["createdAt"]
    ensures profile.None? || !Truthy(Field(profile.value, "createdAt")) ==> p["createdAt"] == Time(now)
  {
    var created := if profile.Some? then Or(Field(profile.value, "createdAt"), Time(now)) else Time(now);
    map["userId" := Str(u.id)] + profile.OrElse(map[]) + data + map["updatedAt" := Time(now)] + map["createdAt" := created]
  }

  /** The merged profile `updateProfile` evidently means to store under the
      current user's key: the same merge, with `userId` always the current
      user's id. */
  function MergedProfile(u: User, profile: Option<Document>, data: Document, now: int): (p: Document)
    ensures p.Keys == {"userId", "updatedAt", "createdAt"} + profile.OrElse(map[]).Keys + data.Keys
    ensures p["userId"] == Str(u.id)
    ensures forall k :: k in data && k !in {"userId", "updatedAt", "createdAt"} ==> p[k] == data[k]
    ensures forall k :: profile.Some? && k in profile.value && k !in data && k !in {"userId", "updatedAt", "createdAt"} ==>
      p[k] == profile.value[k]
    ensures p["updatedAt"] == Time(now)
    ensures profile.Some? && Truthy(Field(profile.value, "createdAt")) ==> p["createdAt"] == profile.value["createdAt"]
    ensures profile.None? || !Truthy(Field(profile.value, "createdAt")) ==> p["createdAt"] == Time(now)
  {
    MergedProfileAsWritten(u, profile, data, now)["userId" := Str(u.id)]
  }

  /** The registry after `users[findIndex(u => u.id === id)] = updated`. */
  function ReplaceFirstById(users: seq<User>, updated: User): (r: seq<User>)
    ensures |r| == |users|
    ensures (forall i :: 0 <= i < |users| ==> users[i].id != updated.id) ==> r == users
    ensures (exists i :: 0 <= i < |users| && users[i].id == updated.id) ==>
      exists i :: 0 <= i < |users| && users[i].id == updated.id &&
        (forall j :: 0 <= j < i ==> users[j].id != updated.id) &&
        r == users[i := updated]
  {
    match FirstIndex(users, HasId(updated.id))
    case Some(i) => users[i := updated]
    case None => users
  }

  /** `updateProfile(profileData)`: nothing happens without a current user.
      Otherwise the profile is merged as the source writes it and stored under
      `profile_<id>`, the user is marked complete at step 8 (keeping a name
      unless a non-empty one is supplied) and stored under `user`, and the
      first registry entry with the same id, if any, is replaced by the
      updated user. */
  function UpdateProfile(s: Session, data: Document, now: int): (s': Session)
    ensures s.user.None? ==> s' == s
    ensures s.user.Some? ==> s'.user.Some?
    ensures s.user.Some? && s'.user.Some? ==> var u, u' := s.user.value, s'.user.value;
      && u'.id == u.id && u'.email == u.email && u'.createdAt == u.createdAt
      && u'.profileCompleted && u'.registrationStep == 8 && u'.updatedAt == now
      && u'.firstName == NameOr(data, "firstName", u.firstName)
      && u'.lastName == NameOr(data, "lastName", u.lastName)
      && s'.profile == Some(MergedProfileAsWritten(u, s.profile, data, now))
      && ProfileKeyFor(u.id) in s'.storage && UserKey in s'.storage
      && s'.storage[ProfileKeyFor(u.id)] == ProfileItem(s'.profile.value)
      && s'.storage[UserKey] == UserItem(u')
      && StoredUsers(s'.storage) == ReplaceFirstById(StoredUsers(s.storage), u')
      && SameExcept(s.storage, s'.storage, {ProfileKeyFor(u.id), UserKey, RegisteredUsersKey})
      && (RegisteredUsersKey !in s.storage ==> RegisteredUsersKey !in s'.storage)
  {
    match s.user
    case None => s
    case Some(u) =>
      ProfileKeysDistinct(u.id, u.id);
      Commit(s, u, data, now, MergedProfileAsWritten(u, s.profile, data, now))
  }

  /** `updateProfile` with the corrected merge: the same session, except
      that the profile it keeps and stores always names the current user. */
  function UpdateProfileCorrected(s: Session, data: Document, now: int): (s': Session)
    ensures s.user.None? ==> s' == s
    ensures s.user.Some? ==> var u, w := s.user.value, UpdateProfile(s, data, now);
      && s'.user == w.user
      && s'.profile == Some(MergedProfile(u, s.profile, data, now))
      && s'.storage == w.storage[ProfileKeyFor(u.id) := ProfileItem(s'.profile.value)]
  {
    match s.user
    case None => s
    case Some(u) =>
      ProfileKeysDistinct(u.id, u.id);
      Commit(s, u, data, now, MergedProfile(u, s.profile, data, now))
  }

  /** The writes `updateProfile` makes for user `u` once the merged profile
      `p` is computed. */
  function Commit(s: Session, u: User, data: Document, now: int, p: Document): Session {
    var u' := u.(firstName := NameOr(data, "firstName", u.firstName),
                 lastName := NameOr(data, "lastName", u.lastName),
                 profileCompleted := true, registrationStep := 8, updatedAt := now);
    ProfileKeysDistinct(u.id, u.id);
    var st := s.storage[ProfileKeyFor(u.id) := ProfileItem(p)][UserKey := UserItem(u')];
    var st' :=
      if RegisteredUsersKey in st && st[RegisteredUsersKey].UserListItem? then
        var users := st[RegisteredUsersKey].users;
        match FirstIndex(users, HasId(u.id))
        case Some(i) => st[RegisteredUsersKey := UserListItem(users[i := u'])]
        case None => st
      else st;
    Session(Some(u'), Some(p), st')
  }

  /** `resumeRegistration()`: `user?.registrationStep || 1`. */
  function ResumeRegistration(s: Session): (step: int)
    ensures step != 0
    ensures s.user.Some? && s.user.value.registrationStep != 0 ==> step == s.user.value.registrationStep
    ensures s.user.None? || s.user.value.registrationStep == 0 ==> step == 1
  {
    if s.user.Some? && s.user.value.registrationStep != 0 then s.user.value.registrationStep else 1
  }

  /** `isAuthenticated`: `!!user`. */
  predicate IsAuthenticated(s: Session) {
    s.user.Some?
  }

  // ---------------------------------------------------------------------------
  // Properties of the session lifecycle.

  /** The password given to `signIn` never influences the result. */
  lemma SignInIgnoresPassword(s: Session, email: string, p1: string, p2: string, now: int)
    ensures SignIn(s, email, p1, now) == SignIn(s, email, p2, now)
  {
  }

  /** `signIn` and `signUp` authenticate, `signOut` de-authenticates, and
      `updateProfile` keeps whatever authentication state there was. */
  lemma AuthenticationLifecycle(s: Session, email: string, password: string, data: SignUpData,
                                profileData: Document, now: nat)
    ensures IsAuthenticated(SignIn(s, email, password, now))
    ensures IsAuthenticated(SignUp(s, data, now))
    ensures !IsAuthenticated(SignOut(s))
    ensures IsAuthenticated(UpdateProfile(s, profileData, now)) <==> IsAuthenticated(s)
  {
  }

  /** A sign-up, then a sign-in with the same email on an otherwise unused
      email, finds the registered user (not the demo user) and resumes at
      step 1. */
  lemma SignUpThenSignIn(s: Session, data: SignUpData, password: string, now: nat, later: int)
    requires forall i :: 0 <= i < |StoredUsers(s.storage)| ==> StoredUsers(s.storage)[i].email != data.email
    ensures var s1 := SignUp(s, data, now);
            var s2 := SignIn(s1, data.email, password, later);
            s2.user == s1.user && ResumeRegistration(s2) == 1
  {
    var s1 := SignUp(s, data, now);
    FirstIndexAppend(StoredUsers(s.storage), s1.user.value, HasEmail(data.email));
  }

  /** Signing out keeps every registered user and every per-user profile. */
  lemma SignOutKeepsRegistry(s: Session, id: string)
    ensures StoredUsers(SignOut(s).storage) == StoredUsers(s.storage)
    ensures StoredProfile(SignOut(s).storage, id) == StoredProfile(s.storage, id)
  {
    ProfileKeysDistinct(id, id);
  }

  /** As written, `updateProfile` can store a profile naming another user.
      An unregistered email signs in as the demo user (id "1"), who saves a
      profile; a sign-up without a sign-out keeps that profile current; the
      new user's (id "5") next `updateProfile` stores `userId: "1"` under
      `profile_5`. The corrected operation stores `userId: "5"` there. */
  lemma {:induction false} SignUpKeepsStaleOwner(email: string, password: string, data: SignUpData)
    ensures var s1 := SignIn(Session(None, None, map[]), email, password, 0);
      var s2 := UpdateProfile(s1, map[], 1);
      var s3 := SignUp(s2, data, 5);
      var s4 := UpdateProfile(s3, map[], 2);
      var c4 := UpdateProfileCorrected(s3, map[], 2);
      && s1.user.value.id == "1"
      && s3.user.value.id == "5"
      && ProfileKeyFor("5") in s4.storage && s4.storage[ProfileKeyFor("5")].ProfileItem?
      && s4.storage[ProfileKeyFor("5")].profile["userId"] == Str("1")
      && ProfileKeyFor("5") in c4.storage && c4.storage[ProfileKeyFor("5")].ProfileItem?
      && c4.storage[ProfileKeyFor("5")].profile["userId"] == Str("5")
  {
    var s1 := SignIn(Session(None, None, map[]), email, password, 0);
    assert StoredUsers(map[]) == [];
    assert s1.user.value == DemoUser(email, 0);
    assert s1.profile.None?;
    var s2 := UpdateProfile(s1, map[], 1);
    assert s2.profile.value["userId"] == Str("1");
    var s3 := SignUp(s2, data, 5);
    assert NatToString(5) == "5";
    assert s3.profile == s2.profile;
  }

  /** With the corrected merge, the profile `updateProfile` stores under a
      user's key always names that user. */
  lemma UpdateProfileStoresOwnProfile(s: Session, data: Document, now: int)
    requires s.user.Some?
    ensures var s' := UpdateProfileCorrected(s, data, now);
      var k := ProfileKeyFor(s.user.value.id);
      && k in s'.storage && s'.storage[k].ProfileItem?
      && "userId" in s'.storage[k].profile && s'.storage[k].profile["userId"] == Str(s.user.value.id)
  {
  }

  /** Every session operation keeps the store well formed. */
  lemma SignInPreservesWellFormed(s: Session, email: string, password: string, now: int)
    requires WellFormed(s.storage)
    ensures WellFormed(SignIn(s, email, password, now).storage)
  {
  }

  lemma SignUpPreservesWellFormed(s: Session, data: SignUpData, now: nat)
    requires WellFormed(s.storage)
    ensures WellFormed(SignUp(s, data, now).storage)
  {
  }

  lemma SignOutPreservesWellFormed(s: Session)
    requires WellFormed(s.storage)
    ensures WellFormed(SignOut(s).storage)
  {
  }

  lemma UpdateProfilePreservesWellFormed(s: Session, data: Document, now: int)
    requires WellFormed(s.storage)
    ensures WellFormed(UpdateProfile(s, data, now).storage)
  {
    if s.user.Some? {
      var s' := UpdateProfile(s, data, now);
      var id := s.user.value.id;
      ProfileKeysDistinct(id, id);
      forall k | k in s'.storage
        ensures Fits(k, s'.storage[k])
      {
        if k != ProfileKeyFor(id) && k != UserKey && k != RegisteredUsersKey {
          assert s'.storage[k] == s.storage[k];
        }
      }
    }
  }
}
