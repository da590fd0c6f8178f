/** The authentication handlers (backend/src/controllers/authController.ts) as
    functions from a store and a request to a reply and the store they leave
    behind. Everything outside the handlers is an input: the configured
    secret, the token library, the User model's password check, and which
    store call (if any) throws. */
module AuthController {
  import opened Common
  import opened Json
  import opened UserProfileModel
  import opened ServerStore
  import Jwt

  /** The handlers' environment. `passwordMatches(account, candidate)` is the
      User model's `comparePassword`; `newId` of a registration is the
      ObjectId MongoDB assigns. */
  datatype Env = Env(
    secret: Option<string>,
    tokens: Jwt.Oracle,
    passwordMatches: (Account, string) -> bool,
    fault: Fault)

  /** Request bodies; a field the client left out is `None`. */
  datatype RegisterBody = RegisterBody(email: Option<string>, password: Option<string>,
                                       firstName: Option<string>, lastName: Option<string>)
  datatype LoginBody = LoginBody(email: Option<string>, password: Option<string>)
  datatype ProfileBody = ProfileBody(
    firstName: Option<string>, lastName: Option<string>,
    phone: Option<string>, dateOfBirth: Option<string>, nationality: Option<string>,
    address: Option<string>, bio: Option<string>)

  const MissingFields := "Please provide all required fields"
  const UserExists := "User already exists"
  const MissingCredentials := "Please provide email and password"
  const InvalidCredentials := "Invalid credentials"

  /** All four registration fields are present and non-empty. */
  predicate Complete(body: RegisterBody) {
    Given(body.email) && Given(body.password) && Given(body.firstName) && Given(body.lastName)
  }

  /** The account a complete registration body creates under `id`. */
  function NewAccount(body: RegisterBody, id: ObjectId): (a: Account)
    requires Complete(body)
  {
    Account(id, body.email.value, body.password.value, body.firstName.value, body.lastName.value)
  }

  /** `UserProfile.findOne({ userId })`. */
  function ProfileLookup(profiles: map<ObjectId, Document>, userId: ObjectId): (r: Option<Document>)
    ensures r.Some? <==> userId in profiles
    ensures r.Some? ==> r.value == profiles[userId]
  {
    if userId in profiles then Some(profiles[userId]) else None
  }

  /** `register`: validation, duplicate check, user insert, profile insert,
      token. A failure after an insert keeps what was inserted. */
  function Register(st: Store, env: Env, body: RegisterBody, newId: ObjectId): (o: Outcome)
    ensures o.reply.Failed? || o.reply.Registered?
    ensures o.reply.Failed? ==> o.reply.status in {400, 500} && o.reply.error != ""
    ensures o.reply.Registered? ==> o.reply.Status() == 201
    ensures |st.users| <= |o.store.users| <= |st.users| + 1
    ensures o.store.users[..|st.users|] == st.users
    ensures forall k :: k in st.profiles ==> k in o.store.profiles && o.store.profiles[k] == st.profiles[k]
    ensures o.reply.Status() == 400 ==> o.store == st
  {
    if !Complete(body) then Outcome(Failed(400, MissingFields), st)
    else if Throws(env.fault, FindUser) then Outcome(ServerFailure(env.fault.message), st)
    else if FindByEmail(st.users, body.email.value).Some? then Outcome(Failed(400, UserExists), st)
    else if Throws(env.fault, CreateUser) then Outcome(ServerFailure(env.fault.message), st)
    else if FindById(st.users, newId).Some? then Outcome(ServerFailure(DuplicateKeyError), st)
    else
      var account := NewAccount(body, newId);
      var withUser := st.(users := st.users + [account]);
      assert withUser.users[..|st.users|] == st.users;
      if Throws(env.fault, CreateProfile) then Outcome(ServerFailure(env.fault.message), withUser)
      else if newId in st.profiles then Outcome(ServerFailure(DuplicateKeyError), withUser)
      else
        var created := withUser.(profiles := st.profiles[newId := NewDocument(newId)]);
        match Jwt.GenerateToken(env.secret, env.tokens, newId)
        case Failure(e) => Outcome(ServerFailure(e), created)
        case Success(token) => Outcome(Registered(token, View(account)), created)
  }

  /** `login`: validation, lookup by email, password check, profile lookup,
      token. It never changes the store. */
  function Login(st: Store, env: Env, body: LoginBody): (o: Outcome)
    ensures o.store == st
    ensures o.reply.Failed? || o.reply.LoggedIn?
    ensures o.reply.Failed? ==> o.reply.status in {400, 401, 500} && o.reply.error != ""
    ensures o.reply.LoggedIn? ==>
      && Given(body.email) && Given(body.password)
      && FindByEmail(st.users, body.email.value).Some?
      && var u := st.users[FindByEmail(st.users, body.email.value).value];
         && env.passwordMatches(u, body.password.value)
         && o.reply.user == View(u)
         && o.reply.profile == ProfileLookup(st.profiles, u.id)
         && Jwt.GenerateToken(env.secret, env.tokens, u.id) == Success(o.reply.token)
  {
    if !Given(body.email) || !Given(body.password) then Outcome(Failed(400, MissingCredentials), st)
    else if Throws(env.fault, FindUser) then Outcome(ServerFailure(env.fault.message), st)
    else match FindByEmail(st.users, body.email.value)
      case None => Outcome(Failed(401, InvalidCredentials), st)
      case Some(i) =>
        var u := st.users[i];
        if !env.passwordMatches(u, body.password.value) then Outcome(Failed(401, InvalidCredentials), st)
        else if Throws(env.fault, FindProfile) then Outcome(ServerFailure(env.fault.message), st)
        else match Jwt.GenerateToken(env.secret, env.tokens, u.id)
          case Failure(e) => Outcome(ServerFailure(e), st)
          case Success(token) => Outcome(LoggedIn(token, View(u), ProfileLookup(st.profiles, u.id)), st)
  }

  /** `getProfile` for the authenticated caller: the account (null when it no
      longer exists) and the profile (null when there is none). */
  function GetProfile(st: Store, fault: Fault, callerId: ObjectId): (o: Outcome)
    ensures o.store == st
    ensures Throws(fault, FindUser) || Throws(fault, FindProfile) ==> o.reply == ServerFailure(fault.message)
    ensures !Throws(fault, FindUser) && !Throws(fault, FindProfile) ==>
      && o.reply.AccountInfo?
      && (o.reply.account.Some? <==> exists i :: 0 <= i < |st.users| && st.users[i].id == callerId)
      && (o.reply.account.Some? ==> o.reply.account.value.id == callerId)
      && o.reply.profile == ProfileLookup(st.profiles, callerId)
  {
    if Throws(fault, FindUser) then Outcome(ServerFailure(fault.message), st)
    else
      var account := match FindById(st.users, callerId)
        case Some(i) => Some(View(st.users[i]))
        case None => None;
      if Throws(fault, FindProfile) then Outcome(ServerFailure(fault.message), st)
      else Outcome(AccountInfo(account, ProfileLookup(st.profiles, callerId)), st)
  }

  /** The names an update writes over an account: a field the body leaves
      out is not part of the update. */
  function Rename(a: Account, firstName: Option<string>, lastName: Option<string>): (b: Account)
    ensures b.id == a.id && b.email == a.email && b.password == a.password
    ensures b.firstName == firstName.OrElse(a.firstName) && b.lastName == lastName.OrElse(a.lastName)
  {
    a.(firstName := firstName.OrElse(a.firstName), lastName := lastName.OrElse(a.lastName))
  }

  /** The profile fields `updateProfile` writes. */
  const BasicInfoFields: set<string> := {"phone", "dateOfBirth", "nationality", "address", "bio"}

  function BodyField(body: ProfileBody, k: string): Option<string> {
    if k == "phone" then body.phone
    else if k == "dateOfBirth" then body.dateOfBirth
    else if k == "nationality" then body.nationality
    else if k == "address" then body.address
    else if k == "bio" then body.bio
    else None
  }

  /** The profile update of `updateProfile`: each of the five fields the body
      carries, as a string; none other. */
  function BasicInfo(body: ProfileBody): (d: Document)
    ensures d.Keys <= BasicInfoFields
    ensures forall k :: k in BasicInfoFields ==> (k in d <==> BodyField(body, k).Some?)
    ensures forall k :: k in d ==> d[k] == Str(BodyField(body, k).value)
  {
    map k | k in BasicInfoFields && BodyField(body, k).Some? :: Str(BodyField(body, k).value)
  }

  /** `updateProfile`: rename the caller's account (if it exists), then
      upsert the caller's profile. Each write stays when a later one throws. */
  function UpdateProfile(st: Store, fault: Fault, callerId: ObjectId, body: ProfileBody): (o: Outcome)
    ensures Throws(fault, UpdateUser) ==> o == Outcome(ServerFailure(fault.message), st)
    ensures |o.store.users| == |st.users|
    ensures forall i :: 0 <= i < |st.users| ==>
      o.store.users[i].id == st.users[i].id && o.store.users[i].email == st.users[i].email
    ensures !Throws(fault, UpdateUser) ==> forall i :: 0 <= i < |st.users| ==>
      o.store.users[i] == (if Some(i) == FindById(st.users, callerId)
                           then Rename(st.users[i], body.firstName, body.lastName) else st.users[i])
    ensures !Throws(fault, UpdateUser) && Throws(fault, WriteProfile) ==>
      o.reply == ServerFailure(fault.message) && o.store.profiles == st.profiles
    ensures !Throws(fault, UpdateUser) && !Throws(fault, WriteProfile) ==>
      && o.reply.ProfileUpdated?
      && o.store.profiles == Upsert(st.profiles, callerId, BasicInfo(body))
      && o.reply.saved == o.store.profiles[callerId]
      && (o.reply.account.Some? <==> FindById(st.users, callerId).Some?)
  {
    if Throws(fault, UpdateUser) then Outcome(ServerFailure(fault.message), st)
    else
      var (users, account) := match FindById(st.users, callerId)
        case Some(i) =>
          var b := Rename(st.users[i], body.firstName, body.lastName);
          (st.users[i := b], Some(View(b)))
        case None => (st.users, None);
      if Throws(fault, WriteProfile) then Outcome(ServerFailure(fault.message), st.(users := users))
      else
        var profiles := Upsert(st.profiles, callerId, BasicInfo(body));
        Outcome(ProfileUpdated(account, profiles[callerId]), Store(users, profiles))
  }

  /** `logout`: the token is the client's to drop; the server acknowledges and
      changes nothing. */
  function Logout(st: Store): (o: Outcome)
    ensures o.store == st
    ensures o.reply.Status() == 200 && o.reply.LoggedOut?
  {
    Outcome(LoggedOut, st)
  }

  // ---------------------------------------------------------------------------
  // Properties.

  /** A registration missing any field is refused with 400 before the store
      is consulted. */
  lemma RegisterRequiresAllFields(st: Store, env: Env, body: RegisterBody, newId: ObjectId)
    requires !Given(body.email) || !Given(body.password) || !Given(body.firstName) || !Given(body.lastName)
    ensures Register(st, env, body, newId) == Outcome(Failed(400, MissingFields), st)
  {
  }

  /** Registering an email some account already has is refused with 400, and
      neither a user nor a profile is created. */
  lemma RegisterDuplicateEmail(st: Store, env: Env, body: RegisterBody, newId: ObjectId, i: nat)
    requires Complete(body) && !Throws(env.fault, FindUser)
    requires i < |st.users| && st.users[i].email == body.email.value
    ensures Register(st, env, body, newId) == Outcome(Failed(400, UserExists), st)
  {
  }

  /** A successful registration adds exactly one account, with the body's
      fields and a fresh email and id, and exactly one profile, the schema's
      new document for that id; it answers 201 with the account's public view
      and a token signed for its id. */
  lemma RegisterCreates(st: Store, env: Env, body: RegisterBody, newId: ObjectId)
    requires Register(st, env, body, newId).reply.Registered?
    ensures var o := Register(st, env, body, newId);
      && Complete(body)
      && (forall j :: 0 <= j < |st.users| ==> st.users[j].email != body.email.value && st.users[j].id != newId)
      && o.store.users == st.users + [NewAccount(body, newId)]
      && newId !in st.profiles
      && o.store.profiles == st.profiles[newId := NewDocument(newId)]
      && o.store.profiles[newId]["userId"] == Str(newId)
      && o.reply.user == View(NewAccount(body, newId))
      && Jwt.GenerateToken(env.secret, env.tokens, newId) == Success(o.reply.token)
  {
    NewDocumentDefaults(newId);
  }

  /** A complete registration of an unused email under an unused id, with no
      store call failing and a secret configured, succeeds: 201, the new
      account's public view, a token signed for its id, and the store grown
      by that account and its new profile document. */
  lemma RegisterSucceeds(st: Store, env: Env, body: RegisterBody, newId: ObjectId)
    requires Complete(body) && env.fault == Healthy && Jwt.Configured(env.secret)
    requires forall j :: 0 <= j < |st.users| ==> st.users[j].email != body.email.value && st.users[j].id != newId
    requires newId !in st.profiles
    ensures var o := Register(st, env, body, newId);
      && o.reply.Registered? && o.reply.Status() == 201
      && o.reply.user == View(NewAccount(body, newId))
      && o.reply.token == env.tokens.sign(Jwt.Payload(newId), env.secret.value, Jwt.ExpiresIn)
      && o.store == Store(st.users + [NewAccount(body, newId)], st.profiles[newId := NewDocument(newId)])
  {
  }

  /** When the profile insert throws, the account insert before it is not
      undone: the reply is 500 and the new account stays without a profile. */
  lemma RegisterKeepsUserWhenProfileFails(st: Store, env: Env, body: RegisterBody, newId: ObjectId, message: string)
    requires Complete(body) && env.fault == FailsOn(CreateProfile, message)
    requires forall j :: 0 <= j < |st.users| ==> st.users[j].email != body.email.value && st.users[j].id != newId
    ensures Register(st, env, body, newId) ==
      Outcome(Failed(500, ErrorText(message)), Store(st.users + [NewAccount(body, newId)], st.profiles))
  {
  }

  /** The token a registration returns resolves, under the same secret, to
      the new account's id. */
  lemma RegisterTokenResolves(st: Store, env: Env, body: RegisterBody, newId: ObjectId)
    requires Jwt.RoundTrips(env.tokens)
    requires Register(st, env, body, newId).reply.Registered?
    ensures Jwt.VerifyToken(env.secret, env.tokens, Register(st, env, body, newId).reply.token)
      == Some(Jwt.Payload(Register(st, env, body, newId).reply.user.id))
  {
    RegisterCreates(st, env, body, newId);
  }

  /** Registration keeps the store consistent: emails and ids stay unique and
      every profile stays a valid document of its user. */
  lemma RegisterPreservesConsistent(st: Store, env: Env, body: RegisterBody, newId: ObjectId)
    requires Consistent(st)
    ensures Consistent(Register(st, env, body, newId).store)
  {
    var o := Register(st, env, body, newId);
    if o.store != st {
      assert Complete(body);
      var account := NewAccount(body, newId);
      assert FindByEmail(st.users, body.email.value).None? && FindById(st.users, newId).None?;
      assert o.store.users == st.users + [account];
      assert forall j :: 0 <= j < |st.users| ==> st.users[j].email != account.email && st.users[j].id != account.id;
      if o.store.profiles != st.profiles {
        NewDocumentDefaults(newId);
        assert ProfileOf(newId, NewDocument(newId));
        assert o.store.profiles == st.profiles[newId := NewDocument(newId)];
      }
    }
  }

  /** Registering and then logging in with the same email and a password the
      model's check accepts yields the new account, its new profile document
      and a token for its id. */
  lemma RegisterThenLogin(st: Store, env: Env, body: RegisterBody, newId: ObjectId)
    requires env.fault == Healthy
    requires Register(st, env, body, newId).reply.Registered?
    requires env.passwordMatches(NewAccount(body, newId), body.password.value)
    ensures var st' := Register(st, env, body, newId).store;
      var o := Login(st', env, LoginBody(body.email, body.password));
      && o.reply.LoggedIn?
      && o.reply.user == View(NewAccount(body, newId))
      && o.reply.profile == Some(NewDocument(newId))
      && o.reply.token == Register(st, env, body, newId).reply.token
  {
    RegisterCreates(st, env, body, newId);
    var account := NewAccount(body, newId);
    var st' := Register(st, env, body, newId).store;
    var p := (a: Account) => a.email == body.email.value;
    FirstIndexAppend(st.users, account, p);
    assert FindByEmail(st.users, body.email.value).None?;
    assert FindByEmail(st'.users, body.email.value) == Some(|st.users|);
  }

  /** A login with a missing email or password is refused with 400. */
  lemma LoginRequiresCredentials(st: Store, env: Env, body: LoginBody)
    requires !Given(body.email) || !Given(body.password)
    ensures Login(st, env, body) == Outcome(Failed(400, MissingCredentials), st)
  {
  }

  /** An unknown email and a wrong password get the very same 401 reply, and
      these are the only ways to get a 401. */
  lemma LoginUniformFailure(st: Store, env: Env, body: LoginBody)
    requires Given(body.email) && Given(body.password) && !Throws(env.fault, FindUser)
    ensures (forall j :: 0 <= j < |st.users| ==> st.users[j].email != body.email.value) ==>
      Login(st, env, body) == Outcome(Failed(401, InvalidCredentials), st)
    ensures forall i :: 0 <= i < |st.users| && st.users[i].email == body.email.value
                        && (forall j :: 0 <= j < i ==> st.users[j].email != body.email.value)
                        && !env.passwordMatches(st.users[i], body.password.value) ==>
      Login(st, env, body) == Outcome(Failed(401, InvalidCredentials), st)
    ensures Login(st, env, body).reply.Status() == 401 ==>
      Login(st, env, body).reply == Failed(401, InvalidCredentials) &&
      ((forall j :: 0 <= j < |st.users| ==> st.users[j].email != body.email.value) ||
       (exists i :: 0 <= i < |st.users| && st.users[i].email == body.email.value
                    && !env.passwordMatches(st.users[i], body.password.value)))
  {
    var r := FindByEmail(st.users, body.email.value);
    forall i | 0 <= i < |st.users| && st.users[i].email == body.email.value
               && (forall j :: 0 <= j < i ==> st.users[j].email != body.email.value)
               && !env.passwordMatches(st.users[i], body.password.value)
      ensures Login(st, env, body) == Outcome(Failed(401, InvalidCredentials), st)
    {
      assert r == Some(i);
    }
  }

  /** A login naming the first account with its email, with a password the
      model's check accepts, no store call failing and a secret configured,
      succeeds: that account's public view, its profile (or null) and a token
      signed for its id. */
  lemma LoginSucceeds(st: Store, env: Env, body: LoginBody, i: nat)
    requires Given(body.email) && Given(body.password)
    requires !Throws(env.fault, FindUser) && !Throws(env.fault, FindProfile) && Jwt.Configured(env.secret)
    requires i < |st.users| && st.users[i].email == body.email.value
    requires forall j :: 0 <= j < i ==> st.users[j].email != body.email.value
    requires env.passwordMatches(st.users[i], body.password.value)
    ensures var o := Login(st, env, body);
      && o.reply.LoggedIn? && o.reply.Status() == 200
      && o.reply.user == View(st.users[i])
      && o.reply.profile == ProfileLookup(st.profiles, st.users[i].id)
      && o.reply.token == env.tokens.sign(Jwt.Payload(st.users[i].id), env.secret.value, Jwt.ExpiresIn)
  {
    assert FindByEmail(st.users, body.email.value) == Some(i);
  }

  /** The token a login returns resolves to the id of the account it names. */
  lemma LoginTokenResolves(st: Store, env: Env, body: LoginBody)
    requires Jwt.RoundTrips(env.tokens)
    requires Login(st, env, body).reply.LoggedIn?
    ensures Jwt.VerifyToken(env.secret, env.tokens, Login(st, env, body).reply.token)
      == Some(Jwt.Payload(Login(st, env, body).reply.user.id))
  {
  }

  /** A successful profile update leaves exactly one profile for the caller
      — the one it returns — holding the body's fields, and keeps the store
      consistent whatever the outcome. */
  lemma UpdateProfileUpserts(st: Store, fault: Fault, callerId: ObjectId, body: ProfileBody)
    requires Consistent(st)
    ensures Consistent(UpdateProfile(st, fault, callerId, body).store)
    ensures var o := UpdateProfile(st, fault, callerId, body);
      o.reply.ProfileUpdated? ==>
        && callerId in o.store.profiles
        && o.reply.saved == o.store.profiles[callerId]
        && (forall k :: k in o.store.profiles && o.store.profiles[k]["userId"] == Str(callerId) ==> k == callerId)
        && (forall k :: k in BasicInfoFields && BodyField(body, k).Some? ==>
              k in o.reply.saved && o.reply.saved[k] == Str(BodyField(body, k).value))
  {
    var o := UpdateProfile(st, fault, callerId, body);
    var fields := BasicInfo(body);
    assert PathsValid(fields) by {
      assert "studyLevel" !in fields && "englishProficiency" !in fields;
      assert "education" !in fields && "standardizedTests" !in fields;
    }
    assert "userId" !in fields;
    UpsertKeepsProfiles(st.profiles, callerId, fields);
    assert forall i :: 0 <= i < |st.users| ==>
      o.store.users[i].id == st.users[i].id && o.store.users[i].email == st.users[i].email;
  }
}
