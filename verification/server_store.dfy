/** The server's data as the controllers see it: the users collection (in
    natural order, which is what `findOne` returns the first of), the profiles
    collection keyed by its unique `userId`, which store calls fail, and the
    JSON replies the handlers send. */
module ServerStore {
  import opened Common
  import opened Json
  import opened UserProfileModel

  /** A MongoDB ObjectId, as its string form. */
  type ObjectId = string

  /** A user account. The stored password is whatever the User model keeps;
      it is only ever compared through the model's own check. */
  datatype Account = Account(id: ObjectId, email: string, password: string, firstName: string, lastName: string)

  datatype Store = Store(users: seq<Account>, profiles: map<ObjectId, Document>)

  /** The store calls a handler makes. */
  datatype StoreCall = FindUser | CreateUser | UpdateUser | FindProfile | CreateProfile | WriteProfile

  /** Which store call, if any, throws, and with what message. */
  datatype Fault = Healthy | FailsOn(call: StoreCall, message: string)

  predicate Throws(f: Fault, c: StoreCall) {
    f.FailsOn? && f.call == c
  }

  /** The message MongoDB's unique indexes (`_id`, `userId`) reject an insert
      with, shortened to its fixed prefix. */
  const DuplicateKeyError := "E11000 duplicate key error"

  /** `error.message || 'Server error'`. */
  function ErrorText(message: string): (text: string)
    ensures text != ""
    ensures message != "" ==> text == message
  {
    if message != "" then message else "Server error"
  }

  /** `User.findOne({ email })`. */
  function FindByEmail(users: seq<Account>, email: string): (r: Option<nat>)
    ensures r.Some? ==> r.value < |users| && users[r.value].email == email
    ensures r.Some? ==> forall j :: 0 <= j < r.value ==> users[j].email != email
    ensures r.None? <==> forall j :: 0 <= j < |users| ==> users[j].email != email
  {
    FirstIndex(users, (a: Account) => a.email == email)
  }

  /** `User.findById(id)`. */
  function FindById(users: seq<Account>, id: ObjectId): (r: Option<nat>)
    ensures r.Some? ==> r.value < |users| && users[r.value].id == id
    ensures r.None? <==> forall j :: 0 <= j < |users| ==> users[j].id != id
  {
    FirstIndex(users, (a: Account) => a.id == id)
  }

  /** `UserProfile.findOneAndUpdate({ userId }, fields, { upsert: true, new: true })`:
      the fields are written over the user's profile, or over a new document
      when there is none; every other profile is untouched. */
  function Upsert(profiles: map<ObjectId, Document>, userId: ObjectId, fields: Document): (r: map<ObjectId, Document>)
    ensures r.Keys == profiles.Keys + {userId}
    ensures forall k :: k in profiles && k != userId ==> r[k] == profiles[k]
    ensures forall f :: f in fields ==> f in r[userId] && r[userId][f] == fields[f]
    ensures userId in profiles ==> forall f :: f in profiles[userId] && f !in fields ==>
      f in r[userId] && r[userId][f] == profiles[userId][f]
    ensures userId !in profiles ==> forall f :: f in NewDocument(userId) && f !in fields ==>
      f in r[userId] && r[userId][f] == NewDocument(userId)[f]
    ensures r[userId].Keys == fields.Keys + (if userId in profiles then profiles[userId] else NewDocument(userId)).Keys
  {
    var base := if userId in profiles then profiles[userId] else NewDocument(userId);
    profiles[userId := base + fields]
  }

  /** The profile stored under key `k` is a valid document of user `k`. */
  predicate ProfileOf(k: ObjectId, d: Document) {
    Valid(d) && d["userId"] == Str(k)
  }

  /** What the handlers keep true of the store: emails and ids are unique
      among users, and every profile is a valid document of its key's user
      (so there is at most one profile per user). */
  predicate Consistent(st: Store) {
    && (forall i, j :: 0 <= i < j < |st.users| ==> st.users[i].email != st.users[j].email)
    && (forall i, j :: 0 <= i < j < |st.users| ==> st.users[i].id != st.users[j].id)
    && (forall k :: k in st.profiles ==> ProfileOf(k, st.profiles[k]))
  }

  /** An upsert whose fields pass the update validators and leave `userId`
      alone keeps every profile a valid document of its user. */
  lemma UpsertKeepsProfiles(profiles: map<ObjectId, Document>, userId: ObjectId, fields: Document)
    requires forall k :: k in profiles ==> ProfileOf(k, profiles[k])
    requires PathsValid(fields) && "userId" !in fields
    ensures forall k :: k in Upsert(profiles, userId, fields) ==> ProfileOf(k, Upsert(profiles, userId, fields)[k])
  {
    var r := Upsert(profiles, userId, fields);
    var base := if userId in profiles then profiles[userId] else NewDocument(userId);
    NewDocumentDefaults(userId);
    assert ProfileOf(userId, base);
    UpdateKeepsValid(base, fields);
    assert r[userId] == base + fields;
  }

  // ---------------------------------------------------------------------------
  // Replies.

  /** The public view of a user: `{ id, email, firstName, lastName }`. */
  datatype UserView = UserView(id: ObjectId, email: string, firstName: string, lastName: string)

  function View(a: Account): UserView {
    UserView(a.id, a.email, a.firstName, a.lastName)
  }

  /** The JSON a handler answers with. Every reply but `Failed` carries
      `success: true`. */
  datatype Reply =
    | Failed(status: nat, error: string)
    | Registered(token: string, user: UserView)
    | LoggedIn(token: string, user: UserView, profile: Option<Document>)
    | AccountInfo(account: Option<UserView>, profile: Option<Document>)
    | ProfileUpdated(account: Option<UserView>, saved: Document)
    | LoggedOut
    | ProfileReply(profile: Option<Document>)
  {
    /** The HTTP status the reply is sent with. */
    function Status(): nat {
      match this
      case Failed(status, _) => status
      case Registered(_, _) => 201
      case _ => 200
    }
  }

  /** A reply together with the store it leaves behind. */
  datatype Outcome = Outcome(reply: Reply, store: Store)

  /** The reply to a store call that threw. */
  function ServerFailure(message: string): (r: Reply)
    ensures r.Failed? && r.status == 500 && r.error != ""
  {
    Failed(500, ErrorText(message))
  }
}
