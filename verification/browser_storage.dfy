/** The browser's `localStorage` as the client uses it: one string-keyed store
    shared by the session context (`user`, `profile`, `registeredUsers`,
    `profile_<id>`) and the HTTP client (`auth_token`). Each stored string is
    represented by its parsed shape. */
module BrowserStorage {
  import opened Common
  import opened Json

  /** The client-side user record. Dates are milliseconds since the epoch. */
  datatype User = User(
    id: string,
    email: string,
    firstName: string,
    lastName: string,
    profileCompleted: bool,
    registrationStep: int,
    createdAt: int,
    updatedAt: int)

  /** A stored value, by its parsed shape. */
  datatype Item =
    | UserItem(user: User)
    | UserListItem(users: seq<User>)
    | ProfileItem(profile: Document)
    | TextItem(text: string)

  type Store = map<string, Item>

  const UserKey := "user"
  const ProfileKey := "profile"
  const RegisteredUsersKey := "registeredUsers"
  const AuthTokenKey := "auth_token"
  const ProfileKeyPrefix := "profile_"

  /** The key under which the profile of user `id` is kept: `profile_${id}`. */
  function ProfileKeyFor(id: string): (k: string)
    ensures ProfileKeyPrefix <= k
    ensures |k| == |ProfileKeyPrefix| + |id|
    ensures k[|ProfileKeyPrefix|..] == id
  {
    ProfileKeyPrefix + id
  }

  /** A per-user profile key never coincides with any of the fixed keys, and
      different users get different keys. */
  lemma ProfileKeysDistinct(id: string, id': string)
    ensures ProfileKeyFor(id) != UserKey
    ensures ProfileKeyFor(id) != ProfileKey
    ensures ProfileKeyFor(id) != RegisteredUsersKey
    ensures ProfileKeyFor(id) != AuthTokenKey
    ensures ProfileKeyFor(id) == ProfileKeyFor(id') <==> id == id'
  {
    var k := ProfileKeyFor(id);
    assert k[0] == 'p' && k[1] == 'r';
    assert k[7] == '_';
    if k == ProfileKeyFor(id') {
      assert id == k[|ProfileKeyPrefix|..] == id';
    }
  }

  /** Which item shape each key the application writes holds. */
  predicate Fits(k: string, item: Item) {
    if k == UserKey then item.UserItem?
    else if k == RegisteredUsersKey then item.UserListItem?
    else if k == ProfileKey || ProfileKeyPrefix <= k then item.ProfileItem?
    else if k == AuthTokenKey then item.TextItem?
    else true
  }

  /** Every key holds the shape its readers expect. */
  predicate WellFormed(st: Store) {
    forall k :: k in st ==> Fits(k, st[k])
  }

  /** The `registeredUsers` list; absent (or not a list) reads as empty. */
  function StoredUsers(st: Store): (us: seq<User>)
    ensures RegisteredUsersKey in st && st[RegisteredUsersKey].UserListItem? ==> us == st[RegisteredUsersKey].users
    ensures RegisteredUsersKey !in st ==> us == []
  {
    if RegisteredUsersKey in st && st[RegisteredUsersKey].UserListItem? then st[RegisteredUsersKey].users else []
  }

  /** The profile stored under `profile_<id>`, if any. */
  function StoredProfile(st: Store, id: string): (p: Option<Document>)
    ensures p.Some? <==> ProfileKeyFor(id) in st && st[ProfileKeyFor(id)].ProfileItem?
    ensures p.Some? ==> st[ProfileKeyFor(id)] == ProfileItem(p.value)
  {
    var k := ProfileKeyFor(id);
    if k in st && st[k].ProfileItem? then Some(st[k].profile) else None
  }

  /** `localStorage.getItem(k)` for a key that holds plain text. */
  function StoredText(st: Store, k: string): (t: Option<string>)
    ensures t.Some? <==> k in st && st[k].TextItem?
    ensures t.Some? ==> st[k] == TextItem(t.value)
  {
    if k in st && st[k].TextItem? then Some(st[k].text) else None
  }

  /** `a` and `b` hold the same entries on every key outside `changed`. */
  ghost predicate SameExcept(a: Store, b: Store, changed: set<string>) {
    forall k :: k !in changed ==> (k in a <==> k in b) && (k in a ==> a[k] == b[k])
  }

  /** Storing an item that fits its key keeps the store well formed. */
  lemma StorePreservesWellFormed(st: Store, k: string, item: Item)
    requires WellFormed(st)
    requires Fits(k, item)
    ensures WellFormed(st[k := item])
  {
  }

  /** Removing keys keeps the store well formed. */
  lemma RemovePreservesWellFormed(st: Store, ks: set<string>)
    requires WellFormed(st)
    ensures WellFormed(st - ks)
  {
  }
}
