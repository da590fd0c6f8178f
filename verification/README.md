# Study-abroad platform: sessions, authentication and profiles in Dafny

This project models the authentication and profile core of a study-abroad
application platform. The platform has two sides:

- **The browser side.**
  - The session context (`contexts/AuthContext.tsx`) keeps the current user and profile. It mirrors them in `localStorage`, next to a `registeredUsers` list and per-user `profile_<id>` entries.
  - The HTTP client (`lib/api.ts`) attaches the bearer token, turns every fetch into an `ApiResponse` and keeps the token under `auth_token`.
- **The server side.**
  - The Express handlers for registration, login, the account profile and the questionnaire (`backend/src/controllers/`) read and write a users collection and a profiles collection.
  - Tokens are issued and checked by `backend/src/utils/jwt.ts`.
  - The Mongoose schemas (`backend/src/models/`) say which documents are valid.

Every operation is a pure function. Client operations map a `Session` (user, profile, store) to a new `Session`. Server handlers map a store and a request to an `Outcome`: the reply (status, error text or payload) and the store the handler leaves behind.

Whatever lies outside the code is an input to these functions:

- the clock reading;
- whether `window` exists;
- the fetch outcome;
- the configured `JWT_SECRET`;
- the token library's `sign`/`verify`;
- the User model's password check;
- the ObjectId Mongoose assigns;
- which store call, if any, throws.

Modules, one per file:

| module | file | models |
|---|---|---|
| `Common` | common.dfy | `Option`, `Result`, and `FirstIndex` (JavaScript's `findIndex`/`find`) |
| `Json` | json.dfy | JavaScript values and truthiness, `||`, and decimal rendering of numbers |
| `BrowserStorage` | browser_storage.dfy | `localStorage`: its keys, each stored item by its parsed shape, and a well-formedness invariant |
| `AuthContext` | auth_context.dfy | `signIn`, `signUp`, `signOut`, `updateProfile`, `resumeRegistration`, `isAuthenticated` |
| `ApiClient` | api_client.dfy | request headers, response shaping, and the token store |
| `Jwt` | jwt.dfy | `generateToken`, `verifyToken` |
| `UserProfileModel` | user_profile_model.dfy | the profile schema: enums, defaults, stored form, validators |
| `ApplicationModel` | application_model.dfy | the application schema |
| `DocumentModel` | document_model.dfy | the uploaded-document schema |
| `ServerStore` | server_store.dfy | the server's users and profiles, store faults, the upsert, replies |
| `AuthController` | auth_controller.dfy | `register`, `login`, `getProfile`, `updateProfile`, `logout` |
| `ProfileController` | profile_controller.dfy | `getQuestionnaire`, `saveQuestionnaire` |

Three facts about the code shape the model:

- `register` inserts an empty profile for the new user at once (`backend/src/controllers/authController.ts:39-42`). An account it creates therefore has a profile document from the start, unless the profile insert throws. In that case the account stays without one (`AuthController.RegisterKeepsUserWhenProfileFails`).
- The session context never calls the server. Its operations are local transitions of the user, the profile and `localStorage`.
- The schema puts no bound on `currentStep` or `completedSteps` (`UserProfileModel.NoStepBounds`). The handlers that would move them are not part of this model (see "Left out").

## Model

| member | source | states |
|---|---|---|
| Common.FirstIndex | contexts/AuthContext.tsx:162 | The result is the least index whose element satisfies the predicate. It is `None` exactly when no element does (`findIndex` returning -1). |
| Common.FirstIndexAppend | contexts/AuthContext.tsx:57-58 | Searching a list after a push finds the old match when there was one. Otherwise it finds the pushed element exactly when that element matches. |
| Json.Or | lib/api.ts:75 | `a \|\| b` is truthy iff either operand is. It is `a` when `a` is truthy and `b` otherwise. |
| Json.Field | lib/api.ts:75 | A truthy field read means the key is present with that value. |
| Json.NatToString | contexts/AuthContext.tsx:95 | `n.toString()` is a non-empty string of decimal digits with no leading zero. |
| Json.ParseNatToString | contexts/AuthContext.tsx:95 | Reading back a rendered number gives the number. |
| Json.NatToStringInjective | contexts/AuthContext.tsx:95 | Distinct clock readings give distinct sign-up ids. |
| BrowserStorage.ProfileKeyFor | contexts/AuthContext.tsx:155 | A profile key is `profile_` followed by the id, and dropping the prefix gives the id back. |
| BrowserStorage.ProfileKeysDistinct | contexts/AuthContext.tsx:155 | A per-user profile key never collides with `user`, `profile`, `registeredUsers` or `auth_token`. Two users share a key only if their ids are equal. |
| BrowserStorage.StoredUsers | contexts/AuthContext.tsx:53-59 | `registeredUsers` reads as its list, or as empty when absent. |
| BrowserStorage.StoredProfile | contexts/AuthContext.tsx:79-82 | `profile_<id>` reads as a profile exactly when a profile is stored under it. |
| BrowserStorage.StoredText | lib/api.ts:148-153 | A text key reads as its text exactly when text is stored under it. |
| AuthContext.DemoUser | contexts/AuthContext.tsx:62-73 | The fallback user has id "1", the given email, a completed profile and step 8. |
| AuthContext.SignInUser | contexts/AuthContext.tsx:53-73 | The chosen user is the first registered user with the email. When no registered user has the email, it is the demo user. |
| AuthContext.SignIn | contexts/AuthContext.tsx:49-89 | The chosen user becomes current and is the only store write. The profile is replaced only if `profile_<id>` holds one; otherwise it is unchanged. |
| AuthContext.SignUp | contexts/AuthContext.tsx:91-120 | The new user has id = the clock reading, step 0 and an incomplete profile, and becomes current. The registry is the old registry plus this user, with no duplicate check. Only `user` and `registeredUsers` change, and the profile is kept. |
| AuthContext.SignOut | contexts/AuthContext.tsx:122-127 | User and profile become null. Only the `user` and `profile` keys are removed. |
| AuthContext.NameOr | contexts/AuthContext.tsx:144-145 | A supplied name replaces the current one only when it is non-empty. |
| AuthContext.MergedProfileAsWritten | contexts/AuthContext.tsx:133-139 | The keys are userId, updatedAt, createdAt, the old profile's keys and the new data's keys. New data overrides old fields. `userId` is the user's id only when neither the data nor the old profile has one. `updatedAt` is now. An existing truthy `createdAt` is kept, otherwise it is now. |
| AuthContext.MergedProfile | contexts/AuthContext.tsx:133-139 | The corrected merge (see "Findings"): the same keys and values, except that `userId` is always the current user's id. |
| AuthContext.ReplaceFirstById | contexts/AuthContext.tsx:159-167 | The length is unchanged. The first entry with the id is replaced. With no such entry the list is untouched. |
| AuthContext.UpdateProfile | contexts/AuthContext.tsx:129-172 | With no current user this is a no-op. Otherwise the user is marked complete at step 8 with names kept unless supplied. The profile, merged as the source writes it, is stored under `profile_<id>`, and the registry entry is replaced by id. Nothing else in the store changes. |
| AuthContext.UpdateProfileCorrected | contexts/AuthContext.tsx:129-172 | The operation with the corrected merge (see "Findings") leaves the same user and store as `UpdateProfile`, except that the kept and stored profile is the corrected merge. |
| AuthContext.IsAuthenticated | contexts/AuthContext.tsx:181 | The session is authenticated exactly when there is a current user. |
| AuthContext.ResumeRegistration | contexts/AuthContext.tsx:174-176 | The result is the user's step when non-zero. It is 1 for step 0 and for no user. |
| AuthContext.SignInIgnoresPassword | contexts/AuthContext.tsx:49-58 | Two sign-ins differing only in password give the same session. |
| AuthContext.AuthenticationLifecycle | contexts/AuthContext.tsx:181 | Sign-in and sign-up authenticate and sign-out de-authenticates. Updating the profile keeps the authentication state. |
| AuthContext.SignUpThenSignIn | contexts/AuthContext.tsx:91-113 | After a sign-up with a fresh email, a sign-in with that email returns the registered user, not the demo user, and resumes at step 1. |
| AuthContext.SignOutKeepsRegistry | contexts/AuthContext.tsx:122-127 | Sign-out keeps every registered user and every per-user profile. |
| AuthContext.SignUpKeepsStaleOwner | contexts/AuthContext.tsx:49-155 | Consider a fresh store and this sequence: sign-in of an unregistered email (the demo user "1"), a profile update, a sign-up as "5", and another profile update. At its end the source's operation stores `userId: "1"` under `profile_5`. The corrected operation stores `userId: "5"` there. |
| AuthContext.UpdateProfileStoresOwnProfile | contexts/AuthContext.tsx:133-155 | With the corrected merge, the profile `updateProfile` stores under a user's key always names that user. |
| AuthContext.SignInPreservesWellFormed | contexts/AuthContext.tsx:75-76 | Sign-in keeps every key holding the shape its readers expect. |
| AuthContext.SignUpPreservesWellFormed | contexts/AuthContext.tsx:107-113 | Sign-up keeps the store well formed. |
| AuthContext.SignOutPreservesWellFormed | contexts/AuthContext.tsx:125-126 | Sign-out keeps the store well formed. |
| AuthContext.UpdateProfilePreservesWellFormed | contexts/AuthContext.tsx:155-165 | Updating the profile keeps the store well formed. |
| ApiClient.GetToken | lib/api.ts:148-153 | Without a window the token is null. Otherwise it is the stored `auth_token`. |
| ApiClient.SetToken | lib/api.ts:142-146 | In a browser, the next `getToken` returns the token. Without a window nothing changes. No other key changes. |
| ApiClient.RemoveToken | lib/api.ts:155-159 | Afterwards `getToken` is null, and no other key changes. |
| ApiClient.IsAuthenticated | lib/api.ts:162-164 | The client is authenticated exactly when `getToken` returns a non-empty token. |
| ApiClient.TokenOpsPreserveWellFormed | lib/api.ts:142-159 | `setToken` and `removeToken` keep the browser store well formed for the session context's readers. |
| ApiClient.TokenLifecycle | lib/api.ts:142-164 | After `setToken(t)` the client is authenticated iff it has a window and `t` is non-empty. After `removeToken` it is not authenticated, and without a window it never is. |
| ApiClient.TokenSurvivesSessionSignOut | contexts/AuthContext.tsx:122-127 | Session sign-out leaves the API token and its authentication state unchanged. |
| ApiClient.BaseHeaders | lib/api.ts:43-49 | Caller headers replace the default object outright. Without them the only header is `Content-Type: application/json`. |
| ApiClient.RequestHeaders | lib/api.ts:43-58 | `Authorization: Bearer <token>` is added when the token is non-empty. Every other header is exactly the base headers. |
| ApiClient.AuthorizationIffToken | lib/api.ts:52-58 | Unless the caller supplies its own Authorization header, the request carries one iff the stored token is non-empty. |
| ApiClient.CallerHeadersDropContentType | lib/api.ts:43-49 | Content-Type is sent iff the caller supplies no headers, or supplies that header itself. |
| ApiClient.HttpErrorText | lib/api.ts:69 | The fallback message is never empty. |
| ApiClient.HttpErrorTextInjective | lib/api.ts:69 | Different statuses give different fallback messages. |
| ApiClient.ResponseData | lib/api.ts:63-70 | For a JSON content type, `data` is the parsed body. Otherwise `data` is `{error}` holding the body text, or the status message when the text is empty. |
| ApiClient.Normalise | lib/api.ts:60-89 | A thrown fetch gives success false with the error's message or the network text. A non-ok response gives success false with the first truthy of data.error, data.message and the status message. An ok response gives `{success: true}` overlaid with data. |
| ApiClient.SuccessFlag | lib/api.ts:72-82 | Success true implies the response was ok. A non-JSON ok response always reports success. The body's own `success` overrides the flag. |
| Jwt.GenerateToken | backend/src/utils/jwt.ts:7-20 | It fails, with the fixed message, iff the secret is absent or empty. Otherwise it signs exactly `{id}` with a 7d expiry. |
| Jwt.VerifyToken | backend/src/utils/jwt.ts:22-35 | It never fails. The result is the payload iff the secret is configured and the verifier accepts, and null otherwise. |
| Jwt.IssuedTokenResolves | backend/src/utils/jwt.ts:7-35 | Under a signing library that round-trips, an issued token verifies to `{id: userId}`. |
| Jwt.NoSecretNoTokens | backend/src/utils/jwt.ts:10-28 | Without a secret, nothing is issued and nothing verifies. |
| UserProfileModel.ParseStudyLevel | backend/src/models/UserProfile.ts:62-65 | A stored string names a study level iff it is in the domain. |
| UserProfileModel.ParseNames | backend/src/models/UserProfile.ts:62-101 | Every enum value's stored name parses back to that value. |
| UserProfileModel.EnumDomains | backend/src/models/UserProfile.ts:62-101 | Every enum value is stored under a name of its domain, and the names are distinct. |
| UserProfileModel.Default | backend/src/models/UserProfile.ts:45-106 | A new profile has only its user id set, both nested flags false, no tests, step 1 and no completed steps. |
| UserProfileModel.Encode | backend/src/models/UserProfile.ts:45-110 | The stored document passes every schema validator and belongs to the profile's user. It has exactly the schema paths that are set. |
| UserProfileModel.DecodeEncode | backend/src/models/UserProfile.ts:45-106 | The stored form loses nothing: reading a stored profile back gives the same profile, every enum, list element and nested field included. |
| UserProfileModel.NewDocument | backend/src/models/UserProfile.ts:45-106 | A new profile is inserted as the stored form of `Default`, so it carries `Encode`'s guarantees: it is valid and belongs to its user. |
| UserProfileModel.PathsValid | backend/src/models/UserProfile.ts:62-101 | Every enumerated path present, nested or not, and every `standardizedTests` element is null or a name from its domain. |
| UserProfileModel.Valid | backend/src/models/UserProfile.ts:45-110 | A stored profile has a string `userId` and valid paths. |
| UserProfileModel.EnglishValid | backend/src/models/UserProfile.ts:67-78 | An encoded English record passes its exam-type and level validators. |
| UserProfileModel.EducationValid | backend/src/models/UserProfile.ts:85-97 | An encoded education record passes its level validators. |
| UserProfileModel.TestsValid | backend/src/models/UserProfile.ts:98-101 | Every encoded standardized test is in its domain. |
| UserProfileModel.NewDocumentDefaults | backend/src/models/UserProfile.ts:45-110 | A new document is valid and belongs to its user. It has step 1, no completed steps, no tests, and both nested flags false, and nothing else. |
| UserProfileModel.NewDocumentProgress | backend/src/models/UserProfile.ts:104-105 | A new document starts at step 1 with no completed steps. |
| UserProfileModel.NoStepBounds | backend/src/models/UserProfile.ts:104-105 | Any step and any completed list keep a valid document valid. |
| UserProfileModel.UpdateKeepsValid | backend/src/models/UserProfile.ts:45-110 | An update that passes the validators and leaves userId alone keeps a document valid. |
| UserProfileModel.StudyLevelRejected | backend/src/models/UserProfile.ts:62-65 | A study level outside the domain fails validation. |
| ApplicationModel.ParseStatus | backend/src/models/Application.ts:29-33 | A string names a status iff it is one of the five. |
| ApplicationModel.StatusRoundTrip | backend/src/models/Application.ts:29-33 | Every status is stored under a domain name and read back as itself. |
| ApplicationModel.Valid | backend/src/models/Application.ts:21-39 | A stored application has a non-empty university id and program and a progress in [0, 100]. |
| ApplicationModel.Violations | backend/src/models/Application.ts:14-41 | A path fails iff it is a required field that is missing or empty, a status outside the domain, or a progress outside [0, 100]. |
| ApplicationModel.Create | backend/src/models/Application.ts:14-41 | Creation is rejected iff some path fails, and the rejection names exactly the failing paths. Otherwise the record is valid, with status draft and progress 0 by default. |
| ApplicationModel.SubmittedAtIndependentOfStatus | backend/src/models/Application.ts:40 | A submitted application needs no date, and a draft may have one. |
| ApplicationModel.MinimalApplication | backend/src/models/Application.ts:16-39 | The required fields alone give a draft at progress 0. |
| DocumentModel.ParseType | backend/src/models/Documents.ts:23-27 | A string names a document type iff it is one of the five. |
| DocumentModel.TypeRoundTrip | backend/src/models/Documents.ts:23-27 | Every type is stored under a domain name and read back as itself. |
| DocumentModel.Valid | backend/src/models/Documents.ts:28-35 | A stored upload has a non-empty url and filename. |
| DocumentModel.Violations | backend/src/models/Documents.ts:14-35 | userId, type, url and filename are required, and type must be in its domain. |
| DocumentModel.Create | backend/src/models/Documents.ts:12-41 | Creation is rejected iff some path fails. Otherwise the record is valid and `uploadedAt` defaults to the creation time. |
| DocumentModel.ApplicationIdOptional | backend/src/models/Documents.ts:19-22 | An upload is accepted with or without an application id alike. |
| ServerStore.ErrorText | backend/src/controllers/authController.ts:60 | The error text is the message, or "Server error" when the message is empty. It is never empty. |
| ServerStore.FindByEmail | backend/src/controllers/authController.ts:23 | The result is the first account with the email, or none iff no account has it. |
| ServerStore.FindById | backend/src/controllers/authController.ts:128 | The result is an account with the id, or none iff no account has it. |
| ServerStore.Upsert | backend/src/controllers/authController.ts:165-175 | The caller's profile (existing or new) gets the fields and keeps every other field. Exactly the caller's key is added, and other profiles are untouched. |
| ServerStore.Consistent | backend/src/controllers/authController.ts:22-42 | Emails are unique among users, as the duplicate check before the user insert keeps them, and ids are unique, as `_id` is. Each profile is a valid document of the user it is keyed by, so each user has at most one, as the unique `userId` index (`backend/src/models/UserProfile.ts:47-52`) demands. |
| ServerStore.UpsertKeepsProfiles | backend/src/controllers/authController.ts:165-175 | An upsert that passes the validators keeps every profile a valid document of its own user. |
| ServerStore.ServerFailure | backend/src/controllers/authController.ts:57-62 | A thrown store call gives 500 with a non-empty error. |
| AuthController.ProfileLookup | backend/src/controllers/authController.ts:99 | The lookup is the caller's profile, or null iff there is none. |
| AuthController.Register | backend/src/controllers/authController.ts:10-63 | The reply is 400, 500 or 201. Existing accounts and profiles are never changed. At most one account is added, and a 400 changes nothing. |
| AuthController.Login | backend/src/controllers/authController.ts:68-121 | The store never changes. Success means: the first account with the email, an accepted password, its profile or null, and a token for its id. |
| AuthController.GetProfile | backend/src/controllers/authController.ts:126-148 | The store never changes. A throw gives 500. Otherwise the reply is the account iff it exists, and the profile or null. |
| AuthController.Rename | backend/src/controllers/authController.ts:158-162 | Only the supplied names change. |
| AuthController.BasicInfo | backend/src/controllers/authController.ts:165-173 | The update holds exactly the supplied phone, dateOfBirth, nationality, address and bio fields. |
| AuthController.UpdateProfile | backend/src/controllers/authController.ts:153-190 | The caller's account is renamed and no id or email changes. A profile-write throw gives 500 and keeps the rename. Success upserts the profile and returns it. |
| AuthController.Logout | backend/src/controllers/authController.ts:195-202 | Logout answers 200 and leaves the store unchanged. |
| AuthController.RegisterRequiresAllFields | backend/src/controllers/authController.ts:15-20 | Any missing or empty field gives 400 and an unchanged store. |
| AuthController.RegisterDuplicateEmail | backend/src/controllers/authController.ts:23-29 | A known email gives 400 "User already exists", with no account and no profile added. |
| AuthController.RegisterCreates | backend/src/controllers/authController.ts:32-56 | Success adds exactly one account with a fresh email and id, plus its new profile document. The reply carries the account and a token for its id. |
| AuthController.RegisterSucceeds | backend/src/controllers/authController.ts:10-56 | A complete body with an unused email and id, no failing store call and a configured secret gives 201: the new account's view, a token signed for its id, and the store grown by the account and its new profile. |
| AuthController.RegisterKeepsUserWhenProfileFails | backend/src/controllers/authController.ts:32-62 | A profile-insert throw gives 500, and the account stays without a profile. |
| AuthController.RegisterTokenResolves | backend/src/controllers/authController.ts:45-55 | The returned token verifies to the new account's id. |
| AuthController.RegisterPreservesConsistent | backend/src/controllers/authController.ts:22-42 | Emails and ids stay unique, and every profile stays valid and keyed by its user. |
| AuthController.RegisterThenLogin | backend/src/controllers/authController.ts:81-114 | After registering, a login with the same credentials returns the new account, its new profile and the same token. |
| AuthController.LoginRequiresCredentials | backend/src/controllers/authController.ts:73-78 | A missing email or password gives 400. |
| AuthController.LoginUniformFailure | backend/src/controllers/authController.ts:81-96 | An unknown email and a wrong password give the identical 401. Every 401 is one of these. |
| AuthController.LoginSucceeds | backend/src/controllers/authController.ts:68-114 | The first account with the email, an accepted password, no failing store call and a configured secret give 200: that account's view, its profile or null, and a token signed for its id. |
| AuthController.LoginTokenResolves | backend/src/controllers/authController.ts:102-113 | The login token verifies to the returned account's id. |
| AuthController.UpdateProfileUpserts | backend/src/controllers/authController.ts:164-175 | Consistency is kept. On success the caller has exactly one profile, the returned one, holding the supplied fields. |
| ProfileController.GetQuestionnaire | backend/src/controllers/profileController.ts:8-22 | The store is unchanged. A throw gives 500. Otherwise the reply is the caller's profile, or null iff none exists. |
| ProfileController.QuestionnaireUpdate | backend/src/controllers/profileController.ts:29-51 | The update holds exactly the eight named fields the body carries, with the body's values. |
| ProfileController.SaveQuestionnaire | backend/src/controllers/profileController.ts:27-65 | Users never change. A throw or failed validation gives 500 and writes nothing. Success upserts and returns the stored profile. |
| ProfileController.SaveWritesOnlyNamedFields | backend/src/controllers/profileController.ts:29-53 | Only the eight fields of the caller's profile change, and other profiles are untouched. |
| ProfileController.SaveKeepsProgress | backend/src/controllers/profileController.ts:40-53 | A stored currentStep and completedSteps are never moved. |
| ProfileController.FirstSaveStartsProgress | backend/src/controllers/profileController.ts:40-53 | A first save creates the profile at step 1 with no completed steps. |
| ProfileController.SaveRejectsUnknownStudyLevel | backend/src/controllers/profileController.ts:52 | A studyLevel outside its domain gives 500 and writes nothing. |
| ProfileController.SavePreservesConsistent | backend/src/controllers/profileController.ts:40-58 | Consistency is kept. After success the caller has exactly one profile. |
| ProfileController.SaveThenGet | backend/src/controllers/profileController.ts:10-15 | The next lookup returns what a save returned. |

## Left out

- AuthContext.NameOr: only string names are read. `updateProfile` (`contexts/AuthContext.tsx:144-145`) writes a truthy non-string `firstName` or `lastName`, such as a number, into the user as it is. The model treats it as absent and keeps the current name.
- AuthContext.SignIn, AuthContext.SignUp, AuthContext.UpdateProfile: the source throws when `registeredUsers` is not a JSON list or does not parse. It fails at `.find` (`contexts/AuthContext.tsx:57-58`), at `.push` (`:111-112`, after `user` was already written at `:107`) and at `.findIndex` (`:161-162`). The model reads such a value as an empty registry instead: `SignIn` chooses the demo user, `SignUp` overwrites the registry with the new user alone, and `UpdateProfile` leaves it as it is. Other unparsable items likewise read as absent.
- The `useEffect` session restore, `isLoading`, React rendering and the `useAuth` guard are left out. They are UI plumbing with no decision logic.
- `ApiClient.Normalise`: the base URL, the fetch itself and `console.error` are left out. The fetch outcome is an input. A JSON body is a `Document` (an object), so a top-level JSON array or scalar is not modelled.
- The `ApiService` endpoint wrappers (`register`, `login`, `getQuestionnaireProgress`, …) are left out. Each is only a call to `request` with a fixed path.
- The questionnaire step machine (`saveQuestionnaireStep`, `getQuestionnaireProgress`, `completeQuestionnaire`) is left out. The route table imports it, but `profileController.ts` does not define it, and that code is not part of this model.
- `backend/src/server.ts`, the route files and the `protect` middleware are left out. The caller's id is an input to the protected handlers.
- The User model is not part of this model. `comparePassword` is an input predicate. Password hashing and the User schema's own validators and indexes are left out, and so are the names `updateProfile` writes through `runValidators`.
- `AuthController.Register`: the password is stored as given. Hashing happens in the User model, which is not part of this model.
- `AuthController.GetProfile`: `createdAt` is left out of the account view. Timestamps are not modelled.
- `AuthController.UpdateProfile`: the reply's account is the public view, not the whole `toObject()` spread, which adds timestamps and `__v`.
- AuthController.Register, AuthController.Login: request fields are strings or missing. A JSON body can carry other types. An email such as `{"$ne": null}` reaches `User.findOne` (`backend/src/controllers/authController.ts:23`, `:81`) as a query operator: `register` then answers "User already exists", and `login` picks the first account, subject to the password check. This is not modelled.
- AuthController.UpdateProfile, AuthController.Rename, AuthController.BasicInfo: body fields are strings or missing. The handler (`backend/src/controllers/authController.ts:155-175`) passes whatever JSON arrived to `findByIdAndUpdate` and `findOneAndUpdate`. A `null` field is written as `null`. A number or boolean is cast to its string form. Neither is modelled.
- ApplicationModel.Violations, ApplicationModel.Create: JSON numbers are integers throughout. The schema accepts a fractional progress such as 50.5 and rejects 100.5; neither is modelled. Floating-point `availableFunds` and `NaN`, which is falsy, are left out too.
- ServerStore.Upsert, AuthController.Rename, AuthController.BasicInfo: these assume Mongoose 6 or later. There an update drops keys whose value is `undefined`, and an upsert's insert applies the schema defaults. Under Mongoose 5 an `undefined` value was written as `null`, and defaults were not applied on insert.
- UserProfileModel.Decode: a value of the wrong JSON type or outside its domain reads as unset. It does not fail to cast.
- Mongoose casting is left out. A value of the wrong JSON type, such as a string for `availableFunds`, is written as-is rather than failing to cast.
- `ProfileController.SaveQuestionnaire`: strict-mode dropping of keys that are not schema paths is left out. All eight named fields are written as-is, although five of them are not paths of the schema.
- `ProfileController.SaveQuestionnaire`: the validation error's message is shortened to its fixed prefix "Validation failed".
- `ServerStore.DuplicateKeyError`: MongoDB's duplicate-key message is shortened to its fixed prefix.
- Schema timestamps (`createdAt`/`updatedAt`) and `Date` values as such are left out. Client dates are integers from the clock input.
- Concurrency is left out. Each handler runs alone against one store value, so races between requests are not modelled.
- JWT cryptography and expiry are left out. `sign`/`verify` form an oracle. Their round trip appears only as the hypothesis of `Jwt.IssuedTokenResolves`, `AuthController.RegisterTokenResolves` and `AuthController.LoginTokenResolves`.

## Findings

| source | as written | input that shows it | evidently intended | confidence | as-written member | corrected member |
|---|---|---|---|---|---|---|
| contexts/AuthContext.tsx:133-136 | `{userId: user.id, ...profile, ...profileData}` puts `userId` first, so a `userId` in the current profile overrides the current user's id | the demo user (id "1") saves a profile, then signs up without signing out (`SignUp` keeps the profile, new id "5"), then updates the profile: `profile_5` holds `userId: "1"` | the profile stored under `profile_<id>` names user `id` | not executed | AuthContext.UpdateProfile | AuthContext.UpdateProfileCorrected |

`AuthContext.UpdateProfile` follows the source, through `AuthContext.MergedProfileAsWritten`. `AuthContext.SignUpKeepsStaleOwner` runs the input through the real operations. `AuthContext.UpdateProfileCorrected` differs only in using `AuthContext.MergedProfile`, which puts `userId` last, and `AuthContext.UpdateProfileStoresOwnProfile` proves the intended property for it. The stale profile's other fields still carry over to the new user in both.
