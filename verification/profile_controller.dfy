/** The questionnaire handlers (backend/src/controllers/profileController.ts):
    a lookup of the caller's profile, and an upsert of a fixed set of eight
    body fields into it. */
module ProfileController {
  import opened Common
  import opened Json
  import opened UserProfileModel
  import opened ServerStore

  /** The eight body fields `saveQuestionnaire` writes. Five of them
      (`englishTest`, `englishScore`, `visaRefusal`, `studyStartDate`,
      `educationLevel`) are not paths of the profile schema. */
  const QuestionnaireFields: set<string> := {
    "fieldOfStudy", "studyLevel", "englishTest", "englishScore",
    "availableFunds", "visaRefusal", "studyStartDate", "educationLevel"
  }

  /** The message of the update validators' rejection, shortened to its
      fixed prefix. */
  const ValidationFailed := "Validation failed"

  /** `getQuestionnaire`: the caller's profile, or null when there is none. */
  function GetQuestionnaire(st: Store, fault: Fault, callerId: ObjectId): (o: Outcome)
    ensures o.store == st
    ensures Throws(fault, FindProfile) ==> o.reply == ServerFailure(fault.message)
    ensures !Throws(fault, FindProfile) ==>
      && o.reply.ProfileReply?
      && (o.reply.profile.Some? <==> callerId in st.profiles)
      && (o.reply.profile.Some? ==> o.reply.profile.value == st.profiles[callerId])
  {
    if Throws(fault, FindProfile) then Outcome(ServerFailure(fault.message), st)
    else if callerId in st.profiles then Outcome(ProfileReply(Some(st.profiles[callerId])), st)
    else Outcome(ProfileReply(None), st)
  }

  /** The update `saveQuestionnaire` sends: the body's values of the eight
      fields it names; a field the body leaves out is not part of it. */
  function QuestionnaireUpdate(body: Document): (update: Document)
    ensures update.Keys == body.Keys * QuestionnaireFields
    ensures forall k :: k in update ==> update[k] == body[k]
  {
    map k | k in body && k in QuestionnaireFields :: body[k]
  }

  /** `saveQuestionnaire`: upsert the update into the caller's profile with
      the update validators on; any failure is a 500 and writes nothing. */
  function SaveQuestionnaire(st: Store, fault: Fault, callerId: ObjectId, body: Document): (o: Outcome)
    ensures o.store.users == st.users
    ensures o.reply.Failed? || o.reply.ProfileReply?
    ensures o.reply.Failed? ==> o.reply.status == 500 && o.reply.error != "" && o.store == st
    ensures Throws(fault, WriteProfile) ==> o.reply == ServerFailure(fault.message)
    ensures !Throws(fault, WriteProfile) ==> (o.reply.Failed? <==> !PathsValid(QuestionnaireUpdate(body)))
    ensures o.reply.ProfileReply? ==>
      && o.store.profiles == Upsert(st.profiles, callerId, QuestionnaireUpdate(body))
      && o.reply.profile == Some(o.store.profiles[callerId])
  {
    var update := QuestionnaireUpdate(body);
    if Throws(fault, WriteProfile) then Outcome(ServerFailure(fault.message), st)
    else if !PathsValid(update) then Outcome(ServerFailure(ValidationFailed), st)
    else
      var profiles := Upsert(st.profiles, callerId, update);
      Outcome(ProfileReply(Some(profiles[callerId])), st.(profiles := profiles))
  }

  // ---------------------------------------------------------------------------
  // Properties.

  /** A save touches only the eight named fields of the caller's profile:
      every other field, `currentStep` and `completedSteps` among them, keeps
      its stored value, or its schema default when the profile is new; every
      other user's profile is untouched. */
  lemma SaveWritesOnlyNamedFields(st: Store, fault: Fault, callerId: ObjectId, body: Document)
    requires !Throws(fault, WriteProfile) && PathsValid(QuestionnaireUpdate(body))
    ensures var o := SaveQuestionnaire(st, fault, callerId, body);
      var before := if callerId in st.profiles then st.profiles[callerId] else NewDocument(callerId);
      && (forall k :: k in st.profiles && k != callerId ==> o.store.profiles[k] == st.profiles[k])
      && (forall f :: f in before && f !in QuestionnaireFields ==>
            f in o.store.profiles[callerId] && o.store.profiles[callerId][f] == before[f])
      && (forall f :: f in body && f in QuestionnaireFields ==>
            f in o.store.profiles[callerId] && o.store.profiles[callerId][f] == body[f])
      && o.store.profiles[callerId].Keys == before.Keys + body.Keys * QuestionnaireFields
  {
  }

  /** The progress fields are outside the update: a save never moves a
      stored `currentStep` or `completedSteps`. */
  lemma SaveKeepsProgress(st: Store, fault: Fault, callerId: ObjectId, body: Document)
    requires !Throws(fault, WriteProfile) && PathsValid(QuestionnaireUpdate(body))
    requires callerId in st.profiles
    ensures var saved := SaveQuestionnaire(st, fault, callerId, body).store.profiles[callerId];
      && ("currentStep" in st.profiles[callerId] ==>
            "currentStep" in saved && saved["currentStep"] == st.profiles[callerId]["currentStep"])
      && ("completedSteps" in st.profiles[callerId] ==>
            "completedSteps" in saved && saved["completedSteps"] == st.profiles[callerId]["completedSteps"])
  {
    var update := QuestionnaireUpdate(body);
    assert "currentStep" !in update && "completedSteps" !in update;
  }

  /** A first save creates the profile with the progress fields at the
      schema defaults: step 1 and no completed steps. */
  lemma FirstSaveStartsProgress(st: Store, fault: Fault, callerId: ObjectId, body: Document)
    requires !Throws(fault, WriteProfile) && PathsValid(QuestionnaireUpdate(body))
    requires callerId !in st.profiles
    ensures var saved := SaveQuestionnaire(st, fault, callerId, body).store.profiles[callerId];
      saved["currentStep"] == Num(1) && saved["completedSteps"] == Arr([])
  {
    var update := QuestionnaireUpdate(body);
    assert "currentStep" !in update && "completedSteps" !in update;
    assert SaveQuestionnaire(st, fault, callerId, body).store.profiles == Upsert(st.profiles, callerId, update);
    UpsertStartsProgress(st.profiles, callerId, update);
  }

  /** Inserting a profile through an upsert that leaves the progress fields
      alone starts it at step 1 with no completed steps. */
  lemma UpsertStartsProgress(profiles: map<ObjectId, Document>, userId: ObjectId, fields: Document)
    requires userId !in profiles
    requires "currentStep" !in fields && "completedSteps" !in fields
    ensures Upsert(profiles, userId, fields)[userId]["currentStep"] == Num(1)
    ensures Upsert(profiles, userId, fields)[userId]["completedSteps"] == Arr([])
  {
    NewDocumentProgress(userId);
  }

  /** A `studyLevel` outside its domain is refused by the update validators,
      with nothing written. */
  lemma SaveRejectsUnknownStudyLevel(st: Store, fault: Fault, callerId: ObjectId, body: Document, s: string)
    requires !Throws(fault, WriteProfile)
    requires "studyLevel" in body && body["studyLevel"] == Str(s) && s !in StudyLevelNames
    ensures SaveQuestionnaire(st, fault, callerId, body) == Outcome(Failed(500, ValidationFailed), st)
  {
    var update := QuestionnaireUpdate(body);
    assert update["studyLevel"] == Str(s);
  }

  /** A save keeps the store consistent; after a successful one the caller
      has exactly one profile, the one returned. */
  lemma SavePreservesConsistent(st: Store, fault: Fault, callerId: ObjectId, body: Document)
    requires Consistent(st)
    ensures var o := SaveQuestionnaire(st, fault, callerId, body);
      && Consistent(o.store)
      && (o.reply.ProfileReply? ==>
            && callerId in o.store.profiles
            && (forall k :: k in o.store.profiles && o.store.profiles[k]["userId"] == Str(callerId) ==> k == callerId))
  {
    var update := QuestionnaireUpdate(body);
    if !Throws(fault, WriteProfile) && PathsValid(update) {
      assert "userId" !in update;
      UpsertKeepsProfiles(st.profiles, callerId, update);
    }
  }

  /** What a save returns is what the next lookup finds. */
  lemma SaveThenGet(st: Store, fault: Fault, callerId: ObjectId, body: Document)
    requires !Throws(fault, WriteProfile) && PathsValid(QuestionnaireUpdate(body))
    requires !Throws(fault, FindProfile)
    ensures var o := SaveQuestionnaire(st, fault, callerId, body);
      GetQuestionnaire(o.store, fault, callerId).reply == o.reply
  {
  }
}
