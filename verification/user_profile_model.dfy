/** The user profile schema (backend/src/models/UserProfile.ts): the typed
    record with its enumerated domains and defaults, its stored document
    form, and the validators the schema runs on documents and updates. */
module UserProfileModel {
  import opened Common
  import opened Json

  datatype StudyLevel = Masters | Bachelors | Diploma {
    function Name(): string {
      match this
      case Masters => "masters"
      case Bachelors => "bachelors"
      case Diploma => "diploma"
    }
  }
  const StudyLevelNames: set<string> := {"masters", "bachelors", "diploma"}

  datatype ExamType = Ielts | Toefl | Pte | Duolingo | OtherExam {
    function Name(): string {
      match this
      case Ielts => "IELTS"
      case Toefl => "TOEFL"
      case Pte => "PTE"
      case Duolingo => "Duolingo"
      case OtherExam => "Other"
    }
  }
  const ExamTypeNames: set<string> := {"IELTS", "TOEFL", "PTE", "Duolingo", "Other"}

  datatype ProficiencyLevel = Beginner | Intermediate | Advanced | Native {
    function Name(): string {
      match this
      case Beginner => "Beginner"
      case Intermediate => "Intermediate"
      case Advanced => "Advanced"
      case Native => "Native"
    }
  }
  const ProficiencyLevelNames: set<string> := {"Beginner", "Intermediate", "Advanced", "Native"}

  datatype HighestLevel = Graduated | Studying {
    function Name(): string {
      match this
      case Graduated => "graduated"
      case Studying => "studying"
    }
  }
  const HighestLevelNames: set<string> := {"graduated", "studying"}

  datatype EducationLevel = Primary | Secondary | Undergraduate | Postgraduate {
    function Name(): string {
      match this
      case Primary => "primary"
      case Secondary => "secondary"
      case Undergraduate => "undergraduate"
      case Postgraduate => "postgraduate"
    }
  }
  const EducationLevelNames: set<string> := {"primary", "secondary", "undergraduate", "postgraduate"}

  datatype StandardizedTest = Gmat | Gre | NoTest {
    function Name(): string {
      match this
      case Gmat => "GMAT"
      case Gre => "GRE"
      case NoTest => "None"
    }
  }
  const StandardizedTestNames: set<string> := {"GMAT", "GRE", "None"}

  /** The string a validator accepts for a study level names exactly one level. */
  function ParseStudyLevel(s: string): (r: Option<StudyLevel>)
    ensures r.Some? <==> s in StudyLevelNames
    ensures r.Some? ==> r.value.Name() == s
  {
    if s == "masters" then Some(Masters)
    else if s == "bachelors" then Some(Bachelors)
    else if s == "diploma" then Some(Diploma)
    else None
  }

  /** The value a stored name denotes; `None` outside the domain. */
  function ParseExamType(s: string): (r: Option<ExamType>)
    ensures r.Some? <==> s in ExamTypeNames
    ensures r.Some? ==> r.value.Name() == s
  {
    if s == "IELTS" then Some(Ielts)
    else if s == "TOEFL" then Some(Toefl)
    else if s == "PTE" then Some(Pte)
    else if s == "Duolingo" then Some(Duolingo)
    else if s == "Other" then Some(OtherExam)
    else None
  }

  /** The value a stored name denotes; `None` outside the domain. */
  function ParseProficiencyLevel(s: string): (r: Option<ProficiencyLevel>)
    ensures r.Some? <==> s in ProficiencyLevelNames
    ensures r.Some? ==> r.value.Name() == s
  {
    if s == "Beginner" then Some(Beginner)
    else if s == "Intermediate" then Some(Intermediate)
    else if s == "Advanced" then Some(Advanced)
    else if s == "Native" then Some(Native)
    else None
  }

  /** The value a stored name denotes; `None` outside the domain. */
  function ParseHighestLevel(s: string): (r: Option<HighestLevel>)
    ensures r.Some? <==> s in HighestLevelNames
    ensures r.Some? ==> r.value.Name() == s
  {
    if s == "graduated" then Some(Graduated)
    else if s == "studying" then Some(Studying)
    else None
  }

  /** The value a stored name denotes; `None` outside the domain. */
  function ParseEducationLevel(s: string): (r: Option<EducationLevel>)
    ensures r.Some? <==> s in EducationLevelNames
    ensures r.Some? ==> r.value.Name() == s
  {
    if s == "primary" then Some(Primary)
    else if s == "secondary" then Some(Secondary)
    else if s == "undergraduate" then Some(Undergraduate)
    else if s == "postgraduate" then Some(Postgraduate)
    else None
  }

  /** The value a stored name denotes; `None` outside the domain. */
  function ParseStandardizedTest(s: string): (r: Option<StandardizedTest>)
    ensures r.Some? <==> s in StandardizedTestNames
    ensures r.Some? ==> r.value.Name() == s
  {
    if s == "GMAT" then Some(Gmat)
    else if s == "GRE" then Some(Gre)
    else if s == "None" then Some(NoTest)
    else None
  }

  /** Each enumeration value is what its stored name parses back to. */
  lemma ParseNames()
    ensures forall x: StudyLevel :: ParseStudyLevel(x.Name()) == Some(x)
    ensures forall x: ExamType :: ParseExamType(x.Name()) == Some(x)
    ensures forall x: ProficiencyLevel :: ParseProficiencyLevel(x.Name()) == Some(x)
    ensures forall x: HighestLevel :: ParseHighestLevel(x.Name()) == Some(x)
    ensures forall x: EducationLevel :: ParseEducationLevel(x.Name()) == Some(x)
    ensures forall x: StandardizedTest :: ParseStandardizedTest(x.Name()) == Some(x)
  {
  }

  /** Each enumeration's names are exactly its schema domain, one name per value. */
  lemma EnumDomains()
    ensures forall x: StudyLevel :: x.Name() in StudyLevelNames
    ensures forall x: ExamType :: x.Name() in ExamTypeNames
    ensures forall x: ProficiencyLevel :: x.Name() in ProficiencyLevelNames
    ensures forall x: HighestLevel :: x.Name() in HighestLevelNames
    ensures forall x: EducationLevel :: x.Name() in EducationLevelNames
    ensures forall x: StandardizedTest :: x.Name() in StandardizedTestNames
    ensures forall x: StudyLevel, y: StudyLevel :: x.Name() == y.Name() ==> x == y
    ensures forall x: ExamType, y: ExamType :: x.Name() == y.Name() ==> x == y
    ensures forall x: ProficiencyLevel, y: ProficiencyLevel :: x.Name() == y.Name() ==> x == y
    ensures forall x: HighestLevel, y: HighestLevel :: x.Name() == y.Name() ==> x == y
    ensures forall x: EducationLevel, y: EducationLevel :: x.Name() == y.Name() ==> x == y
    ensures forall x: StandardizedTest, y: StandardizedTest :: x.Name() == y.Name() ==> x == y
  {
  }

  datatype EnglishProficiency = EnglishProficiency(
    hasTestResults: bool,
    examType: Option<ExamType>,
    examScore: Option<string>,
    proficiencyLevel: Option<ProficiencyLevel>)

  datatype VisaRefusalHistory = VisaRefusalHistory(hasBeenRefused: bool, details: Option<string>)

  datatype Education = Education(
    highestLevel: Option<HighestLevel>,
    country: Option<string>,
    level: Option<EducationLevel>,
    grade: Option<string>,
    details: Option<string>)

  /** A profile as the schema types it. Dates are milliseconds since the epoch. */
  datatype UserProfile = UserProfile(
    userId: string,
    phone: Option<string>,
    dateOfBirth: Option<string>,
    address: Option<string>,
    bio: Option<string>,
    fieldOfStudy: Option<string>,
    studyLevel: Option<StudyLevel>,
    nationality: Option<string>,
    englishProficiency: EnglishProficiency,
    availableFunds: Option<int>,
    visaRefusalHistory: VisaRefusalHistory,
    intendedStartDate: Option<int>,
    education: Option<Education>,
    standardizedTests: seq<StandardizedTest>,
    currentStep: int,
    completedSteps: seq<int>)

  /** The profile a new document for `userId` starts as: every optional field
      unset, both nested flags false, no tests, step 1, no completed steps. */
  function Default(userId: string): UserProfile {
    UserProfile(userId, None, None, None, None, None, None, None,
                EnglishProficiency(false, None, None, None), None,
                VisaRefusalHistory(false, None), None, None, [], 1, [])
  }

  // ---------------------------------------------------------------------------
  // Stored form.

  /** `{k: v}` when the value is set, `{}` otherwise. */
  function Entry(k: string, v: Option<Value>): (d: Document)
    ensures v.Some? ==> d == map[k := v.value]
    ensures v.None? ==> d == map[]
  {
    if v.Some? then map[k := v.value] else map[]
  }

  function StrOf(o: Option<string>): Option<Value> {
    if o.Some? then Some(Str(o.value)) else None
  }

  function EncodeEnglish(e: EnglishProficiency): Document {
    map["hasTestResults" := Bool(e.hasTestResults)]
    + Entry("examType", if e.examType.Some? then Some(Str(e.examType.value.Name())) else None)
    + Entry("examScore", StrOf(e.examScore))
    + Entry("proficiencyLevel", if e.proficiencyLevel.Some? then Some(Str(e.proficiencyLevel.value.Name())) else None)
  }

  function EncodeVisa(v: VisaRefusalHistory): Document {
    map["hasBeenRefused" := Bool(v.hasBeenRefused)] + Entry("details", StrOf(v.details))
  }

  function EncodeEducation(e: Education): Document {
    Entry("highestLevel", if e.highestLevel.Some? then Some(Str(e.highestLevel.value.Name())) else None)
    + Entry("country", StrOf(e.country))
    + Entry("level", if e.level.Some? then Some(Str(e.level.value.Name())) else None)
    + Entry("grade", StrOf(e.grade))
    + Entry("details", StrOf(e.details))
  }

  function EncodeTests(ts: seq<StandardizedTest>): (vs: seq<Value>)
    ensures |vs| == |ts|
    ensures forall i :: 0 <= i < |ts| ==> vs[i] == Str(ts[i].Name())
  {
    if |ts| == 0 then [] else [Str(ts[0].Name())] + EncodeTests(ts[1..])
  }

  function EncodeNums(ns: seq<int>): (vs: seq<Value>)
    ensures |vs| == |ns|
    ensures forall i :: 0 <= i < |ns| ==> vs[i] == Num(ns[i])
  {
    if |ns| == 0 then [] else [Num(ns[0])] + EncodeNums(ns[1..])
  }

  /** The top-level paths of the schema. */
  const ProfilePaths: set<string> := {
    "userId", "phone", "dateOfBirth", "address", "bio", "fieldOfStudy", "studyLevel", "nationality",
    "englishProficiency", "availableFunds", "visaRefusalHistory", "intendedStartDate", "education",
    "standardizedTests", "currentStep", "completedSteps"}

  /** The stored value of one path of a profile; `None` when it is unset. */
  function FieldOf(p: UserProfile, k: string): Option<Value> {
    if k == "userId" then Some(Str(p.userId))
    else if k == "phone" then StrOf(p.phone)
    else if k == "dateOfBirth" then StrOf(p.dateOfBirth)
    else if k == "address" then StrOf(p.address)
    else if k == "bio" then StrOf(p.bio)
    else if k == "fieldOfStudy" then StrOf(p.fieldOfStudy)
    else if k == "studyLevel" then (if p.studyLevel.Some? then Some(Str(p.studyLevel.value.Name())) else None)
    else if k == "nationality" then StrOf(p.nationality)
    else if k == "englishProficiency" then Some(Obj(EncodeEnglish(p.englishProficiency)))
    else if k == "availableFunds" then (if p.availableFunds.Some? then Some(Num(p.availableFunds.value)) else None)
    else if k == "visaRefusalHistory" then Some(Obj(EncodeVisa(p.visaRefusalHistory)))
    else if k == "intendedStartDate" then (if p.intendedStartDate.Some? then Some(Time(p.intendedStartDate.value)) else None)
    else if k == "education" then (if p.education.Some? then Some(Obj(EncodeEducation(p.education.value))) else None)
    else if k == "standardizedTests" then Some(Arr(EncodeTests(p.standardizedTests)))
    else if k == "currentStep" then Some(Num(p.currentStep))
    else if k == "completedSteps" then Some(Arr(EncodeNums(p.completedSteps)))
    else None
  }

  /** The stored document of a profile: one entry per set path. It passes
      every validator of the schema and belongs to the profile's user;
      `Decode` gives the profile back from it. */
  function Encode(p: UserProfile): (d: Document)
    ensures forall k :: k in d <==> k in ProfilePaths && FieldOf(p, k).Some?
    ensures forall k :: k in d ==> d[k] == FieldOf(p, k).value
    ensures Valid(d)
    ensures d["userId"] == Str(p.userId)
  {
    FieldsValid(p);
    map k | k in ProfilePaths && FieldOf(p, k).Some? :: FieldOf(p, k).value
  }

  // ---------------------------------------------------------------------------
  // Reading a stored document back as a typed profile, as a document is
  // hydrated: an unset path takes its default, and a value of the wrong JSON
  // type or outside its domain reads as unset.

  /** The string stored at `k`, if any. */
  function StrAt(d: Document, k: string): (r: Option<string>)
    ensures r.Some? <==> k in d && d[k].Str?
    ensures r.Some? ==> d[k] == Str(r.value)
  {
    if k in d && d[k].Str? then Some(d[k].s) else None
  }

  /** The enumeration value whose name is stored at `k`, if any. */
  function NameAt<T>(d: Document, k: string, parse: string -> Option<T>): Option<T> {
    if k in d && d[k].Str? then parse(d[k].s) else None
  }

  function FlagAt(d: Document, k: string): bool {
    k in d && d[k] == Bool(true)
  }

  function NumAt(d: Document, k: string): Option<int> {
    if k in d && d[k].Num? then Some(d[k].n) else None
  }

  function TimeAt(d: Document, k: string): Option<int> {
    if k in d && d[k].Time? then Some(d[k].ms) else None
  }

  function ObjAt(d: Document, k: string): Document {
    if k in d && d[k].Obj? then d[k].fields else map[]
  }

  function ArrAt(d: Document, k: string): seq<Value> {
    if k in d && d[k].Arr? then d[k].items else []
  }

  function DecodeEnglish(f: Document): EnglishProficiency {
    EnglishProficiency(FlagAt(f, "hasTestResults"), NameAt(f, "examType", ParseExamType),
                       StrAt(f, "examScore"), NameAt(f, "proficiencyLevel", ParseProficiencyLevel))
  }

  function DecodeVisa(f: Document): VisaRefusalHistory {
    VisaRefusalHistory(FlagAt(f, "hasBeenRefused"), StrAt(f, "details"))
  }

  function DecodeEducation(f: Document): Education {
    Education(NameAt(f, "highestLevel", ParseHighestLevel), StrAt(f, "country"),
              NameAt(f, "level", ParseEducationLevel), StrAt(f, "grade"), StrAt(f, "details"))
  }

  /** The tests named in a stored list; other elements are skipped. */
  function DecodeTests(vs: seq<Value>): (ts: seq<StandardizedTest>)
    ensures |ts| <= |vs|
  {
    if |vs| == 0 then []
    else
      var rest := DecodeTests(vs[1..]);
      if vs[0].Str? && ParseStandardizedTest(vs[0].s).Some? then [ParseStandardizedTest(vs[0].s).value] + rest
      else rest
  }

  /** The numbers in a stored list; other elements are skipped. */
  function DecodeNums(vs: seq<Value>): (ns: seq<int>)
    ensures |ns| <= |vs|
  {
    if |vs| == 0 then []
    else
      var rest := DecodeNums(vs[1..]);
      if vs[0].Num? then [vs[0].n] + rest else rest
  }

  /** The typed profile a stored document reads as. */
  function Decode(d: Document): UserProfile {
    UserProfile(
      StrAt(d, "userId").OrElse(""),
      StrAt(d, "phone"), StrAt(d, "dateOfBirth"), StrAt(d, "address"), StrAt(d, "bio"),
      StrAt(d, "fieldOfStudy"), NameAt(d, "studyLevel", ParseStudyLevel), StrAt(d, "nationality"),
      DecodeEnglish(ObjAt(d, "englishProficiency")),
      NumAt(d, "availableFunds"),
      DecodeVisa(ObjAt(d, "visaRefusalHistory")),
      TimeAt(d, "intendedStartDate"),
      if "education" in d && d["education"].Obj? then Some(DecodeEducation(d["education"].fields)) else None,
      DecodeTests(ArrAt(d, "standardizedTests")),
      NumAt(d, "currentStep").OrElse(1),
      DecodeNums(ArrAt(d, "completedSteps")))
  }

  /** The document a new profile of `userId` is inserted as. */
  function NewDocument(userId: string): Document {
    Encode(Default(userId))
  }

  // ---------------------------------------------------------------------------
  // Validators.

  /** The paths that carry a validator. */
  const ValidatedPaths: set<string> := {"studyLevel", "englishProficiency", "education", "standardizedTests"}

  /** An enumerated path accepts an unset value, null, or a name from its domain. */
  predicate EnumOk(d: Document, k: string, names: set<string>) {
    k !in d || d[k].Null? || (d[k].Str? && d[k].s in names)
  }

  predicate EnglishOk(f: Document) {
    EnumOk(f, "examType", ExamTypeNames) && EnumOk(f, "proficiencyLevel", ProficiencyLevelNames)
  }

  predicate EducationOk(f: Document) {
    EnumOk(f, "highestLevel", HighestLevelNames) && EnumOk(f, "level", EducationLevelNames)
  }

  predicate TestsOk(items: seq<Value>) {
    forall i :: 0 <= i < |items| ==> items[i].Null? || (items[i].Str? && items[i].s in StandardizedTestNames)
  }

  /** The schema's validators on the paths present in `d` (a whole document,
      or the fields of an update): every enumerated path, nested or not, and
      every element of `standardizedTests`, lies in its domain. */
  predicate PathsValid(d: Document) {
    && EnumOk(d, "studyLevel", StudyLevelNames)
    && ("englishProficiency" !in d || d["englishProficiency"].Null? ||
        (d["englishProficiency"].Obj? && EnglishOk(d["englishProficiency"].fields)))
    && ("education" !in d || d["education"].Null? ||
        (d["education"].Obj? && EducationOk(d["education"].fields)))
    && ("standardizedTests" !in d || d["standardizedTests"].Null? ||
        (d["standardizedTests"].Arr? && TestsOk(d["standardizedTests"].items)))
  }

  /** A stored profile document: `userId` is required, and every path is valid.
      `currentStep` and `completedSteps` carry no bound. */
  predicate Valid(d: Document) {
    "userId" in d && d["userId"].Str? && PathsValid(d)
  }

  // ---------------------------------------------------------------------------
  // Properties.

  lemma EnglishValid(e: EnglishProficiency)
    ensures EnglishOk(EncodeEnglish(e))
  {
    var f := EncodeEnglish(e);
    if e.examType.Some? {
      assert f["examType"] == Str(e.examType.value.Name());
      assert e.examType.value.Name() in ExamTypeNames;
    } else {
      assert "examType" !in f;
    }
    if e.proficiencyLevel.Some? {
      assert f["proficiencyLevel"] == Str(e.proficiencyLevel.value.Name());
      assert e.proficiencyLevel.value.Name() in ProficiencyLevelNames;
    } else {
      assert "proficiencyLevel" !in f;
    }
  }

  lemma EducationValid(e: Education)
    ensures EducationOk(EncodeEducation(e))
  {
    var f := EncodeEducation(e);
    if e.highestLevel.Some? {
      assert f["highestLevel"] == Str(e.highestLevel.value.Name());
      assert e.highestLevel.value.Name() in HighestLevelNames;
    } else {
      assert "highestLevel" !in f;
    }
    if e.level.Some? {
      assert f["level"] == Str(e.level.value.Name());
      assert e.level.value.Name() in EducationLevelNames;
    } else {
      assert "level" !in f;
    }
  }

  lemma TestsValid(ts: seq<StandardizedTest>)
    ensures TestsOk(EncodeTests(ts))
  {
    forall i | 0 <= i < |ts|
      ensures ts[i].Name() in StandardizedTestNames
    {
    }
  }

  /** The stored value of every validated path of a profile passes its
      validator. */
  lemma FieldsValid(p: UserProfile)
    ensures FieldOf(p, "studyLevel").Some? ==>
      FieldOf(p, "studyLevel").value.Str? && FieldOf(p, "studyLevel").value.s in StudyLevelNames
    ensures FieldOf(p, "englishProficiency").Some? && FieldOf(p, "englishProficiency").value.Obj?
    ensures EnglishOk(FieldOf(p, "englishProficiency").value.fields)
    ensures FieldOf(p, "education").Some? ==>
      FieldOf(p, "education").value.Obj? && EducationOk(FieldOf(p, "education").value.fields)
    ensures FieldOf(p, "standardizedTests").Some? && FieldOf(p, "standardizedTests").value.Arr?
    ensures TestsOk(FieldOf(p, "standardizedTests").value.items)
  {
    EnglishValid(p.englishProficiency);
    TestsValid(p.standardizedTests);
    if p.education.Some? {
      EducationValid(p.education.value);
    }
  }

  lemma {:induction false} DecodeTestsEncode(ts: seq<StandardizedTest>)
    ensures DecodeTests(EncodeTests(ts)) == ts
  {
    if |ts| > 0 {
      var vs := EncodeTests(ts);
      assert vs[1..] == EncodeTests(ts[1..]);
      DecodeTestsEncode(ts[1..]);
      assert ParseStandardizedTest(ts[0].Name()) == Some(ts[0]) by { ParseNames(); }
      assert [ts[0]] + ts[1..] == ts;
    }
  }

  lemma {:induction false} DecodeNumsEncode(ns: seq<int>)
    ensures DecodeNums(EncodeNums(ns)) == ns
  {
    if |ns| > 0 {
      var vs := EncodeNums(ns);
      assert vs[1..] == EncodeNums(ns[1..]);
      DecodeNumsEncode(ns[1..]);
      assert [ns[0]] + ns[1..] == ns;
    }
  }

  lemma DecodeEnglishEncode(e: EnglishProficiency)
    ensures DecodeEnglish(EncodeEnglish(e)) == e
  {
    ParseNames();
    var f := EncodeEnglish(e);
    if e.examType.Some? {
      assert f["examType"] == Str(e.examType.value.Name());
    } else {
      assert "examType" !in f;
    }
    if e.examScore.Some? {
      assert f["examScore"] == Str(e.examScore.value);
    } else {
      assert "examScore" !in f;
    }
    if e.proficiencyLevel.Some? {
      assert f["proficiencyLevel"] == Str(e.proficiencyLevel.value.Name());
    } else {
      assert "proficiencyLevel" !in f;
    }
  }

  lemma DecodeEducationLevels(e: Education)
    ensures DecodeEducation(EncodeEducation(e)).highestLevel == e.highestLevel
    ensures DecodeEducation(EncodeEducation(e)).level == e.level
  {
    ParseNames();
    var f := EncodeEducation(e);
    if e.highestLevel.Some? {
      assert f["highestLevel"] == Str(e.highestLevel.value.Name());
    } else {
      assert "highestLevel" !in f;
    }
    if e.level.Some? {
      assert f["level"] == Str(e.level.value.Name());
    } else {
      assert "level" !in f;
    }
  }

  lemma DecodeEducationText(e: Education)
    ensures DecodeEducation(EncodeEducation(e)).country == e.country
    ensures DecodeEducation(EncodeEducation(e)).grade == e.grade
    ensures DecodeEducation(EncodeEducation(e)).details == e.details
  {
    var f := EncodeEducation(e);
    if e.country.Some? { assert f["country"] == Str(e.country.value); } else { assert "country" !in f; }
    if e.grade.Some? { assert f["grade"] == Str(e.grade.value); } else { assert "grade" !in f; }
    if e.details.Some? { assert f["details"] == Str(e.details.value); } else { assert "details" !in f; }
  }

  lemma DecodeEducationEncode(e: Education)
    ensures DecodeEducation(EncodeEducation(e)) == e
  {
    DecodeEducationLevels(e);
    DecodeEducationText(e);
  }

  lemma DecodeEncodeText(p: UserProfile)
    ensures var q := Decode(Encode(p));
      && q.userId == p.userId && q.phone == p.phone && q.dateOfBirth == p.dateOfBirth
      && q.address == p.address && q.bio == p.bio && q.fieldOfStudy == p.fieldOfStudy
      && q.studyLevel == p.studyLevel && q.nationality == p.nationality
  {
    var d := Encode(p);
    ParseNames();
    assert FieldOf(p, "phone") == StrOf(p.phone);
    assert FieldOf(p, "dateOfBirth") == StrOf(p.dateOfBirth);
    assert FieldOf(p, "address") == StrOf(p.address);
    assert FieldOf(p, "bio") == StrOf(p.bio);
    assert FieldOf(p, "fieldOfStudy") == StrOf(p.fieldOfStudy);
    assert FieldOf(p, "nationality") == StrOf(p.nationality);
    assert FieldOf(p, "studyLevel") == if p.studyLevel.Some? then Some(Str(p.studyLevel.value.Name())) else None;
  }

  lemma DecodeVisaEncode(v: VisaRefusalHistory)
    ensures DecodeVisa(EncodeVisa(v)) == v
  {
    var f := EncodeVisa(v);
    if v.details.Some? {
      assert f["details"] == Str(v.details.value);
    } else {
      assert "details" !in f;
    }
  }

  lemma DecodeEncodeNested(p: UserProfile)
    ensures var q := Decode(Encode(p));
      && q.englishProficiency == p.englishProficiency
      && q.visaRefusalHistory == p.visaRefusalHistory
      && q.education == p.education
  {
    var d := Encode(p);
    assert d["englishProficiency"] == Obj(EncodeEnglish(p.englishProficiency));
    assert d["visaRefusalHistory"] == Obj(EncodeVisa(p.visaRefusalHistory));
    DecodeEnglishEncode(p.englishProficiency);
    DecodeVisaEncode(p.visaRefusalHistory);
    if p.education.Some? {
      assert d["education"] == Obj(EncodeEducation(p.education.value));
      DecodeEducationEncode(p.education.value);
    } else {
      assert "education" !in d;
    }
  }

  lemma DecodeEncodeNumbers(p: UserProfile)
    ensures var q := Decode(Encode(p));
      && q.availableFunds == p.availableFunds && q.intendedStartDate == p.intendedStartDate
      && q.standardizedTests == p.standardizedTests
      && q.currentStep == p.currentStep && q.completedSteps == p.completedSteps
  {
    var d := Encode(p);
    assert FieldOf(p, "availableFunds") == if p.availableFunds.Some? then Some(Num(p.availableFunds.value)) else None;
    assert FieldOf(p, "intendedStartDate") ==
      if p.intendedStartDate.Some? then Some(Time(p.intendedStartDate.value)) else None;
    assert FieldOf(p, "standardizedTests") == Some(Arr(EncodeTests(p.standardizedTests)));
    assert FieldOf(p, "currentStep") == Some(Num(p.currentStep));
    assert FieldOf(p, "completedSteps") == Some(Arr(EncodeNums(p.completedSteps)));
    DecodeTestsEncode(p.standardizedTests);
    DecodeNumsEncode(p.completedSteps);
  }

  /** The stored form loses nothing: reading back the document a profile is
      stored as gives the same profile. */
  lemma {:induction false} DecodeEncode(p: UserProfile)
    ensures Decode(Encode(p)) == p
  {
    DecodeEncodeText(p);
    DecodeEncodeNested(p);
    DecodeEncodeNumbers(p);
  }

  /** A new document is valid, belongs to its user, starts at step 1 with no
      completed steps, and has both nested flags false. */
  lemma NewDocumentDefaults(userId: string)
    ensures Valid(NewDocument(userId))
    ensures NewDocument(userId)["userId"] == Str(userId)
    ensures NewDocument(userId)["currentStep"] == Num(1)
    ensures NewDocument(userId)["completedSteps"] == Arr([])
    ensures NewDocument(userId)["standardizedTests"] == Arr([])
    ensures NewDocument(userId)["englishProficiency"] == Obj(map["hasTestResults" := Bool(false)])
    ensures NewDocument(userId)["visaRefusalHistory"] == Obj(map["hasBeenRefused" := Bool(false)])
    ensures NewDocument(userId).Keys ==
      {"userId", "englishProficiency", "visaRefusalHistory", "standardizedTests", "currentStep", "completedSteps"}
  {
  }

  /** The progress fields of a new document: step 1, no completed steps. */
  lemma NewDocumentProgress(userId: string)
    ensures "currentStep" in NewDocument(userId) && NewDocument(userId)["currentStep"] == Num(1)
    ensures "completedSteps" in NewDocument(userId) && NewDocument(userId)["completedSteps"] == Arr([])
  {
    NewDocumentDefaults(userId);
  }

  /** The schema sets no range on the progress fields: any step and any list of
      completed steps leave a valid document valid. */
  lemma NoStepBounds(d: Document, step: int, completed: seq<int>)
    requires Valid(d)
    ensures Valid(d["currentStep" := Num(step)]["completedSteps" := Arr(EncodeNums(completed))])
  {
  }

  /** Applying an update that passes the update validators and leaves
      `userId` alone keeps a document valid. */
  lemma UpdateKeepsValid(d: Document, update: Document)
    requires Valid(d)
    requires PathsValid(update)
    requires "userId" !in update
    ensures Valid(d + update)
  {
  }

  /** A study level outside the domain is what the validators reject. */
  lemma StudyLevelRejected(d: Document, s: string)
    requires s !in StudyLevelNames
    ensures !PathsValid(d["studyLevel" := Str(s)])
    ensures !Valid(d["studyLevel" := Str(s)])
  {
  }
}
