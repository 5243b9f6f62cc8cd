/** `ResumeDataSchema` (app/api/process-pdf/route.ts, lines 12-40) and the typed
    `ResumeData` record it yields (lines 67-95). ValidCandidate states the schema as a
    predicate over the normalised candidate; Validate is `ResumeDataSchema.parse`,
    which either returns the typed record or fails with the path of the first issue
    in schema order. Unknown keys of project and certification objects are dropped,
    as `z.object` does. */
module Schema {
  import opened Wrappers
  import opened JsValue
  import opened Normalize

  datatype Contact = Contact(email: Option<string>, phone: Option<string>, location: Option<string>, linkedin: Option<string>)

  datatype Job = Job(title: Option<string>, company: Option<string>, dates: Option<string>, achievements: Option<seq<string>>)

  datatype School = School(degree: Option<string>, institution: Option<string>, major: Option<string>, dates: Option<string>)

  datatype Project = Project(name: string, description: string)

  /** `z.union([z.string(), z.object({ name: z.string() })])`. */
  datatype Certification = PlainCertification(text: string) | NamedCertification(name: string)

  /** `ResumeData`: absent optional fields are `None`. */
  datatype Resume = Resume(
    name: Option<string>,
    contactInfo: Contact,
    summary: Option<string>,
    experience: Option<seq<Job>>,
    education: Option<seq<School>>,
    skills: Option<seq<string>>,
    projects: Option<seq<Project>>,
    certifications: Option<seq<Certification>>,
    languages: Option<seq<string>>)

  datatype PathSegment = Key(key: string) | Index(index: nat)

  type Path = seq<PathSegment>

  /** Where the first issue is, and what the schema expected there. */
  datatype SchemaError = SchemaError(path: Path, expected: string)

  /** The issue lies at or below `path`. */
  predicate Under(e: SchemaError, path: Path) {
    |path| <= |e.path| && e.path[..|path|] == path
  }

  // ---------------------------------------------------------------------------
  // The schema as a predicate.

  /** `z.string().optional()`. */
  predicate OptionalString(v: Value) {
    v.Undefined? || v.Str?
  }

  /** `z.array(z.string()).optional()`. */
  predicate OptionalStringArray(v: Value) {
    v.Undefined? || (v.Arr? && forall i :: 0 <= i < |v.items| ==> v.items[i].Str?)
  }

  /** An object whose property `key` is a string. */
  predicate HasStringField(v: Value, key: string) {
    v.Obj? && key in v.fields && v.fields[key].Str?
  }

  predicate ValidProject(v: Value) {
    HasStringField(v, "name") && HasStringField(v, "description")
  }

  predicate ValidCertification(v: Value) {
    v.Str? || HasStringField(v, "name")
  }

  predicate ValidJob(j: JobCandidate) {
    OptionalString(j.title) && OptionalString(j.company) && OptionalString(j.dates)
    && OptionalStringArray(j.achievements)
  }

  predicate ValidSchool(s: SchoolCandidate) {
    OptionalString(s.degree) && OptionalString(s.institution) && OptionalString(s.major)
    && OptionalString(s.dates)
  }

  /** `ResumeDataSchema`, read against the candidate record. `contactInfo` is always an
      object there and `linkedin` always a string, and every language entry is a
      string, so the schema has nothing to check in them. */
  predicate ValidCandidate(c: Candidate) {
    && OptionalString(c.name)
    && OptionalString(c.contactInfo.email)
    && OptionalString(c.contactInfo.phone)
    && OptionalString(c.contactInfo.location)
    && OptionalString(c.summary)
    && (forall i :: 0 <= i < |c.experience| ==> ValidJob(c.experience[i]))
    && (forall i :: 0 <= i < |c.education| ==> ValidSchool(c.education[i]))
    && OptionalStringArray(c.skills)
    && (c.projects.Undefined?
        || (c.projects.Arr? && forall i :: 0 <= i < |c.projects.items| ==> ValidProject(c.projects.items[i])))
    && (forall i :: 0 <= i < |c.certifications| ==> ValidCertification(c.certifications[i]))
  }

  // ---------------------------------------------------------------------------
  // The way back from typed records to candidate values.

  function FromOption(o: Option<string>): Value {
    match o
    case Some(s) => Str(s)
    case None => Undefined
  }

  function StringsValue(xs: seq<string>): Value {
    Arr(seq(|xs|, i requires 0 <= i < |xs| => Str(xs[i])))
  }

  function FromOptionStrings(o: Option<seq<string>>): Value {
    match o
    case Some(xs) => StringsValue(xs)
    case None => Undefined
  }

  function EmbedJob(j: Job): JobCandidate {
    JobCandidate(FromOption(j.title), FromOption(j.company), FromOption(j.dates), FromOptionStrings(j.achievements))
  }

  function EmbedSchool(s: School): SchoolCandidate {
    SchoolCandidate(FromOption(s.degree), FromOption(s.institution), FromOption(s.major), FromOption(s.dates))
  }

  function EmbedProject(p: Project): Value {
    Obj(map["name" := Str(p.name), "description" := Str(p.description)])
  }

  function EmbedCertification(c: Certification): Value {
    match c
    case PlainCertification(t) => Str(t)
    case NamedCertification(n) => Obj(map["name" := Str(n)])
  }

  function EmbedProjects(o: Option<seq<Project>>): Value {
    match o
    case Some(ps) => Arr(seq(|ps|, i requires 0 <= i < |ps| => EmbedProject(ps[i])))
    case None => Undefined
  }

  /** A resume as the candidate it would have been normalised to. Absent collections
      become empty ones, so only a Complete resume comes back unchanged. */
  function Embed(r: Resume): Candidate {
    Candidate(
      FromOption(r.name),
      ContactCandidate(FromOption(r.contactInfo.email), FromOption(r.contactInfo.phone),
                       FromOption(r.contactInfo.location), r.contactInfo.linkedin.GetOr("")),
      FromOption(r.summary),
      var jobs := r.experience.GetOr([]); seq(|jobs|, i requires 0 <= i < |jobs| => EmbedJob(jobs[i])),
      var schools := r.education.GetOr([]); seq(|schools|, i requires 0 <= i < |schools| => EmbedSchool(schools[i])),
      FromOptionStrings(r.skills),
      EmbedProjects(r.projects),
      var certs := r.certifications.GetOr([]);
      seq(|certs|, i requires 0 <= i < |certs| => EmbedCertification(certs[i])),
      r.languages.GetOr([]))
  }

  /** The shape every validated candidate has: the collections a candidate always
      carries are present, and so is `linkedin`. */
  predicate Complete(r: Resume) {
    r.contactInfo.linkedin.Some? && r.experience.Some? && r.education.Some?
    && r.certifications.Some? && r.languages.Some?
  }

  /** What `z.object` keeps of a valid project or certification object. */
  function StripProject(v: Value): Value
    requires ValidProject(v)
  {
    Obj(map["name" := v.fields["name"], "description" := v.fields["description"]])
  }

  function StripCertification(v: Value): Value
    requires ValidCertification(v)
  {
    if v.Str? then v else Obj(map["name" := v.fields["name"]])
  }

  /** A valid candidate as the schema outputs it: unknown object keys removed. */
  function Strip(c: Candidate): Candidate
    requires ValidCandidate(c)
  {
    c.(projects := if c.projects.Arr?
                   then Arr(seq(|c.projects.items|, i requires 0 <= i < |c.projects.items| => StripProject(c.projects.items[i])))
                   else c.projects,
       certifications := seq(|c.certifications|, i requires 0 <= i < |c.certifications| => StripCertification(c.certifications[i])))
  }

  // ---------------------------------------------------------------------------
  // `ResumeDataSchema.parse`.

  /** Checks every element in order, reporting the first failure under its index. */
  function CheckEach<A, B>(xs: seq<A>, check: (A, Path) -> Result<B, SchemaError>, path: Path, offset: nat)
    : (r: Result<seq<B>, SchemaError>)
    ensures r.Success? <==> forall i :: 0 <= i < |xs| ==> check(xs[i], path + [Index(offset + i)]).Success?
    ensures r.Success? ==> |r.value| == |xs|
    ensures r.Success? ==> forall i :: 0 <= i < |xs| ==> r.value[i] == check(xs[i], path + [Index(offset + i)]).value
    ensures r.Failure? ==> exists i :: 0 <= i < |xs| && check(xs[i], path + [Index(offset + i)]).Failure?
                                     && check(xs[i], path + [Index(offset + i)]).error == r.error
                                     && forall k :: 0 <= k < i ==> check(xs[k], path + [Index(offset + k)]).Success?
  {
    if |xs| == 0 then Success([])
    else
      var head :- check(xs[0], path + [Index(offset)]);
      var tail :- CheckEach(xs[1..], check, path, offset + 1);
      assert forall i :: 1 <= i < |xs| ==> xs[1..][i - 1] == xs[i] && offset + 1 + (i - 1) == offset + i;
      Success([head] + tail)
  }

  /** When every element reports its issues below its own index, the list reports
      its first issue below the list's path. */
  lemma CheckEachUnder<A, B>(xs: seq<A>, check: (A, Path) -> Result<B, SchemaError>, path: Path, offset: nat)
    requires forall i :: 0 <= i < |xs| && check(xs[i], path + [Index(offset + i)]).Failure?
               ==> Under(check(xs[i], path + [Index(offset + i)]).error, path + [Index(offset + i)])
    ensures CheckEach(xs, check, path, offset).Failure? ==> Under(CheckEach(xs, check, path, offset).error, path)
  {
    var r := CheckEach(xs, check, path, offset);
    if r.Failure? {
      var i :| 0 <= i < |xs| && check(xs[i], path + [Index(offset + i)]).Failure?
               && check(xs[i], path + [Index(offset + i)]).error == r.error;
      var q := path + [Index(offset + i)];
      assert r.error.path[..|q|] == q;
      assert r.error.path[..|path|] == r.error.path[..|q|][..|path|];
    }
  }

  function CheckString(v: Value, path: Path): (r: Result<Option<string>, SchemaError>)
    ensures r.Failure? ==> Under(r.error, path)
    ensures r.Success? <==> OptionalString(v)
    ensures r.Success? ==> FromOption(r.value) == v
  {
    if v.Undefined? then Success(None)
    else if v.Str? then Success(Some(v.s))
    else Failure(SchemaError(path, "string"))
  }

  function CheckRequiredString(v: Value, path: Path): (r: Result<string, SchemaError>)
    ensures r.Failure? ==> Under(r.error, path)
    ensures r.Success? <==> v.Str?
    ensures r.Success? ==> v == Str(r.value)
  {
    if v.Str? then Success(v.s) else Failure(SchemaError(path, "string"))
  }

  function CheckStringArray(v: Value, path: Path): (r: Result<Option<seq<string>>, SchemaError>)
    ensures r.Failure? ==> Under(r.error, path)
    ensures r.Success? <==> OptionalStringArray(v)
    ensures r.Success? ==> FromOptionStrings(r.value) == v
  {
    if v.Undefined? then Success(None)
    else if !v.Arr? then Failure(SchemaError(path, "array"))
    else
      CheckEachUnder(v.items, CheckRequiredString, path, 0);
      var xs :- CheckEach(v.items, CheckRequiredString, path, 0);
      assert StringsValue(xs).items == v.items;
      Success(Some(xs))
  }

  function CheckJob(j: JobCandidate, path: Path): (r: Result<Job, SchemaError>)
    ensures r.Failure? ==> Under(r.error, path)
    ensures r.Success? <==> ValidJob(j)
    ensures r.Success? ==> EmbedJob(r.value) == j
  {
    var title :- CheckString(j.title, path + [Key("title")]);
    var company :- CheckString(j.company, path + [Key("company")]);
    var dates :- CheckString(j.dates, path + [Key("dates")]);
    var achievements :- CheckStringArray(j.achievements, path + [Key("achievements")]);
    Success(Job(title, company, dates, achievements))
  }

  function CheckSchool(s: SchoolCandidate, path: Path): (r: Result<School, SchemaError>)
    ensures r.Failure? ==> Under(r.error, path)
    ensures r.Success? <==> ValidSchool(s)
    ensures r.Success? ==> EmbedSchool(r.value) == s
  {
    var degree :- CheckString(s.degree, path + [Key("degree")]);
    var institution :- CheckString(s.institution, path + [Key("institution")]);
    var major :- CheckString(s.major, path + [Key("major")]);
    var dates :- CheckString(s.dates, path + [Key("dates")]);
    Success(School(degree, institution, major, dates))
  }

  function CheckProject(v: Value, path: Path): (r: Result<Project, SchemaError>)
    ensures r.Failure? ==> Under(r.error, path)
    ensures r.Success? <==> ValidProject(v)
    ensures r.Success? ==> EmbedProject(r.value) == StripProject(v)
  {
    if !v.Obj? then Failure(SchemaError(path, "object"))
    else
      var name :- CheckRequiredString(Member(v, "name"), path + [Key("name")]);
      var description :- CheckRequiredString(Member(v, "description"), path + [Key("description")]);
      Success(Project(name, description))
  }

  function CheckProjects(v: Value, path: Path): (r: Result<Option<seq<Project>>, SchemaError>)
    ensures r.Failure? ==> Under(r.error, path)
    ensures r.Success? <==> (v.Undefined? || (v.Arr? && forall i :: 0 <= i < |v.items| ==> ValidProject(v.items[i])))
    ensures r.Success? && v.Undefined? ==> r.value.None?
    ensures r.Success? && v.Arr? ==> r.value.Some? && |r.value.value| == |v.items|
                                     && forall i :: 0 <= i < |v.items| ==> EmbedProject(r.value.value[i]) == StripProject(v.items[i])
  {
    if v.Undefined? then Success(None)
    else if !v.Arr? then Failure(SchemaError(path, "array"))
    else
      CheckEachUnder(v.items, CheckProject, path, 0);
      var ps :- CheckEach(v.items, CheckProject, path, 0);
      Success(Some(ps))
  }

  function CheckCertification(v: Value, path: Path): (r: Result<Certification, SchemaError>)
    ensures r.Failure? ==> Under(r.error, path)
    ensures r.Success? <==> ValidCertification(v)
    ensures r.Success? ==> EmbedCertification(r.value) == StripCertification(v)
  {
    if v.Str? then Success(PlainCertification(v.s))
    else if HasStringField(v, "name") then Success(NamedCertification(v.fields["name"].s))
    else Failure(SchemaError(path, "string or object with a string name"))
  }

  function CheckContact(cc: ContactCandidate, path: Path): (r: Result<Contact, SchemaError>)
    ensures r.Failure? ==> Under(r.error, path)
    ensures r.Success? <==> OptionalString(cc.email) && OptionalString(cc.phone) && OptionalString(cc.location)
    ensures r.Success? ==> r.value.linkedin == Some(cc.linkedin)
    ensures r.Success? ==> FromOption(r.value.email) == cc.email && FromOption(r.value.phone) == cc.phone
                           && FromOption(r.value.location) == cc.location
  {
    var email :- CheckString(cc.email, path + [Key("email")]);
    var phone :- CheckString(cc.phone, path + [Key("phone")]);
    var location :- CheckString(cc.location, path + [Key("location")]);
    Success(Contact(email, phone, location, Some(cc.linkedin)))
  }

  /** `ResumeDataSchema.parse(candidate)`: the typed record exactly when the candidate
      meets the schema; otherwise the path of the first issue, in schema order. */
  function Validate(c: Candidate): (r: Result<Resume, SchemaError>)
    ensures r.Success? <==> ValidCandidate(c)
    ensures r.Success? ==> Complete(r.value)
  {
    var name :- CheckString(c.name, [Key("name")]);
    var contactInfo :- CheckContact(c.contactInfo, [Key("contactInfo")]);
    var summary :- CheckString(c.summary, [Key("summary")]);
    var experience :- CheckEach(c.experience, CheckJob, [Key("experience")], 0);
    var education :- CheckEach(c.education, CheckSchool, [Key("education")], 0);
    var skills :- CheckStringArray(c.skills, [Key("skills")]);
    var projects :- CheckProjects(c.projects, [Key("projects")]);
    var certifications :- CheckEach(c.certifications, CheckCertification, [Key("certifications")], 0);
    Success(Resume(
      name, contactInfo, summary,
      Some(experience), Some(education), skills, projects, Some(certifications), Some(c.languages)))
  }

  /** The top-level properties of the schema, in its order. */
  const TopLevelKeys: seq<string> :=
    ["name", "contactInfo", "summary", "experience", "education", "skills", "projects", "certifications"]

  lemma UnderKey(e: SchemaError, k: string)
    requires Under(e, [Key(k)])
    ensures |e.path| > 0 && e.path[0] == Key(k)
  {
    assert e.path[..1][0] == e.path[0];
  }

  /** A rejected candidate is reported under one of the schema's top-level keys. */
  lemma ValidateIssuePath(c: Candidate)
    requires Validate(c).Failure?
    ensures |Validate(c).error.path| > 0
    ensures Validate(c).error.path[0].Key? && Validate(c).error.path[0].key in TopLevelKeys
  {
    var e := Validate(c).error;
    if CheckString(c.name, [Key("name")]).Failure? {
      UnderKey(e, "name");
    } else if CheckContact(c.contactInfo, [Key("contactInfo")]).Failure? {
      UnderKey(e, "contactInfo");
    } else if CheckString(c.summary, [Key("summary")]).Failure? {
      UnderKey(e, "summary");
    } else if CheckEach(c.experience, CheckJob, [Key("experience")], 0).Failure? {
      CheckEachUnder(c.experience, CheckJob, [Key("experience")], 0);
      UnderKey(e, "experience");
    } else if CheckEach(c.education, CheckSchool, [Key("education")], 0).Failure? {
      CheckEachUnder(c.education, CheckSchool, [Key("education")], 0);
      UnderKey(e, "education");
    } else if CheckStringArray(c.skills, [Key("skills")]).Failure? {
      UnderKey(e, "skills");
    } else if CheckProjects(c.projects, [Key("projects")]).Failure? {
      UnderKey(e, "projects");
    } else {
      CheckEachUnder(c.certifications, CheckCertification, [Key("certifications")], 0);
      UnderKey(e, "certifications");
    }
  }

  // ---------------------------------------------------------------------------
  // Round trips between candidates and resumes.

  /** What Validate accepts comes back, through Embed, as the candidate less the keys
      the schema does not know: the typed record loses nothing else. */
  lemma ValidateOutput(c: Candidate)
    requires ValidCandidate(c)
    ensures Embed(Validate(c).value) == Strip(c)
  {
    ScalarsBack(c);
    CollectionsBack(c);
  }

  /** The fields of an accepted candidate that the schema keeps as they are. */
  lemma ScalarsBack(c: Candidate)
    requires ValidCandidate(c)
    ensures var e := Embed(Validate(c).value);
            var t := Strip(c);
            && e.name == t.name && e.summary == t.summary && e.contactInfo == t.contactInfo
            && e.skills == t.skills && e.languages == t.languages
  {
    ValidateFields(c);
  }

  /** The collections of an accepted candidate, element by element. */
  lemma CollectionsBack(c: Candidate)
    requires ValidCandidate(c)
    ensures var e := Embed(Validate(c).value);
            var t := Strip(c);
            && e.experience == t.experience && e.education == t.education
            && e.certifications == t.certifications && e.projects == t.projects
  {
    ExperienceBack(c);
    EducationBack(c);
    CertificationListBack(c);
    ProjectListBack(c);
  }

  lemma ExperienceBack(c: Candidate)
    requires ValidCandidate(c)
    ensures Embed(Validate(c).value).experience == Strip(c).experience
  {
    ValidateFields(c);
    JobsBack(c.experience, [Key("experience")]);
  }

  lemma EducationBack(c: Candidate)
    requires ValidCandidate(c)
    ensures Embed(Validate(c).value).education == Strip(c).education
  {
    ValidateFields(c);
    SchoolsBack(c.education, [Key("education")]);
  }

  lemma CertificationListBack(c: Candidate)
    requires ValidCandidate(c)
    ensures Embed(Validate(c).value).certifications == Strip(c).certifications
  {
    ValidateFields(c);
    CertificationsBack(c.certifications, [Key("certifications")]);
  }

  lemma ProjectListBack(c: Candidate)
    requires ValidCandidate(c)
    ensures Embed(Validate(c).value).projects == Strip(c).projects
  {
    ValidateFields(c);
  }

  /** The fields of an accepted candidate's record, checker by checker. */
  lemma ValidateFields(c: Candidate)
    requires ValidCandidate(c)
    ensures var r := Validate(c).value;
            && r.name == CheckString(c.name, [Key("name")]).value
            && r.contactInfo == CheckContact(c.contactInfo, [Key("contactInfo")]).value
            && r.summary == CheckString(c.summary, [Key("summary")]).value
            && r.experience == Some(CheckEach(c.experience, CheckJob, [Key("experience")], 0).value)
            && r.education == Some(CheckEach(c.education, CheckSchool, [Key("education")], 0).value)
            && r.skills == CheckStringArray(c.skills, [Key("skills")]).value
            && r.projects == CheckProjects(c.projects, [Key("projects")]).value
            && r.certifications == Some(CheckEach(c.certifications, CheckCertification, [Key("certifications")], 0).value)
            && r.languages == Some(c.languages)
  {
  }

  lemma JobsBack(xs: seq<JobCandidate>, path: Path)
    requires forall i :: 0 <= i < |xs| ==> ValidJob(xs[i])
    ensures CheckEach(xs, CheckJob, path, 0).Success?
    ensures var js := CheckEach(xs, CheckJob, path, 0).value;
            seq(|js|, i requires 0 <= i < |js| => EmbedJob(js[i])) == xs
  {
    var js := CheckEach(xs, CheckJob, path, 0).value;
    forall i | 0 <= i < |xs| ensures EmbedJob(js[i]) == xs[i] {
      assert js[i] == CheckJob(xs[i], path + [Index(0 + i)]).value;
    }
  }

  lemma SchoolsBack(xs: seq<SchoolCandidate>, path: Path)
    requires forall i :: 0 <= i < |xs| ==> ValidSchool(xs[i])
    ensures CheckEach(xs, CheckSchool, path, 0).Success?
    ensures var ss := CheckEach(xs, CheckSchool, path, 0).value;
            seq(|ss|, i requires 0 <= i < |ss| => EmbedSchool(ss[i])) == xs
  {
    var ss := CheckEach(xs, CheckSchool, path, 0).value;
    forall i | 0 <= i < |xs| ensures EmbedSchool(ss[i]) == xs[i] {
      assert ss[i] == CheckSchool(xs[i], path + [Index(0 + i)]).value;
    }
  }

  lemma CertificationsBack(xs: seq<Value>, path: Path)
    requires forall i :: 0 <= i < |xs| ==> ValidCertification(xs[i])
    ensures CheckEach(xs, CheckCertification, path, 0).Success?
    ensures var cs := CheckEach(xs, CheckCertification, path, 0).value;
            seq(|cs|, i requires 0 <= i < |cs| => EmbedCertification(cs[i]))
            == seq(|xs|, i requires 0 <= i < |xs| => StripCertification(xs[i]))
  {
    var cs := CheckEach(xs, CheckCertification, path, 0).value;
    forall i | 0 <= i < |xs| ensures EmbedCertification(cs[i]) == StripCertification(xs[i]) {
      assert cs[i] == CheckCertification(xs[i], path + [Index(0 + i)]).value;
    }
  }

  lemma StringsValueInjective(xs: seq<string>, ys: seq<string>)
    requires StringsValue(xs) == StringsValue(ys)
    ensures xs == ys
  {
    assert |xs| == |StringsValue(xs).items|;
    forall i | 0 <= i < |xs| ensures xs[i] == ys[i] {
      assert StringsValue(xs).items[i] == StringsValue(ys).items[i];
    }
  }

  lemma EmbedCertificationInjective(x: Certification, y: Certification)
    requires EmbedCertification(x) == EmbedCertification(y)
    ensures x == y
  {
    if x.NamedCertification? {
      assert EmbedCertification(x).fields["name"] == EmbedCertification(y).fields["name"];
    }
  }

  lemma EmbedProjectInjective(x: Project, y: Project)
    requires EmbedProject(x) == EmbedProject(y)
    ensures x == y
  {
    assert EmbedProject(x).fields["name"] == EmbedProject(y).fields["name"];
    assert EmbedProject(x).fields["description"] == EmbedProject(y).fields["description"];
  }

  lemma EmbedInjective(a: Resume, b: Resume)
    requires Complete(a) && Complete(b) && Embed(a) == Embed(b)
    ensures a == b
  {
    var ea, eb := Embed(a), Embed(b);
    if a.skills.Some? || b.skills.Some? { StringsValueInjective(a.skills.value, b.skills.value); }
    var ja, jb := a.experience.value, b.experience.value;
    assert |ja| == |ea.experience| && |jb| == |eb.experience|;
    forall i | 0 <= i < |ja| ensures ja[i] == jb[i] {
      assert EmbedJob(ja[i]) == EmbedJob(jb[i]) by { assert ea.experience[i] == eb.experience[i]; }
      if ja[i].achievements.Some? || jb[i].achievements.Some? {
        StringsValueInjective(ja[i].achievements.value, jb[i].achievements.value);
      }
    }
    var sa, sb := a.education.value, b.education.value;
    assert |sa| == |ea.education| && |sb| == |eb.education|;
    forall i | 0 <= i < |sa| ensures sa[i] == sb[i] {
      assert ea.education[i] == eb.education[i];
    }
    var ca, cb := a.certifications.value, b.certifications.value;
    assert |ca| == |ea.certifications| && |cb| == |eb.certifications|;
    forall i | 0 <= i < |ca| ensures ca[i] == cb[i] {
      assert ea.certifications[i] == eb.certifications[i];
      EmbedCertificationInjective(ca[i], cb[i]);
    }
    assert a.projects.Some? <==> b.projects.Some? by {
      assert a.projects.Some? <==> ea.projects.Arr?;
      assert b.projects.Some? <==> eb.projects.Arr?;
    }
    if a.projects.Some? {
      var pa, pb := a.projects.value, b.projects.value;
      assert |pa| == |ea.projects.items| && |pb| == |eb.projects.items|;
      forall i | 0 <= i < |pa| ensures pa[i] == pb[i] {
        assert ea.projects.items[i] == eb.projects.items[i];
        EmbedProjectInjective(pa[i], pb[i]);
      }
      assert pa == pb;
    }
    assert ja == jb && sa == sb && ca == cb;
    assert a.languages.value == ea.languages == eb.languages == b.languages.value;
    assert a.contactInfo.linkedin.value == ea.contactInfo.linkedin;
    assert b.contactInfo.linkedin.value == eb.contactInfo.linkedin;
  }

  /** Every complete resume is accepted as its own embedding and comes back unchanged:
      together with ValidateOutput, Validate and Embed are inverse to each other
      between complete resumes and valid candidates without unknown keys. */
  lemma ValidateRoundTrip(r: Resume)
    requires Complete(r)
    ensures Validate(Embed(r)) == Success(r)
  {
    StripEmbedded(r);
    ValidateOutput(Embed(r));
    EmbedInjective(Validate(Embed(r)).value, r);
  }

  /** An embedded resume is a valid candidate with no unknown keys to strip. */
  lemma StripEmbedded(r: Resume)
    ensures ValidCandidate(Embed(r))
    ensures Strip(Embed(r)) == Embed(r)
  {
    var c := Embed(r);
    assert ValidCandidate(c);
    assert Strip(c).certifications == c.certifications;
    assert Strip(c).projects == c.projects;
  }

  /** A project without a description fails at `projects[0].description`, the first
      issue in schema order. */
  lemma ProjectWithoutDescription(base: Candidate, name: string)
    requires ValidCandidate(base)
    ensures Validate(base.(projects := Arr([Obj(map["name" := Str(name)])])))
            == Failure(SchemaError([Key("projects"), Index(0), Key("description")], "string"))
  {
    var c := base.(projects := Arr([Obj(map["name" := Str(name)])]));
    var item := Obj(map["name" := Str(name)]);
    assert "description" !in item.fields;
    assert Member(item, "description") == Undefined;
    assert [Key("projects")] + [Index(0)] + [Key("description")] == [Key("projects"), Index(0), Key("description")];
    assert CheckProject(item, [Key("projects")] + [Index(0)])
           == Failure(SchemaError([Key("projects"), Index(0), Key("description")], "string"));
    assert CheckProjects(c.projects, [Key("projects")])
           == Failure(SchemaError([Key("projects"), Index(0), Key("description")], "string"));
  }
}
