/** The object literal the route builds from the parsed model reply before validating
    it (app/api/process-pdf/route.ts, lines 341-370). Every quirk of the literal is
    kept: `||` falls through on any falsy value, contact fields come only from the
    `contact` key, `major` can come from the second comma-separated piece of `degree`,
    and a language object is formatted before the `undefined` filter runs. Reads of a
    property of `null`, calls of a missing `map`/`split` and the interpolation of an
    object with its own `toString` key throw a `TypeError`, which the route's outer
    `catch` turns into an error response; here that is a `Failure`. */
module Normalize {
  import opened Wrappers
  import opened Text
  import opened JsValue

  datatype ContactCandidate = ContactCandidate(email: Value, phone: Value, location: Value, linkedin: string)

  datatype JobCandidate = JobCandidate(title: Value, company: Value, dates: Value, achievements: Value)

  datatype SchoolCandidate = SchoolCandidate(degree: Value, institution: Value, major: Value, dates: Value)

  /** The record handed to the schema: loosely typed, since it holds whatever the model sent. */
  datatype Candidate = Candidate(
    name: Value,
    contactInfo: ContactCandidate,
    summary: Value,
    experience: seq<JobCandidate>,
    education: seq<SchoolCandidate>,
    skills: Value,
    projects: Value,
    certifications: seq<Value>,
    languages: seq<string>)

  const UndefinedPrefix: string := "undefined"
  const EmptyArray: Value := Arr([])

  /** `items.map(f)` with an `f` that may throw: the elements are visited in order
      and the first throw ends the map. */
  function MapAll<T>(f: Value -> Result<T, TypeError>, items: seq<Value>): (r: Result<seq<T>, TypeError>)
    ensures r.Success? <==> forall i :: 0 <= i < |items| ==> f(items[i]).Success?
    ensures r.Success? ==> |r.value| == |items|
    ensures r.Success? ==> forall i :: 0 <= i < |items| ==> r.value[i] == f(items[i]).value
    ensures r.Failure? ==> exists i :: 0 <= i < |items| && f(items[i]) == Failure(r.error)
                                       && forall j :: 0 <= j < i ==> f(items[j]).Success?
  {
    if |items| == 0 then Success([])
    else
      var head :- f(items[0]);
      var tail :- MapAll(f, items[1..]);
      Success([head] + tail)
  }

  /** `coll?.map(f) || []`: nothing to map when `coll` is null or undefined, a
      `TypeError` when `coll` is anything else that is not an array. */
  function MapOptional<T>(coll: Value, f: Value -> Result<T, TypeError>): (r: Result<seq<T>, TypeError>)
    ensures r.Failure? <==> !Nullish(coll) && (!coll.Arr? || exists i :: 0 <= i < |coll.items| && f(coll.items[i]).Failure?)
    ensures r.Failure? && !coll.Arr? ==> r.error == NotAFunction("map")
    ensures r.Success? ==> |r.value| == (if coll.Arr? then |coll.items| else 0)
    ensures r.Success? && coll.Arr? ==> forall i :: 0 <= i < |coll.items| ==> r.value[i] == f(coll.items[i]).value
  {
    if Nullish(coll) then Success([])
    else if coll.Arr? then MapAll(f, coll.items)
    else Failure(NotAFunction("map"))
  }

  /** `contactInfo`: every field read through `contact?.`; `linkedin` glues the
      website and the LinkedIn handle together, each replaced by "" when falsy, and
      throws when either cannot be interpolated. */
  function NormalizeContact(contact: Value): (r: Result<ContactCandidate, TypeError>)
    ensures r.Failure? <==> ContactThrows(contact)
    ensures r.Success? ==> && r.value.email == Member(contact, "email")
                           && r.value.phone == Member(contact, "phone")
                           && r.value.location == Member(contact, "location")
    ensures Nullish(contact) ==> r == Success(ContactCandidate(Undefined, Undefined, Undefined, ""))
  {
    var website :- TextOrEmpty(Member(contact, "website"));
    var handle :- TextOrEmpty(Member(contact, "linkedin"));
    assert Nullish(contact) ==> website + handle == "";
    Success(ContactCandidate(
      Member(contact, "email"),
      Member(contact, "phone"),
      Member(contact, "location"),
      website + handle))
  }

  /** One `experience` element. */
  function NormalizeJob(exp: Value): (r: Result<JobCandidate, TypeError>)
    ensures r.Failure? <==> Nullish(exp)
    ensures r.Success? ==> r.value.title == (if Truthy(Member(exp, "title")) then Member(exp, "title") else Member(exp, "position"))
    ensures r.Success? ==> r.value.company == Member(exp, "company")
    ensures r.Success? ==> Truthy(r.value.achievements)
  {
    if Nullish(exp) then Failure(CannotReadProperty("title"))
    else Success(JobCandidate(
      Or(Member(exp, "title"), Member(exp, "position")),
      Member(exp, "company"),
      Or(Member(exp, "dates"), Member(exp, "tenure")),
      Or(Or(Member(exp, "achievements"), Member(exp, "keyAchievements")), EmptyArray)))
  }

  /** `edu.degree?.split(',')[1]?.trim()`. */
  function MajorFromDegree(degree: Value): (r: Result<Value, TypeError>)
    ensures r.Failure? <==> !Nullish(degree) && !degree.Str?
    ensures r.Success? ==> (r.value.Undefined? <==> !(degree.Str? && ',' in degree.s))
    ensures r.Success? && r.value.Str? ==> IsTrimmed(r.value.s) && ',' !in r.value.s
  {
    if Nullish(degree) then Success(Undefined)
    else if !degree.Str? then Failure(NotAFunction("split"))
    else match SecondSegment(degree.s)
      case None => Success(Undefined)
      case Some(piece) => Success(Str(Trim(piece)))
  }

  /** One `education` element; the `degree` fallback for `major` is only evaluated
      when both `major` and `field` are falsy. */
  function NormalizeSchool(edu: Value): (r: Result<SchoolCandidate, TypeError>)
    ensures r.Failure? <==> SchoolThrows(edu)
    ensures r.Success? ==> r.value.major == ExpectedMajor(edu)
    ensures r.Success? ==> r.value.degree == Member(edu, "degree") && r.value.institution == Member(edu, "institution")
  {
    if Nullish(edu) then Failure(CannotReadProperty("degree"))
    else
      var given := Or(Member(edu, "major"), Member(edu, "field"));
      var major :- if Truthy(given) then Success(given) else MajorFromDegree(Member(edu, "degree"));
      Success(SchoolCandidate(
        Member(edu, "degree"),
        Member(edu, "institution"),
        major,
        Or(Member(edu, "dates"), Member(edu, "graduation_date"))))
  }

  /** `typeof cert === 'string' ? cert : cert.name`. */
  function NormalizeCertification(cert: Value): (r: Result<Value, TypeError>)
    ensures r.Failure? <==> Nullish(cert)
    ensures cert.Str? ==> r == Success(cert)
    ensures r.Success? && !cert.Str? ==> r.value == Member(cert, "name")
  {
    if cert.Str? then Success(cert) else Get(cert, "name")
  }

  /** `typeof lang === 'string' ? lang : `${lang.name || lang.language} (${lang.level || lang.proficiency})``. */
  function LanguageText(lang: Value): (r: Result<string, TypeError>)
    ensures r.Failure? <==> LanguageThrows(lang)
    ensures lang.Str? ==> r == Success(lang.s)
  {
    if lang.Str? then Success(lang.s)
    else if Nullish(lang) then Failure(CannotReadProperty("name"))
    else
      var name :- ToText(Or(Member(lang, "name"), Member(lang, "language")));
      var level :- ToText(Or(Member(lang, "level"), Member(lang, "proficiency")));
      Success(name + " (" + level + ")")
  }

  /** `.filter(lang => !lang.startsWith('undefined'))`. */
  function DropUndefined(xs: seq<string>): (r: seq<string>)
    ensures |r| <= |xs|
    ensures forall i :: 0 <= i < |r| ==> r[i] in xs && !StartsWith(r[i], UndefinedPrefix)
    ensures forall i :: 0 <= i < |xs| && !StartsWith(xs[i], UndefinedPrefix) ==> xs[i] in r
  {
    if |xs| == 0 then []
    else (if StartsWith(xs[0], UndefinedPrefix) then [] else [xs[0]]) + DropUndefined(xs[1..])
  }

  /** The object literal of lines 341-370, evaluated in source order: it throws
      exactly when Throws says so. */
  function Normalize(parsed: Value): (r: Result<Candidate, TypeError>)
    ensures r.Failure? <==> Throws(parsed)
  {
    if Nullish(parsed) then Failure(CannotReadProperty("name"))
    else
      MapOptionalThrows(Member(parsed, "experience"), NormalizeJob, Nullish);
      MapOptionalThrows(Member(parsed, "education"), NormalizeSchool, SchoolThrows);
      MapOptionalThrows(Member(parsed, "certifications"), NormalizeCertification, Nullish);
      MapOptionalThrows(Member(parsed, "languages"), LanguageText, LanguageThrows);
      var contactInfo :- NormalizeContact(Member(parsed, "contact"));
      var experience :- MapOptional(Member(parsed, "experience"), NormalizeJob);
      var education :- MapOptional(Member(parsed, "education"), NormalizeSchool);
      var certifications :- MapOptional(Member(parsed, "certifications"), NormalizeCertification);
      var languages :- MapOptional(Member(parsed, "languages"), LanguageText);
      Success(Candidate(
        Member(parsed, "name"),
        contactInfo,
        Member(parsed, "summary"),
        experience,
        education,
        Or(Or(Member(parsed, "skills"), Member(parsed, "top_skills")), EmptyArray),
        Or(Member(parsed, "projects"), EmptyArray),
        certifications,
        DropUndefined(languages)))
  }

  // ---------------------------------------------------------------------------
  // When normalisation throws, stated independently of how it is computed.

  /** `coll?.map(...)` throws: `coll` is neither nullish nor an array, or one of its
      elements makes the callback throw. */
  predicate MapThrows(coll: Value, throws: Value -> bool) {
    !Nullish(coll) && (!coll.Arr? || exists i :: 0 <= i < |coll.items| && throws(coll.items[i]))
  }

  /** An education element the callback cannot handle: a nullish element, or a
      non-string `degree` that the `major` fallback would have to `split`. */
  predicate SchoolThrows(edu: Value) {
    || Nullish(edu)
    || (&& !Truthy(Member(edu, "major"))
        && !Truthy(Member(edu, "field"))
        && !Nullish(Member(edu, "degree"))
        && !Member(edu, "degree").Str?)
  }

  /** A `contact` whose website or LinkedIn handle is an object that cannot be
      interpolated; a falsy one is never converted, and both are truthy here. */
  predicate ContactThrows(contact: Value) {
    Unprintable(Member(contact, "website")) || Unprintable(Member(contact, "linkedin"))
  }

  /** A language element the callback cannot handle: a nullish element, or a
      non-string one whose name part or level part cannot be interpolated. */
  predicate LanguageThrows(lang: Value) {
    || Nullish(lang)
    || (&& !lang.Str?
        && (|| Unprintable(Or(Member(lang, "name"), Member(lang, "language")))
            || Unprintable(Or(Member(lang, "level"), Member(lang, "proficiency")))))
  }

  /** The whole literal throws: the parsed value is nullish, `contactInfo` throws, or
      one of the four mapped collections does. A missing `contact`, `skills` or
      `projects`, and any shape of `skills` or `projects`, never throw. */
  predicate Throws(parsed: Value) {
    || Nullish(parsed)
    || ContactThrows(Member(parsed, "contact"))
    || MapThrows(Member(parsed, "experience"), Nullish)
    || MapThrows(Member(parsed, "education"), SchoolThrows)
    || MapThrows(Member(parsed, "certifications"), Nullish)
    || MapThrows(Member(parsed, "languages"), LanguageThrows)
  }

  /** MapOptional throws as MapThrows says, for a callback that throws as `throws` says. */
  lemma MapOptionalThrows<T>(coll: Value, f: Value -> Result<T, TypeError>, throws: Value -> bool)
    requires forall v :: f(v).Failure? <==> throws(v)
    ensures MapOptional(coll, f).Failure? <==> MapThrows(coll, throws)
  {
  }

  // ---------------------------------------------------------------------------
  // What a successful normalisation produces, field by field.

  /** Contact fields come from `contact` alone; `linkedin` is always a string, the
      website followed by the handle, each only when truthy. */
  lemma NormalizeContactInfo(parsed: Value)
    requires Normalize(parsed).Success?
    ensures var c := Normalize(parsed).value.contactInfo;
            var contact := Member(parsed, "contact");
            && c.email == Member(contact, "email")
            && c.phone == Member(contact, "phone")
            && c.location == Member(contact, "location")
            && TextOrEmpty(Member(contact, "website")).Success?
            && TextOrEmpty(Member(contact, "linkedin")).Success?
            && c.linkedin == TextOrEmpty(Member(contact, "website")).value + TextOrEmpty(Member(contact, "linkedin")).value
            && (Nullish(contact) ==> c.email == Undefined && c.phone == Undefined
                                     && c.location == Undefined && c.linkedin == "")
  {
  }

  /** `name` and `summary` are passed through as they are. */
  lemma NormalizeNameAndSummary(parsed: Value)
    requires Normalize(parsed).Success?
    ensures Normalize(parsed).value.name == Member(parsed, "name")
    ensures Normalize(parsed).value.summary == Member(parsed, "summary")
  {
  }

  /** `experience` keeps its length and order; each job takes `title`, else `position`;
      `dates`, else `tenure`; `achievements`, else `keyAchievements`, else `[]`. */
  lemma NormalizeExperience(parsed: Value)
    requires Normalize(parsed).Success?
    ensures var jobs := Normalize(parsed).value.experience;
            var src := Member(parsed, "experience");
            && (src.Arr? ==> |jobs| == |src.items|)
            && (!src.Arr? ==> jobs == [])
            && forall i :: 0 <= i < |jobs| ==>
                 && src.Arr?
                 && jobs[i].title == Or(Member(src.items[i], "title"), Member(src.items[i], "position"))
                 && jobs[i].company == Member(src.items[i], "company")
                 && jobs[i].dates == Or(Member(src.items[i], "dates"), Member(src.items[i], "tenure"))
                 && jobs[i].achievements
                    == Or(Or(Member(src.items[i], "achievements"), Member(src.items[i], "keyAchievements")), EmptyArray)
  {
  }

  /** The major a school entry ends up with: `major`, else `field`, else the trimmed
      text between the first and second comma of a string `degree`, else nothing. */
  function ExpectedMajor(edu: Value): Value {
    var m := Member(edu, "major");
    var f := Member(edu, "field");
    var d := Member(edu, "degree");
    if Truthy(m) then m
    else if Truthy(f) then f
    else if d.Str? && ',' in d.s then Str(Trim(SecondSegment(d.s).value))
    else Undefined
  }

  /** `education` keeps its length and order; `dates` falls back to `graduation_date`
      and `major` is ExpectedMajor. */
  lemma NormalizeEducation(parsed: Value)
    requires Normalize(parsed).Success?
    ensures var schools := Normalize(parsed).value.education;
            var src := Member(parsed, "education");
            && (src.Arr? ==> |schools| == |src.items|)
            && (!src.Arr? ==> schools == [])
            && forall i :: 0 <= i < |schools| ==>
                 && src.Arr?
                 && schools[i].degree == Member(src.items[i], "degree")
                 && schools[i].institution == Member(src.items[i], "institution")
                 && schools[i].major == ExpectedMajor(src.items[i])
                 && schools[i].dates == Or(Member(src.items[i], "dates"), Member(src.items[i], "graduation_date"))
  {
    var schools := Normalize(parsed).value.education;
    var src := Member(parsed, "education");
    forall i | 0 <= i < |schools|
      ensures schools[i].major == ExpectedMajor(src.items[i])
    {
      assert NormalizeSchool(src.items[i]).Success?;
    }
  }

  /** `skills` is `skills`, else `top_skills`, else `[]`; `projects` is `projects`,
      else `[]`; neither is ever falsy. */
  lemma NormalizeSkillsAndProjects(parsed: Value)
    requires Normalize(parsed).Success?
    ensures var c := Normalize(parsed).value;
            && c.skills == Or(Or(Member(parsed, "skills"), Member(parsed, "top_skills")), EmptyArray)
            && c.projects == Or(Member(parsed, "projects"), EmptyArray)
            && c.skills != Undefined && c.projects != Undefined
  {
  }

  /** Certifications keep length and order; strings stay, other elements become their
      `name` property. */
  lemma NormalizeCertifications(parsed: Value)
    requires Normalize(parsed).Success?
    ensures var certs := Normalize(parsed).value.certifications;
            var src := Member(parsed, "certifications");
            && (src.Arr? ==> |certs| == |src.items|)
            && (!src.Arr? ==> certs == [])
            && forall i :: 0 <= i < |certs| ==>
                 && src.Arr?
                 && (src.items[i].Str? ==> certs[i] == src.items[i])
                 && (!src.items[i].Str? ==> certs[i] == Member(src.items[i], "name"))
  {
  }

  /** The formatted text of a language object starts with `undefined` exactly when
      its name part does: the ` (` that follows the name cannot belong to the word. */
  lemma LanguageObjectDropped(lang: Value)
    requires !lang.Str? && !LanguageThrows(lang)
    ensures StartsWith(LanguageText(lang).value, UndefinedPrefix)
            <==> StartsWith(ToText(Or(Member(lang, "name"), Member(lang, "language"))).value, UndefinedPrefix)
  {
    var name := ToText(Or(Member(lang, "name"), Member(lang, "language"))).value;
    var text := LanguageText(lang).value;
    assert text[..|name|] == name;
    if |name| < |UndefinedPrefix| && |UndefinedPrefix| <= |text| {
      assert text[|name|] == ' ';
      assert text[..|UndefinedPrefix|][|name|] == ' ';
    }
    if |UndefinedPrefix| <= |name| {
      assert text[..|UndefinedPrefix|] == name[..|UndefinedPrefix|];
    }
  }

  /** A language object with a name but neither `level` nor `proficiency` survives
      as "<name> (undefined)"; only a missing name gets it filtered out. */
  lemma LanguageWithoutLevel(name: string)
    requires name != "" && !StartsWith(name, UndefinedPrefix)
    ensures var lang := Obj(map["name" := Str(name)]);
            && LanguageText(lang) == Success(name + " (undefined)")
            && !StartsWith(LanguageText(lang).value, UndefinedPrefix)
  {
    var lang := Obj(map["name" := Str(name)]);
    assert Member(lang, "level") == Undefined && Member(lang, "proficiency") == Undefined;
    assert ToText(Or(Member(lang, "name"), Member(lang, "language"))) == Success(name);
    assert name + " (" + "undefined" + ")" == name + " (undefined)";
    LanguageObjectDropped(lang);
  }

  /** Languages: every survivor is a string not starting with `undefined`, survivors
      keep their relative order, and nothing else is dropped. */
  lemma NormalizeLanguages(parsed: Value)
    requires Normalize(parsed).Success?
    ensures var langs := Normalize(parsed).value.languages;
            var src := Member(parsed, "languages");
            && (forall i :: 0 <= i < |langs| ==> !StartsWith(langs[i], UndefinedPrefix))
            && (!src.Arr? ==> langs == [])
            && (src.Arr? ==>
                  && (forall i :: 0 <= i < |src.items| ==> LanguageText(src.items[i]).Success?)
                  && langs == DropUndefined(seq(|src.items|, i requires 0 <= i < |src.items| =>
                                                  LanguageText(src.items[i]).value)))
  {
    var src := Member(parsed, "languages");
    if src.Arr? {
      var texts := MapOptional(src, LanguageText).value;
      assert texts == seq(|src.items|, i requires 0 <= i < |src.items| => LanguageText(src.items[i]).value);
    }
  }

  /** The filter drops every occurrence of an entry that starts with `undefined`
      and keeps every occurrence of any other entry. */
  lemma {:induction false} DropUndefinedCounts(xs: seq<string>)
    ensures forall x :: multiset(DropUndefined(xs))[x]
                        == if StartsWith(x, UndefinedPrefix) then 0 else multiset(xs)[x]
  {
    if |xs| > 0 {
      assert xs == [xs[0]] + xs[1..];
      DropUndefinedCounts(xs[1..]);
    }
  }

  /** The filter keeps survivors in their original relative order. */
  lemma {:induction false} DropUndefinedAppend(a: seq<string>, b: seq<string>)
    ensures DropUndefined(a + b) == DropUndefined(a) + DropUndefined(b)
  {
    if |a| == 0 {
      assert a + b == b;
    } else {
      assert (a + b)[1..] == a[1..] + b;
      DropUndefinedAppend(a[1..], b);
    }
  }

  /** An empty object never throws: every collection comes out empty, `contactInfo`
      holds nothing but an empty `linkedin`. */
  lemma NormalizeEmptyObject()
    ensures Normalize(Obj(map[])) == Success(Candidate(
              Undefined, ContactCandidate(Undefined, Undefined, Undefined, ""), Undefined,
              [], [], EmptyArray, EmptyArray, [], []))
  {
    var empty := Obj(map[]);
    assert MapOptional(Member(empty, "experience"), NormalizeJob) == Success([]);
    assert MapOptional(Member(empty, "education"), NormalizeSchool) == Success([]);
    assert MapOptional(Member(empty, "certifications"), NormalizeCertification) == Success([]);
    assert MapOptional(Member(empty, "languages"), LanguageText) == Success([]);
    assert DropUndefined([]) == [];
    assert NormalizeContact(Undefined).value.linkedin == "";
  }

  /** A website and a handle are glued together with nothing in between. */
  lemma LinkedinConcatenation(website: string, handle: string)
    ensures var contact := Obj(map["website" := Str(website), "linkedin" := Str(handle)]);
            Normalize(Obj(map["contact" := contact])).Success?
            && Normalize(Obj(map["contact" := contact])).value.contactInfo.linkedin == website + handle
  {
  }

  /** An object with its own `toString` key cannot be interpolated, so the literal
      throws on it as a website. */
  lemma WebsiteWithOwnToString(x: Value)
    ensures Normalize(Obj(map["contact" := Obj(map["website" := Obj(map["toString" := x])])])).Failure?
  {
    var contact := Obj(map["website" := Obj(map["toString" := x])]);
    assert ContactThrows(Member(Obj(map["contact" := contact]), "contact"));
  }

  /** The same object nested in an array that is a language's name makes the
      language callback, and so the literal, throw. */
  lemma LanguageWithOwnToString(x: Value)
    ensures Normalize(Obj(map["languages" := Arr([Obj(map["name" := Arr([Obj(map["toString" := x])])])])])).Failure?
  {
    var name := Arr([Obj(map["toString" := x])]);
    var langs := Arr([Obj(map["name" := name])]);
    assert Unprintable(name.items[0]);
    assert LanguageThrows(langs.items[0]);
    assert MapThrows(Member(Obj(map["languages" := langs]), "languages"), LanguageThrows);
  }

  /** An object without its own `toString` interpolates as "[object Object]". */
  lemma PlainObjectWebsite(x: Value)
    ensures var parsed := Obj(map["contact" := Obj(map["website" := Obj(map["url" := x])])]);
            && Normalize(parsed).Success?
            && Normalize(parsed).value.contactInfo.linkedin == "[object Object]"
  {
    var contact := Obj(map["website" := Obj(map["url" := x])]);
    var parsed := Obj(map["contact" := contact]);
    var site := Member(contact, "website");
    assert site == Obj(map["url" := x]) && !Unprintable(site);
    assert TextOrEmpty(site) == Success("[object Object]");
    assert TextOrEmpty(Member(contact, "linkedin")) == Success("");
    assert !ContactThrows(Member(parsed, "contact"));
    assert !Throws(parsed);
    NormalizeContactInfo(parsed);
    assert "[object Object]" + "" == "[object Object]";
  }
}
