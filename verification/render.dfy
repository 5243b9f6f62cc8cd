/** `generateHTMLResume` (app/api/process-pdf/route.ts, lines 97-256).

    The template literal is modelled as a sequence of pieces: fixed fragments of its
    literal text and the text it interpolates. Html joins the pieces into the string the
    route returns. Keeping the two kinds apart lets the properties speak about the
    document's structure even when a resume's own text happens to look like markup. */
module Render {
  import opened Wrappers
  import opened Schema
  import JsValue

  /** The literal stretches of the template, between and around its interpolations. */
  datatype Fragment =
    | DocumentOpen | TitleClose | HeadingClose | ContactBreak
    | EmailOpen | PhoneOpen | LocationOpen | SpanClose | LinkedinOpen | LinkedinClose
    | HeaderClose | SectionBreak | SectionClose | DocumentClose
    | SummaryOpen | SummaryClose
    | ExperienceOpen | JobOpen | JobAt | HeadingToDetail | JobDetailClose
    | AchievementsOpen | ItemOpen | ItemClose | AchievementsClose | JobClose
    | EducationOpen | SchoolOpen | MajorJoin | InstitutionSeparator | EntryClose
    | SkillsOpen | SkillOpen | ListClose
    | ProjectsOpen | ProjectOpen
    | CertificationsOpen | CertificationsClose
    | LanguagesOpen | LanguageOpen

  datatype Piece = Fixed(fragment: Fragment) | Content(text: string)

  const SectionStart: string := "\n          <section class=\"section\">\n            <h2>"

  /** The exact text of each fragment, whitespace included. The contact icons are the
      four-character sequences the source file holds. */
  function FragmentText(f: Fragment): string {
    match f
    case DocumentOpen =>
      "\n      <!DOCTYPE html>\n      <html lang=\"en\">\n      <head>\n        <meta charset=\"UTF-8\">\n"
      + "        <meta name=\"viewport\" content=\"width=device-width, initial-scale=1.0\">\n        <title>"
    case TitleClose =>
        "</title>\n"
      + "        <style>\n"
      + "          body {\n"
      + "            font-family: 'Arial', sans-serif;\n"
      + "            line-height: 1.6;\n"
      + "            color: #333;\n"
      + "            max-width: 800px;\n"
      + "            margin: 0 auto;\n"
      + "            padding: 20px;\n"
      + "            background-color: #f4f4f4;\n"
      + "          }\n"
      + "          .container {\n"
      + "            background-color: #fff;\n"
      + "            padding: 40px;\n"
      + "            border-radius: 5px;\n"
      + "            box-shadow: 0 2px 5px rgba(0,0,0,0.1);\n"
      + "          }\n"
      + "          h1, h2 {\n"
      + "            color: #2c3e50;\n"
      + "            margin-bottom: 10px;\n"
      + "          }\n"
      + "          h1 {\n"
      + "            border-bottom: 2px solid #3498db;\n"
      + "            padding-bottom: 10px;\n"
      + "          }\n"
      + "          h2 {\n"
      + "            border-bottom: 1px solid #bdc3c7;\n"
      + "            padding-bottom: 5px;\n"
      + "            margin-top: 20px;\n"
      + "          }\n"
      + "          .contact-info {\n"
      + "            display: flex;\n"
      + "            justify-content: space-between;\n"
      + "            flex-wrap: wrap;\n"
      + "            margin-bottom: 20px;\n"
      + "          }\n"
      + "          .contact-info span {\n"
      + "            margin-right: 20px;\n"
      + "          }\n"
      + "          .section {\n"
      + "            margin-bottom: 20px;\n"
      + "          }\n"
      + "          .experience-item, .education-item {\n"
      + "            margin-bottom: 15px;\n"
      + "          }\n"
      + "          .experience-item h3, .education-item h3 {\n"
      + "            margin-bottom: 5px;\n"
      + "            color: #2980b9;\n"
      + "          }\n"
      + "          .skills-list, .languages-list {\n"
      + "            display: flex;\n"
      + "            flex-wrap: wrap;\n"
      + "            gap: 10px;\n"
      + "          }\n"
      + "          .skill-item, .language-item {\n"
      + "            background-color: #ecf0f1;\n"
      + "            padding: 5px 10px;\n"
      + "            border-radius: 3px;\n"
      + "            font-size: 0.9em;\n"
      + "          }\n"
      + "        </style>\n"
      + "      </head>\n"
      + "      <body>\n"
      + "        <div class=\"container\">\n"
      + "          <header>\n"
      + "            <h1>"
    case HeadingClose => "</h1>\n            <div class=\"contact-info\">\n              "
    case ContactBreak => "\n              "
    case EmailOpen => "<span>\U{F8FF}\U{00FC}\U{00EC}\U{00DF} "
    case PhoneOpen => "<span>\U{F8FF}\U{00FC}\U{00EC}\U{00B1} "
    case LocationOpen => "<span>\U{F8FF}\U{00FC}\U{00EC}\U{00E7} "
    case SpanClose => "</span>"
    case LinkedinOpen => "<span>\U{F8FF}\U{00FC}\U{00EE}\U{00F3} <a href=\""
    case LinkedinClose => "\" target=\"_blank\">LinkedIn</a></span>"
    case HeaderClose => "\n            </div>\n          </header>\n  \n          "
    case SectionBreak => "\n  \n          "
    case SectionClose => "\n          </section>\n          "
    case DocumentClose => "\n        </div>\n      </body>\n      </html>\n    "
    case SummaryOpen => SectionStart + "Professional Summary</h2>\n            <p>"
    case SummaryClose => "</p>\n          </section>\n          "
    case ExperienceOpen => SectionStart + "Professional Experience</h2>\n            "
    case JobOpen => "\n              <div class=\"experience-item\">\n                <h3>"
    case JobAt => " at "
    case HeadingToDetail => "</h3>\n                <p>"
    case JobDetailClose => "</p>\n                "
    case AchievementsOpen => "\n                  <ul>\n                    "
    case ItemOpen => "<li>"
    case ItemClose => "</li>"
    case AchievementsClose => "\n                  </ul>\n                "
    case JobClose => "\n              </div>\n            "
    case EducationOpen => SectionStart + "Education</h2>\n            "
    case SchoolOpen => "\n              <div class=\"education-item\">\n                <h3>"
    case MajorJoin => " in "
    case InstitutionSeparator => ", "
    case EntryClose => "</p>\n              </div>\n            "
    case SkillsOpen => SectionStart + "Skills</h2>\n            <div class=\"skills-list\">\n              "
    case SkillOpen => "<span class=\"skill-item\">"
    case ListClose => "\n            </div>\n          </section>\n          "
    case ProjectsOpen => SectionStart + "Projects</h2>\n            "
    case ProjectOpen => "\n              <div class=\"project-item\">\n                <h3>"
    case CertificationsOpen => SectionStart + "Certifications</h2>\n            <ul>\n              "
    case CertificationsClose => "\n            </ul>\n          </section>\n          "
    case LanguagesOpen => SectionStart + "Languages</h2>\n            <div class=\"languages-list\">\n              "
    case LanguageOpen => "<span class=\"language-item\">"
  }

  /** The string the pieces stand for. */
  function PieceText(p: Piece): string {
    match p
    case Fixed(f) => FragmentText(f)
    case Content(t) => t
  }

  function Flatten(ps: seq<Piece>): string {
    if |ps| == 0 then "" else PieceText(ps[0]) + Flatten(ps[1..])
  }

  /** `${x}` for an optional string: an absent field prints as `undefined`. */
  function FieldText(o: Option<string>): string {
    match o
    case Some(s) => s
    case None => "undefined"
  }

  /** An optional string the template treats as true: present and non-empty
      (FilledIsTruthy relates it to JavaScript truthiness). */
  predicate Filled(o: Option<string>) {
    o.Some? && o.value != ""
  }

  /** `xs && xs.length > 0`. */
  predicate Present<T>(o: Option<seq<T>>) {
    o.Some? && |o.value| > 0
  }

  const FallbackTitle: string := "Professional Resume"

  /** `resumeData.name || 'Professional Resume'`. */
  function DisplayName(r: Resume): (d: string)
    ensures |d| > 0
    ensures Filled(r.name) ==> d == r.name.value
    ensures !Filled(r.name) ==> d == FallbackTitle
  {
    if Filled(r.name) then r.name.value else FallbackTitle
  }

  /** `xs.map(item).join('')`. */
  function Each<T>(xs: seq<T>, item: T -> seq<Piece>): seq<Piece> {
    if |xs| == 0 then [] else item(xs[0]) + Each(xs[1..], item)
  }

  /** A contact span: shown only for a truthy value. */
  function Span(o: Option<string>, open: Fragment): seq<Piece> {
    if Filled(o) then [Fixed(open), Content(o.value), Fixed(SpanClose)] else []
  }

  function ContactPieces(c: Contact): seq<Piece> {
    Span(c.email, EmailOpen) + [Fixed(ContactBreak)]
    + Span(c.phone, PhoneOpen) + [Fixed(ContactBreak)]
    + Span(c.location, LocationOpen) + [Fixed(ContactBreak)]
    + (if Filled(c.linkedin) then [Fixed(LinkedinOpen), Content(c.linkedin.value), Fixed(LinkedinClose)] else [])
  }

  function SummaryPieces(s: Option<string>): seq<Piece> {
    if Filled(s) then [Fixed(SummaryOpen), Content(s.value), Fixed(SummaryClose)] else []
  }

  function AchievementItem(a: string): seq<Piece> {
    [Fixed(ItemOpen), Content(a), Fixed(ItemClose)]
  }

  /** The part of a job item before its achievements. */
  function JobHeading(j: Job): seq<Piece> {
    [Fixed(JobOpen), Content(FieldText(j.title)), Fixed(JobAt), Content(FieldText(j.company)),
     Fixed(HeadingToDetail), Content(FieldText(j.dates)), Fixed(JobDetailClose)]
  }

  /** A job's achievements list, shown only when it has achievements. */
  function AchievementList(j: Job): seq<Piece> {
    Section(j.achievements, AchievementsOpen, AchievementItem, AchievementsClose)
  }

  function JobItem(j: Job): seq<Piece> {
    JobHeading(j) + AchievementList(j) + [Fixed(JobClose)]
  }

  function SchoolItem(s: School): seq<Piece> {
    [Fixed(SchoolOpen), Content(FieldText(s.degree))]
    + (if Filled(s.major) then [Fixed(MajorJoin), Content(s.major.value)] else [])
    + [Fixed(HeadingToDetail), Content(FieldText(s.institution)), Fixed(InstitutionSeparator),
       Content(FieldText(s.dates)), Fixed(EntryClose)]
  }

  function SkillItem(skill: string): seq<Piece> {
    [Fixed(SkillOpen), Content(skill), Fixed(SpanClose)]
  }

  function ProjectItem(p: Project): seq<Piece> {
    [Fixed(ProjectOpen), Content(p.name), Fixed(HeadingToDetail), Content(p.description), Fixed(EntryClose)]
  }

  /** `typeof cert === 'string' ? cert : cert.name`. */
  function CertificationText(c: Certification): string {
    match c
    case PlainCertification(t) => t
    case NamedCertification(n) => n
  }

  function CertificationItem(c: Certification): seq<Piece> {
    [Fixed(ItemOpen), Content(CertificationText(c)), Fixed(ItemClose)]
  }

  function LanguageItem(l: string): seq<Piece> {
    [Fixed(LanguageOpen), Content(l), Fixed(SpanClose)]
  }

  /** A list section: rendered only when the list is present and non-empty. */
  function Section<T>(o: Option<seq<T>>, open: Fragment, item: T -> seq<Piece>, close: Fragment): seq<Piece> {
    if Present(o) then [Fixed(open)] + Each(o.value, item) + [Fixed(close)] else []
  }

  /** The head of the document up to the contact block: the `<title>`, the style
      sheet and the `<h1>`. */
  function TitlePieces(r: Resume): seq<Piece> {
    [Fixed(DocumentOpen), Content(DisplayName(r)), Fixed(TitleClose), Content(DisplayName(r)), Fixed(HeadingClose)]
  }

  /** Everything after the `<h1>`. */
  function RestPieces(r: Resume): seq<Piece> {
    ContactPieces(r.contactInfo) + [Fixed(HeaderClose)] + BodyPieces(r) + [Fixed(DocumentClose)]
  }

  /** The body sections, in the template's order. */
  function BodyPieces(r: Resume): seq<Piece> {
    SummaryPieces(r.summary) + [Fixed(SectionBreak)]
    + Section(r.experience, ExperienceOpen, JobItem, SectionClose) + [Fixed(SectionBreak)]
    + Section(r.education, EducationOpen, SchoolItem, SectionClose) + [Fixed(SectionBreak)]
    + Section(r.skills, SkillsOpen, SkillItem, ListClose) + [Fixed(SectionBreak)]
    + Section(r.projects, ProjectsOpen, ProjectItem, SectionClose) + [Fixed(SectionBreak)]
    + Section(r.certifications, CertificationsOpen, CertificationItem, CertificationsClose) + [Fixed(SectionBreak)]
    + Section(r.languages, LanguagesOpen, LanguageItem, ListClose)
  }

  /** The page as pieces. */
  function Document(r: Resume): seq<Piece> {
    TitlePieces(r) + RestPieces(r)
  }

  /** `generateHTMLResume(resumeData)`. The returned string opens with the `<title>`
      element and, after the style sheet, the `<h1>`: both hold the name when it is
      truthy, and "Professional Resume" otherwise. */
  function Html(r: Resume): (h: string)
    ensures var d := if Filled(r.name) then r.name.value else FallbackTitle;
            h == FragmentText(DocumentOpen) + (d + (FragmentText(TitleClose) + (d + FragmentText(HeadingClose))))
                 + Flatten(RestPieces(r))
  {
    FlattenAppend(TitlePieces(r), RestPieces(r));
    FlattenFive(DocumentOpen, DisplayName(r), TitleClose, DisplayName(r), HeadingClose);
    Flatten(Document(r))
  }

  // ---------------------------------------------------------------------------
  // The returned string.

  lemma {:induction false} FlattenAppend(a: seq<Piece>, b: seq<Piece>)
    ensures Flatten(a + b) == Flatten(a) + Flatten(b)
  {
    if |a| == 0 {
      assert a + b == b;
    } else {
      assert (a + b)[1..] == a[1..] + b;
      FlattenAppend(a[1..], b);
    }
  }

  lemma FlattenCons(p: Piece, rest: seq<Piece>)
    ensures Flatten([p] + rest) == PieceText(p) + Flatten(rest)
  {
    assert ([p] + rest)[1..] == rest;
  }

  /** Filled is the truthiness of the string value the field stands for. */
  lemma FilledIsTruthy(o: Option<string>)
    ensures Filled(o) <==> JsValue.Truthy(FromOption(o))
  {
  }

  lemma FlattenSingle(p: Piece)
    ensures Flatten([p]) == PieceText(p)
  {
    assert [p][1..] == [];
  }

  lemma FlattenFive(a: Fragment, x: string, b: Fragment, y: string, c: Fragment)
    ensures Flatten([Fixed(a), Content(x), Fixed(b), Content(y), Fixed(c)])
            == FragmentText(a) + (x + (FragmentText(b) + (y + FragmentText(c))))
  {
    FlattenFivePieces(Fixed(a), Content(x), Fixed(b), Content(y), Fixed(c));
  }

  lemma FlattenFivePieces(p1: Piece, p2: Piece, p3: Piece, p4: Piece, p5: Piece)
    ensures Flatten([p1, p2, p3, p4, p5])
            == PieceText(p1) + (PieceText(p2) + (PieceText(p3) + (PieceText(p4) + PieceText(p5))))
  {
    var q4 := [p5];
    var q3 := [p4] + q4;
    var q2 := [p3] + q3;
    var q1 := [p2] + q2;
    assert [p1, p2, p3, p4, p5] == [p1] + q1;
    FlattenSingle(p5);
    FlattenCons(p4, q4);
    FlattenCons(p3, q3);
    FlattenCons(p2, q2);
    FlattenCons(p1, q1);
  }

  // ---------------------------------------------------------------------------
  // Which fragments each part of the document can hold.

  /** Whether the document of `r` may hold fragment `f`: the fixed frame always, each
      span's and each section's own fragments only when the template's condition for
      it holds. */
  predicate Allowed(r: Resume, f: Fragment) {
    var c := r.contactInfo;
    match f
    case EmailOpen => Filled(c.email)
    case PhoneOpen => Filled(c.phone)
    case LocationOpen => Filled(c.location)
    case LinkedinOpen => Filled(c.linkedin)
    case LinkedinClose => Filled(c.linkedin)
    case SpanClose =>
      Filled(c.email) || Filled(c.phone) || Filled(c.location) || Present(r.skills) || Present(r.languages)
    case SummaryOpen => Filled(r.summary)
    case SummaryClose => Filled(r.summary)
    case ExperienceOpen => Present(r.experience)
    case JobOpen => Present(r.experience)
    case JobAt => Present(r.experience)
    case JobDetailClose => Present(r.experience)
    case AchievementsOpen => Present(r.experience)
    case AchievementsClose => Present(r.experience)
    case JobClose => Present(r.experience)
    case ItemOpen => Present(r.experience) || Present(r.certifications)
    case ItemClose => Present(r.experience) || Present(r.certifications)
    case HeadingToDetail => Present(r.experience) || Present(r.education) || Present(r.projects)
    case SectionClose => Present(r.experience) || Present(r.education) || Present(r.projects)
    case EducationOpen => Present(r.education)
    case SchoolOpen => Present(r.education)
    case MajorJoin => Present(r.education)
    case InstitutionSeparator => Present(r.education)
    case EntryClose => Present(r.education) || Present(r.projects)
    case SkillsOpen => Present(r.skills)
    case SkillOpen => Present(r.skills)
    case ListClose => Present(r.skills) || Present(r.languages)
    case ProjectsOpen => Present(r.projects)
    case ProjectOpen => Present(r.projects)
    case CertificationsOpen => Present(r.certifications)
    case CertificationsClose => Present(r.certifications)
    case LanguagesOpen => Present(r.languages)
    case LanguageOpen => Present(r.languages)
    case _ => true
  }

  /** Every fixed fragment of `ps` is allowed in the document of `r`. */
  predicate Conforms(ps: seq<Piece>, r: Resume) {
    forall p :: p in ps && p.Fixed? ==> Allowed(r, p.fragment)
  }

  lemma {:induction false} EachConforms<T>(xs: seq<T>, item: T -> seq<Piece>, r: Resume)
    requires forall x :: x in xs ==> Conforms(item(x), r)
    ensures Conforms(Each(xs, item), r)
  {
    if |xs| > 0 {
      assert xs[0] in xs;
      assert forall x :: x in xs[1..] ==> x in xs;
      EachConforms(xs[1..], item, r);
    }
  }

  lemma SectionConforms<T>(o: Option<seq<T>>, open: Fragment, item: T -> seq<Piece>, close: Fragment, r: Resume)
    requires Present(o) ==> Allowed(r, open) && Allowed(r, close)
    requires Present(o) ==> forall x :: x in o.value ==> Conforms(item(x), r)
    ensures Conforms(Section(o, open, item, close), r)
  {
    if Present(o) {
      EachConforms(o.value, item, r);
    }
  }

  lemma AchievementListConforms(j: Job, r: Resume)
    requires Present(r.experience)
    ensures Conforms(AchievementList(j), r)
  {
    if Present(j.achievements) {
      forall a | a in j.achievements.value ensures Conforms(AchievementItem(a), r) { }
      EachConforms(j.achievements.value, AchievementItem, r);
    }
  }

  lemma JobConforms(j: Job, r: Resume)
    requires Present(r.experience)
    ensures Conforms(JobItem(j), r)
  {
    JobHeadingConforms(j, r);
    AchievementListConforms(j, r);
    ConformsAppend(JobHeading(j), AchievementList(j), r);
    assert Conforms([Fixed(JobClose)], r);
    ConformsAppend(JobHeading(j) + AchievementList(j), [Fixed(JobClose)], r);
  }

  lemma JobHeadingConforms(j: Job, r: Resume)
    requires Present(r.experience)
    ensures Conforms(JobHeading(j), r)
  {
  }

  lemma SpanConforms(o: Option<string>, open: Fragment, r: Resume)
    requires Filled(o) ==> Allowed(r, open) && Allowed(r, SpanClose)
    ensures Conforms(Span(o, open), r)
  {
  }

  lemma ContactConforms(r: Resume)
    ensures Conforms(ContactPieces(r.contactInfo), r)
  {
    var c := r.contactInfo;
    var gap := [Fixed(ContactBreak)];
    assert Conforms(gap, r);
    SpanConforms(c.email, EmailOpen, r);
    SpanConforms(c.phone, PhoneOpen, r);
    SpanConforms(c.location, LocationOpen, r);
    var acc := Span(c.email, EmailOpen);
    ConformsAppend(acc, gap, r);
    acc := acc + gap;
    ConformsAppend(acc, Span(c.phone, PhoneOpen), r);
    acc := acc + Span(c.phone, PhoneOpen);
    ConformsAppend(acc, gap, r);
    acc := acc + gap;
    ConformsAppend(acc, Span(c.location, LocationOpen), r);
    acc := acc + Span(c.location, LocationOpen);
    ConformsAppend(acc, gap, r);
    acc := acc + gap;
    var link := if Filled(c.linkedin) then [Fixed(LinkedinOpen), Content(c.linkedin.value), Fixed(LinkedinClose)] else [];
    assert Conforms(link, r);
    ConformsAppend(acc, link, r);
    assert acc + link == ContactPieces(c);
  }

  lemma HeaderConforms(r: Resume)
    ensures Conforms(TitlePieces(r) + ContactPieces(r.contactInfo) + [Fixed(HeaderClose)], r)
  {
    assert Conforms(TitlePieces(r), r);
    ContactConforms(r);
    ConformsAppend(TitlePieces(r), ContactPieces(r.contactInfo), r);
    assert Conforms([Fixed(HeaderClose)], r);
    ConformsAppend(TitlePieces(r) + ContactPieces(r.contactInfo), [Fixed(HeaderClose)], r);
  }

  lemma ExperienceConforms(r: Resume)
    ensures Conforms(Section(r.experience, ExperienceOpen, JobItem, SectionClose), r)
  {
    if Present(r.experience) {
      forall j | j in r.experience.value ensures Conforms(JobItem(j), r) {
        JobConforms(j, r);
      }
    }
    SectionConforms(r.experience, ExperienceOpen, JobItem, SectionClose, r);
  }

  lemma EducationConforms(r: Resume)
    ensures Conforms(Section(r.education, EducationOpen, SchoolItem, SectionClose), r)
  {
    if Present(r.education) {
      forall s | s in r.education.value ensures Conforms(SchoolItem(s), r) { }
    }
    SectionConforms(r.education, EducationOpen, SchoolItem, SectionClose, r);
  }

  lemma ProjectsConform(r: Resume)
    ensures Conforms(Section(r.projects, ProjectsOpen, ProjectItem, SectionClose), r)
  {
    if Present(r.projects) {
      forall p | p in r.projects.value ensures Conforms(ProjectItem(p), r) { }
    }
    SectionConforms(r.projects, ProjectsOpen, ProjectItem, SectionClose, r);
  }

  lemma SkillsConform(r: Resume)
    ensures Conforms(Section(r.skills, SkillsOpen, SkillItem, ListClose), r)
  {
    if Present(r.skills) {
      forall x | x in r.skills.value ensures Conforms(SkillItem(x), r) { }
    }
    SectionConforms(r.skills, SkillsOpen, SkillItem, ListClose, r);
  }

  lemma CertificationsConform(r: Resume)
    ensures Conforms(Section(r.certifications, CertificationsOpen, CertificationItem, CertificationsClose), r)
  {
    if Present(r.certifications) {
      forall c | c in r.certifications.value ensures Conforms(CertificationItem(c), r) { }
    }
    SectionConforms(r.certifications, CertificationsOpen, CertificationItem, CertificationsClose, r);
  }

  lemma LanguagesConform(r: Resume)
    ensures Conforms(Section(r.languages, LanguagesOpen, LanguageItem, ListClose), r)
  {
    if Present(r.languages) {
      forall x | x in r.languages.value ensures Conforms(LanguageItem(x), r) { }
    }
    SectionConforms(r.languages, LanguagesOpen, LanguageItem, ListClose, r);
  }

  lemma ConformsAppend(a: seq<Piece>, b: seq<Piece>, r: Resume)
    requires Conforms(a, r) && Conforms(b, r)
    ensures Conforms(a + b, r)
  {
  }

  lemma BodyConforms(r: Resume)
    ensures Conforms(BodyPieces(r) + [Fixed(DocumentClose)], r)
  {
    var gap := [Fixed(SectionBreak)];
    var acc := SummaryPieces(r.summary);
    assert Conforms(acc, r);
    assert Conforms(gap, r);
    ConformsAppend(acc, gap, r);
    acc := acc + gap;
    ExperienceConforms(r);
    ConformsAppend(acc, Section(r.experience, ExperienceOpen, JobItem, SectionClose), r);
    acc := acc + Section(r.experience, ExperienceOpen, JobItem, SectionClose);
    ConformsAppend(acc, gap, r);
    acc := acc + gap;
    EducationConforms(r);
    ConformsAppend(acc, Section(r.education, EducationOpen, SchoolItem, SectionClose), r);
    acc := acc + Section(r.education, EducationOpen, SchoolItem, SectionClose);
    ConformsAppend(acc, gap, r);
    acc := acc + gap;
    SkillsConform(r);
    ConformsAppend(acc, Section(r.skills, SkillsOpen, SkillItem, ListClose), r);
    acc := acc + Section(r.skills, SkillsOpen, SkillItem, ListClose);
    ConformsAppend(acc, gap, r);
    acc := acc + gap;
    ProjectsConform(r);
    ConformsAppend(acc, Section(r.projects, ProjectsOpen, ProjectItem, SectionClose), r);
    acc := acc + Section(r.projects, ProjectsOpen, ProjectItem, SectionClose);
    ConformsAppend(acc, gap, r);
    acc := acc + gap;
    CertificationsConform(r);
    ConformsAppend(acc, Section(r.certifications, CertificationsOpen, CertificationItem, CertificationsClose), r);
    acc := acc + Section(r.certifications, CertificationsOpen, CertificationItem, CertificationsClose);
    ConformsAppend(acc, gap, r);
    acc := acc + gap;
    LanguagesConform(r);
    ConformsAppend(acc, Section(r.languages, LanguagesOpen, LanguageItem, ListClose), r);
    acc := acc + Section(r.languages, LanguagesOpen, LanguageItem, ListClose);
    assert acc == BodyPieces(r);
    assert Conforms([Fixed(DocumentClose)], r);
    ConformsAppend(acc, [Fixed(DocumentClose)], r);
  }

  /** Every fixed fragment of the document is allowed by the resume. */
  lemma DocumentConforms(r: Resume)
    ensures Conforms(Document(r), r)
  {
    HeaderConforms(r);
    BodyConforms(r);
    assert Document(r) == (TitlePieces(r) + ContactPieces(r.contactInfo) + [Fixed(HeaderClose)]) + (BodyPieces(r) + [Fixed(DocumentClose)]);
  }

  /** What conformance rules out, for any sequence of pieces. */
  lemma OnlyWhenAllowed(ps: seq<Piece>, r: Resume)
    requires Conforms(ps, r)
    ensures Fixed(SummaryOpen) in ps ==> Filled(r.summary)
    ensures Fixed(ExperienceOpen) in ps ==> Present(r.experience)
    ensures Fixed(EducationOpen) in ps ==> Present(r.education)
    ensures Fixed(SkillsOpen) in ps ==> Present(r.skills)
    ensures Fixed(ProjectsOpen) in ps ==> Present(r.projects)
    ensures Fixed(CertificationsOpen) in ps ==> Present(r.certifications)
    ensures Fixed(LanguagesOpen) in ps ==> Present(r.languages)
    ensures Fixed(EmailOpen) in ps ==> Filled(r.contactInfo.email)
    ensures Fixed(PhoneOpen) in ps ==> Filled(r.contactInfo.phone)
    ensures Fixed(LocationOpen) in ps ==> Filled(r.contactInfo.location)
    ensures Fixed(LinkedinOpen) in ps ==> Filled(r.contactInfo.linkedin)
    ensures Fixed(SkillOpen) in ps ==> Present(r.skills)
  {
  }

  // ---------------------------------------------------------------------------
  // What the document shows.

  /** Each body section is in the document exactly when the template's condition for
      it holds: the summary when it is truthy, a list section when its list is present
      and non-empty. Its opening fragment carries the `<h2>` heading. */
  lemma SectionShown(r: Resume)
    ensures Fixed(SummaryOpen) in Document(r) <==> Filled(r.summary)
    ensures Fixed(ExperienceOpen) in Document(r) <==> Present(r.experience)
    ensures Fixed(EducationOpen) in Document(r) <==> Present(r.education)
    ensures Fixed(SkillsOpen) in Document(r) <==> Present(r.skills)
    ensures Fixed(ProjectsOpen) in Document(r) <==> Present(r.projects)
    ensures Fixed(CertificationsOpen) in Document(r) <==> Present(r.certifications)
    ensures Fixed(LanguagesOpen) in Document(r) <==> Present(r.languages)
  {
    DocumentConforms(r);
    OnlyWhenAllowed(Document(r), r);
    ShownWhenPresent(r);
  }

  /** A present section's opening fragment is in the body. */
  lemma ShownWhenPresent(r: Resume)
    ensures Filled(r.summary) ==> Fixed(SummaryOpen) in Document(r)
    ensures Present(r.experience) ==> Fixed(ExperienceOpen) in Document(r)
    ensures Present(r.education) ==> Fixed(EducationOpen) in Document(r)
    ensures Present(r.skills) ==> Fixed(SkillsOpen) in Document(r)
    ensures Present(r.projects) ==> Fixed(ProjectsOpen) in Document(r)
    ensures Present(r.certifications) ==> Fixed(CertificationsOpen) in Document(r)
    ensures Present(r.languages) ==> Fixed(LanguagesOpen) in Document(r)
  {
    if Filled(r.summary) {
      assert SummaryPieces(r.summary)[0] == Fixed(SummaryOpen);
      BodyInDocument(r, Fixed(SummaryOpen));
    }
    if Present(r.experience) {
      OpenInSection(r.experience, ExperienceOpen, JobItem, SectionClose);
      BodyInDocument(r, Fixed(ExperienceOpen));
    }
    if Present(r.education) {
      OpenInSection(r.education, EducationOpen, SchoolItem, SectionClose);
      BodyInDocument(r, Fixed(EducationOpen));
    }
    if Present(r.skills) {
      OpenInSection(r.skills, SkillsOpen, SkillItem, ListClose);
      BodyInDocument(r, Fixed(SkillsOpen));
    }
    if Present(r.projects) {
      OpenInSection(r.projects, ProjectsOpen, ProjectItem, SectionClose);
      BodyInDocument(r, Fixed(ProjectsOpen));
    }
    if Present(r.certifications) {
      OpenInSection(r.certifications, CertificationsOpen, CertificationItem, CertificationsClose);
      BodyInDocument(r, Fixed(CertificationsOpen));
    }
    if Present(r.languages) {
      OpenInSection(r.languages, LanguagesOpen, LanguageItem, ListClose);
      BodyInDocument(r, Fixed(LanguagesOpen));
    }
  }

  lemma OpenInSection<T>(o: Option<seq<T>>, open: Fragment, item: T -> seq<Piece>, close: Fragment)
    requires Present(o)
    ensures Fixed(open) in Section(o, open, item, close)
  {
    assert Section(o, open, item, close)[0] == Fixed(open);
  }

  lemma BodyInDocument(r: Resume, p: Piece)
    requires p in BodyPieces(r)
    ensures p in Document(r)
  {
    assert Document(r) == (TitlePieces(r) + ContactPieces(r.contactInfo) + [Fixed(HeaderClose)]) + BodyPieces(r) + [Fixed(DocumentClose)];
  }

  /** Each contact span is in the document exactly when its value is truthy; an empty
      LinkedIn string, which the normaliser produces when there is no profile, shows
      no LinkedIn link. */
  lemma ContactShown(r: Resume)
    ensures Fixed(EmailOpen) in Document(r) <==> Filled(r.contactInfo.email)
    ensures Fixed(PhoneOpen) in Document(r) <==> Filled(r.contactInfo.phone)
    ensures Fixed(LocationOpen) in Document(r) <==> Filled(r.contactInfo.location)
    ensures Fixed(LinkedinOpen) in Document(r) <==> Filled(r.contactInfo.linkedin)
  {
    DocumentConforms(r);
    OnlyWhenAllowed(Document(r), r);
  }

  /** Elements each rendered as three pieces appear in order, three pieces apiece. */
  lemma {:induction false} EachInOrder<T>(xs: seq<T>, item: T -> seq<Piece>)
    requires forall x :: x in xs ==> |item(x)| == 3
    ensures |Each(xs, item)| == 3 * |xs|
    ensures forall i :: 0 <= i < |xs| ==> Each(xs, item)[3 * i..3 * i + 3] == item(xs[i])
  {
    if |xs| > 0 {
      assert xs[0] in xs;
      assert forall x :: x in xs[1..] ==> x in xs;
      EachInOrder(xs[1..], item);
      var head, tail := item(xs[0]), Each(xs[1..], item);
      forall i | 0 <= i < |xs| ensures Each(xs, item)[3 * i..3 * i + 3] == item(xs[i]) {
        if i == 0 {
          assert (head + tail)[0..3] == head;
        } else {
          assert (head + tail)[3 * i..3 * i + 3] == tail[3 * (i - 1)..3 * (i - 1) + 3];
          assert xs[1..][i - 1] == xs[i];
        }
      }
    }
  }

  /** A present list section is its opening fragment, one three-piece item per
      element in the list's order, and its closing fragment. */
  lemma ListInOrder<T>(o: Option<seq<T>>, open: Fragment, item: T -> seq<Piece>, close: Fragment)
    requires Present(o)
    requires forall x :: x in o.value ==> |item(x)| == 3
    ensures var s := Section(o, open, item, close);
            && |s| == 3 * |o.value| + 2
            && s[0] == Fixed(open) && s[|s| - 1] == Fixed(close)
            && forall i :: 0 <= i < |o.value| ==> s[1 + 3 * i..4 + 3 * i] == item(o.value[i])
  {
    EachInOrder(o.value, item);
    var e := Each(o.value, item);
    forall i | 0 <= i < |o.value| ensures ([Fixed(open)] + e + [Fixed(close)])[1 + 3 * i..4 + 3 * i] == item(o.value[i]) {
      assert ([Fixed(open)] + e + [Fixed(close)])[1 + 3 * i..4 + 3 * i] == e[3 * i..3 * i + 3];
    }
  }

  /** The skills section holds one skill-item span per skill, in the list's order. */
  lemma SkillsInOrder(r: Resume)
    requires Present(r.skills)
    ensures var s := Section(r.skills, SkillsOpen, SkillItem, ListClose);
            var xs := r.skills.value;
            && |s| == 3 * |xs| + 2
            && forall i :: 0 <= i < |xs| ==> s[1 + 3 * i..4 + 3 * i] == [Fixed(SkillOpen), Content(xs[i]), Fixed(SpanClose)]
    ensures Fixed(SkillOpen) in Document(r)
  {
    ListInOrder(r.skills, SkillsOpen, SkillItem, ListClose);
    var s := Section(r.skills, SkillsOpen, SkillItem, ListClose);
    assert s[1..4] == SkillItem(r.skills.value[0]);
    assert s[1] == Fixed(SkillOpen);
  }

  /** Skill-item spans appear only when there are skills to show. */
  lemma SkillItemsOnlyInSkills(r: Resume)
    ensures Fixed(SkillOpen) in Document(r) ==> Present(r.skills)
  {
    DocumentConforms(r);
    OnlyWhenAllowed(Document(r), r);
  }

  /** The languages section holds one language-item span per language, in order. */
  lemma LanguagesInOrder(r: Resume)
    requires Present(r.languages)
    ensures var s := Section(r.languages, LanguagesOpen, LanguageItem, ListClose);
            var xs := r.languages.value;
            && |s| == 3 * |xs| + 2
            && forall i :: 0 <= i < |xs| ==> s[1 + 3 * i..4 + 3 * i] == [Fixed(LanguageOpen), Content(xs[i]), Fixed(SpanClose)]
  {
    ListInOrder(r.languages, LanguagesOpen, LanguageItem, ListClose);
  }

  /** The certifications list holds one `<li>` per certification, in order: a string
      as itself, an object by its name. */
  lemma CertificationsInOrder(r: Resume)
    requires Present(r.certifications)
    ensures var s := Section(r.certifications, CertificationsOpen, CertificationItem, CertificationsClose);
            var cs := r.certifications.value;
            && |s| == 3 * |cs| + 2
            && forall i :: 0 <= i < |cs| ==>
                 && s[1 + 3 * i] == Fixed(ItemOpen) && s[3 + 3 * i] == Fixed(ItemClose)
                 && s[2 + 3 * i] == Content(if cs[i].PlainCertification? then cs[i].text else cs[i].name)
  {
    ListInOrder(r.certifications, CertificationsOpen, CertificationItem, CertificationsClose);
    var s := Section(r.certifications, CertificationsOpen, CertificationItem, CertificationsClose);
    var cs := r.certifications.value;
    forall i | 0 <= i < |cs|
      ensures s[1 + 3 * i] == Fixed(ItemOpen) && s[3 + 3 * i] == Fixed(ItemClose)
      ensures s[2 + 3 * i] == Content(if cs[i].PlainCertification? then cs[i].text else cs[i].name)
    {
      var w := s[1 + 3 * i..4 + 3 * i];
      assert w == CertificationItem(cs[i]);
      assert w[0] == s[1 + 3 * i] && w[1] == s[2 + 3 * i] && w[2] == s[3 + 3 * i];
    }
  }

  /** A school's heading reads "degree in major" exactly when the major is truthy. */
  lemma SchoolHeading(s: School)
    ensures Fixed(MajorJoin) in SchoolItem(s) <==> Filled(s.major)
    ensures Filled(s.major) ==> SchoolItem(s)[..4] == [Fixed(SchoolOpen), Content(FieldText(s.degree)), Fixed(MajorJoin), Content(s.major.value)]
  {
    var head := [Fixed(SchoolOpen), Content(FieldText(s.degree))];
    var tail := [Fixed(HeadingToDetail), Content(FieldText(s.institution)), Fixed(InstitutionSeparator),
                 Content(FieldText(s.dates)), Fixed(EntryClose)];
    if Filled(s.major) {
      assert SchoolItem(s) == head + [Fixed(MajorJoin), Content(s.major.value)] + tail;
      assert (head + [Fixed(MajorJoin), Content(s.major.value)] + tail)[..4] == head + [Fixed(MajorJoin), Content(s.major.value)];
    }
  }

  /** A job shows an achievements list exactly when it has achievements. */
  lemma JobAchievements(j: Job)
    ensures Fixed(AchievementsOpen) in JobItem(j) <==> Present(j.achievements)
    ensures Present(j.achievements) ==>
              var l := AchievementList(j);
              var xs := j.achievements.value;
              && |l| == 3 * |xs| + 2
              && forall i :: 0 <= i < |xs| ==> l[1 + 3 * i..4 + 3 * i] == [Fixed(ItemOpen), Content(xs[i]), Fixed(ItemClose)]
  {
    if Present(j.achievements) {
      ListInOrder(j.achievements, AchievementsOpen, AchievementItem, AchievementsClose);
    }
  }

  /** A job heading interpolates its fields verbatim; a missing one prints as the
      text "undefined". */
  lemma JobHeadingFields(j: Job)
    ensures JobItem(j)[1] == Content(if j.title.Some? then j.title.value else "undefined")
    ensures JobItem(j)[3] == Content(if j.company.Some? then j.company.value else "undefined")
    ensures JobItem(j)[5] == Content(if j.dates.Some? then j.dates.value else "undefined")
  {
    assert JobItem(j)[..7] == JobHeading(j);
  }

  /** A school heading interpolates degree, institution and dates verbatim; a missing
      one prints as the text "undefined". */
  lemma SchoolFields(s: School)
    ensures var item := SchoolItem(s);
            && |item| >= 7
            && item[1] == Content(if s.degree.Some? then s.degree.value else "undefined")
            && item[|item| - 4] == Content(if s.institution.Some? then s.institution.value else "undefined")
            && item[|item| - 2] == Content(if s.dates.Some? then s.dates.value else "undefined")
  {
  }
}
