/** The data path of the `POST` handler (app/api/process-pdf/route.ts, lines 327-376):
    the model's reply is cut down to its JSON payload, parsed, normalised, validated
    against the schema and rendered. The first stage that throws decides the answer:
    a parse failure has its own error response, and every later throw reaches the
    handler's outer `catch`. `JSON.parse` is a parameter of the model, so nothing here
    depends on how JSON text is decoded. */
module Pipeline {
  import opened Wrappers
  import opened Text
  import opened JsValue
  import opened Extract
  import opened Normalize
  import opened Schema
  import Render

  /** Why the handler answers with an error instead of a resume. */
  datatype ProcessError =
    | ParseError(payload: string)          // `JSON.parse` threw on the extracted payload, which is logged
    | NormalizeError(error: TypeError)     // the normalising object literal threw
    | ValidationError(issue: SchemaError)  // `ResumeDataSchema.parse` threw

  /** The `error` field of the error response (sent with status 500 in every case):
      the parse failure is reported by its own `catch`, everything after it by the
      handler's outer one. */
  function ErrorTitle(e: ProcessError): (t: string)
    ensures t == "Error parsing resume data" <==> e.ParseError?
  {
    if e.ParseError? then "Error parsing resume data" else "Error processing PDF"
  }

  /** Every stage up to and including validation. A success carries every
      collection: the literal defaults `skills` and `projects` to `[]`, and the
      schema keeps the other collections and `linkedin` unconditionally. */
  function Prepare(reply: string, parse: string -> Option<Value>): (r: Result<Resume, ProcessError>)
    ensures r.Success? ==> Complete(r.value)
    ensures r.Success? ==> r.value.skills.Some? && r.value.projects.Some?
  {
    var payload := ExtractJson(reply);
    match parse(payload)
    case None => Failure(ParseError(payload))
    case Some(parsed) =>
      match Normalize.Normalize(parsed)
      case Failure(e) => Failure(NormalizeError(e))
      case Success(candidate) =>
        NormalizeSkillsAndProjects(parsed);
        match Validate(candidate)
        case Failure(issue) => Failure(ValidationError(issue))
        case Success(resume) =>
          ValidateFields(candidate);
          Success(resume)
  }

  /** The handler's result: the rendered page, or the error it answers with. It
      produces a page exactly for the replies it accepts. */
  function Process(reply: string, parse: string -> Option<Value>): (r: Result<string, ProcessError>)
    ensures r.Success? <==> Accepts(reply, parse)
  {
    PrepareAccepts(reply, parse);
    match Prepare(reply, parse)
    case Failure(e) => Failure(e)
    case Success(resume) => Success(Render.Html(resume))
  }

  /** The parsed payload of a reply, when `JSON.parse` accepts it. */
  function Parsed(reply: string, parse: string -> Option<Value>): Option<Value> {
    parse(ExtractJson(reply))
  }

  /** A reply the handler turns into a page, stated stage by stage without running
      the stages' error plumbing: the payload parses, normalisation has nothing to
      throw on, and the schema accepts what normalisation builds. */
  predicate Accepts(reply: string, parse: string -> Option<Value>) {
    && Parsed(reply, parse).Some?
    && !Throws(Parsed(reply, parse).value)
    && ValidCandidate(Normalize.Normalize(Parsed(reply, parse).value).value)
  }

  // ---------------------------------------------------------------------------
  // Which outcome a reply gets.

  /** The stages up to validation succeed exactly on the replies the handler accepts. */
  lemma PrepareAccepts(reply: string, parse: string -> Option<Value>)
    ensures Prepare(reply, parse).Success? <==> Accepts(reply, parse)
  {
    match Parsed(reply, parse)
    case None =>
    case Some(parsed) =>
      if !Throws(parsed) {
        var c := Normalize.Normalize(parsed).value;
        assert Validate(c).Success? <==> ValidCandidate(c);
      }
  }

  /** The parse error response is given exactly when `JSON.parse` rejects the
      extracted payload; the error value keeps the payload the handler logs, while the
      response itself carries only the title, the message and the stack. */
  lemma ParseFailure(reply: string, parse: string -> Option<Value>)
    ensures Process(reply, parse) == Failure(ParseError(ExtractJson(reply)))
            <==> Parsed(reply, parse).None?
    ensures Process(reply, parse).Failure? ==>
              (ErrorTitle(Process(reply, parse).error) == "Error parsing resume data"
               <==> Parsed(reply, parse).None?)
  {
  }

  /** Normalisation errors come exactly from parsed payloads it throws on. */
  lemma NormalizeFailure(reply: string, parse: string -> Option<Value>)
    ensures (Process(reply, parse).Failure? && Process(reply, parse).error.NormalizeError?)
            <==> (Parsed(reply, parse).Some? && Throws(Parsed(reply, parse).value))
  {
  }

  /** A validation error names a top-level key of the schema as the start of its
      path, and is reported as a processing error. */
  lemma ValidationFailure(reply: string, parse: string -> Option<Value>)
    requires Process(reply, parse).Failure? && Process(reply, parse).error.ValidationError?
    ensures var e := Process(reply, parse).error.issue;
            |e.path| > 0 && e.path[0].Key? && e.path[0].key in TopLevelKeys
    ensures ErrorTitle(Process(reply, parse).error) == "Error processing PDF"
  {
    var parsed := Parsed(reply, parse).value;
    ValidateIssuePath(Normalize.Normalize(parsed).value);
  }

  // ---------------------------------------------------------------------------
  // What an accepted reply renders.

  /** The validated record is the normalised candidate less the keys the schema does
      not know. */
  lemma PrepareOutput(reply: string, parse: string -> Option<Value>)
    requires Prepare(reply, parse).Success?
    ensures Parsed(reply, parse).Some? && Normalize.Normalize(Parsed(reply, parse).value).Success?
    ensures var c := Normalize.Normalize(Parsed(reply, parse).value).value;
            ValidCandidate(c) && Embed(Prepare(reply, parse).value) == Strip(c)
  {
    ValidateOutput(Normalize.Normalize(Parsed(reply, parse).value).value);
  }

  /** The page's title and heading show the parsed `name` when it is a non-empty
      string, and "Professional Resume" when the reply has no name. */
  lemma HeadingName(reply: string, parse: string -> Option<Value>)
    requires Prepare(reply, parse).Success?
    ensures var name := Member(Parsed(reply, parse).value, "name");
            var d := Render.DisplayName(Prepare(reply, parse).value);
            && (name.Str? && name.s != "" ==> d == name.s)
            && (Nullish(name) || name == Str("") ==> d == Render.FallbackTitle)
  {
    var parsed := Parsed(reply, parse).value;
    var c := Normalize.Normalize(parsed).value;
    NormalizeNameAndSummary(parsed);
    var resume := Prepare(reply, parse).value;
    assert Validate(c).Success? && resume == Validate(c).value;
    ValidateFields(c);
    assert FromOption(resume.name) == Member(parsed, "name");
  }

  /** Without a `contact` object, the validated contact fields are all empty. */
  lemma NoContactFields(reply: string, parse: string -> Option<Value>)
    requires Prepare(reply, parse).Success?
    requires Nullish(Member(Parsed(reply, parse).value, "contact"))
    ensures var contact := Prepare(reply, parse).value.contactInfo;
            && contact.email == None && contact.phone == None && contact.location == None
            && contact.linkedin == Some("")
  {
    var parsed := Parsed(reply, parse).value;
    NormalizeContactInfo(parsed);
    PrepareOutput(reply, parse);
  }

  /** A reply without a `contact` object renders no contact spans at all, and in
      particular no LinkedIn link: the normalised LinkedIn text is empty. */
  lemma NoContactNoSpans(reply: string, parse: string -> Option<Value>)
    requires Prepare(reply, parse).Success?
    requires Nullish(Member(Parsed(reply, parse).value, "contact"))
    ensures var doc := Render.Document(Prepare(reply, parse).value);
            && Render.Fixed(Render.EmailOpen) !in doc
            && Render.Fixed(Render.PhoneOpen) !in doc
            && Render.Fixed(Render.LocationOpen) !in doc
            && Render.Fixed(Render.LinkedinOpen) !in doc
  {
    NoContactFields(reply, parse);
    Render.ContactShown(Prepare(reply, parse).value);
  }

  /** The validated languages are the normalised ones, none of which starts with
      "undefined". */
  lemma LanguagesValidated(reply: string, parse: string -> Option<Value>)
    requires Prepare(reply, parse).Success?
    ensures var langs := Normalize.Normalize(Parsed(reply, parse).value).value.languages;
            && Prepare(reply, parse).value.languages == Some(langs)
            && (forall i :: 0 <= i < |langs| ==> !StartsWith(langs[i], UndefinedPrefix))
  {
    var parsed := Parsed(reply, parse).value;
    var c := Normalize.Normalize(parsed).value;
    assert Validate(c).Success? && Prepare(reply, parse).value == Validate(c).value;
    ValidateFields(c);
    NormalizeLanguages(parsed);
  }

  /** The languages section is shown exactly when a language survives the filter. */
  lemma LanguagesRendered(reply: string, parse: string -> Option<Value>)
    requires Prepare(reply, parse).Success?
    ensures var langs := Normalize.Normalize(Parsed(reply, parse).value).value.languages;
            Render.Fixed(Render.LanguagesOpen) in Render.Document(Prepare(reply, parse).value) <==> |langs| > 0
  {
    LanguagesValidated(reply, parse);
    Render.SectionShown(Prepare(reply, parse).value);
  }
}
