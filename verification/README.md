# AI resume generator: the reply-to-page path, in Dafny

The route `app/api/process-pdf/route.ts` takes a PDF, asks a language model for the
résumé data in it, and answers with an HTML page. This project models the part of
that route that turns the model's free-text reply into the page:

- **Extraction** (`extract.dfy`, `text.dfy`). `extractJSONFromString` first looks for a
  fenced code block, optionally tagged `json`, and returns its trimmed content. Failing
  that, it takes the slice from the first `{` through the last `}`. Failing that, it
  returns the reply unchanged. The regular expression's backtracking is worked out
  exactly: it matches when the first triple backtick is followed by a second one three
  or more characters later.
- **Normalisation** (`js_value.dfy`, `normalize.dfy`). This is the object literal that
  maps the parsed JSON onto the schema's field names. It works over a small model of
  JavaScript values with the route's semantics:
  - `||` falls through on every falsy value;
  - `?.` stops only at `null` and `undefined`;
  - a plain property read of `null` throws, and so does `.map` or `.split` on a value
    without that method;
  - template literals print `undefined` for a missing value and `[object Object]` for
    a plain object, and they throw on an object with its own `toString` key (such a
    key is never callable after `JSON.parse`, so no conversion to a primitive
    succeeds), or on an array holding one at any depth.

  Every throw is a `Failure` carrying the `TypeError`, and the literal's fields are
  evaluated in source order, `contactInfo` before the mapped collections.
- **Validation** (`schema.dfy`). The Zod schema is a predicate over the normalised
  record. `ResumeDataSchema.parse` is `Validate`, which returns either the typed
  `Resume` or the first issue, in schema order, with its path.
- **Rendering** (`render.dfy`). `generateHTMLResume` is a sequence of pieces. Each piece
  is either fixed template text (a `Fragment`, spelled exactly as in the template) or
  interpolated content. The returned string is the concatenation of the pieces.
- **The handler** (`pipeline.dfy`). The stages run in order, and the first one that
  throws picks the error response.

`wrappers.dfy` holds the `Option` and `Result` types.

A language object is formatted as `${name || language} (${level || proficiency})`,
and the filter drops it exactly when the text of its name part starts with
`undefined`. So `{name: "French"}` becomes `French (undefined)` and is kept, and so
is `{language: null}`, which becomes `null (undefined)`. An object with neither a name
nor a language, and one whose name itself starts with `undefined`, is dropped. The
model follows the code here, not the expectation that every entry without a level
disappears.

## Model

| member | source | states |
|---|---|---|
| Extract.ExtractJson | app/api/process-pdf/route.ts:257-274 | The result is never longer than the reply. With a fenced block it has no whitespace at either end. Without a fence but with a `{` before a `}`, it starts with `{` and ends with `}`. With neither, it is the reply itself. |
| Extract.FencePair | app/api/process-pdf/route.ts:259-260 | The regex matches exactly when the reply holds two non-overlapping triple backticks. It then pairs the first fence with the first fence that starts at least three characters later. |
| Extract.FencePrecedence | app/api/process-pdf/route.ts:258-262 | Whenever a fenced block exists, the result is the trimmed capture of that first block, whatever braces the reply holds elsewhere. |
| Extract.FencedBlockAt | app/api/process-pdf/route.ts:259-261 | For a block without backticks, opened at the reply's first backtick, the result is the block's body trimmed, less a `json` tag that directly follows the opening fence. |
| Extract.FencedBlockInProse | app/api/process-pdf/route.ts:259-261 | When neither the prose before a fenced block nor the block's body holds a backtick, the result is the body, less a leading `json` tag, trimmed. The prose and anything after the block, braces included, do not affect it. |
| Extract.BraceSpanIff | app/api/process-pdf/route.ts:265-268 | The brace branch's test (first `{` found, last `}` found, and the last `}` after the first `{`) holds exactly when some `{` precedes some `}`. |
| Extract.BraceSlice | app/api/process-pdf/route.ts:264-270 | With no fence, and with the first `{` before the last `}`, the result is the contiguous slice from that `{` through that `}`. |
| Extract.NoBraceSpanIsIdentity | app/api/process-pdf/route.ts:272-273 | With no fence and no `}` after any `{`, the reply is returned unchanged. |
| Text.Trim | app/api/process-pdf/route.ts:261 | `trim()` leaves no whitespace at either end and never lengthens the text. |
| Text.TrimUnique | app/api/process-pdf/route.ts:261 | Any split of a string into whitespace, a core with no whitespace at its ends, and whitespace gives the trimmed string as its core. |
| Text.TrimIdempotent | app/api/process-pdf/route.ts:261 | Trimming a trimmed string changes nothing. |
| Text.IndexOf | app/api/process-pdf/route.ts:265 | `indexOf` reports the first position of the character, or none exactly when the character is absent. |
| Text.LastIndexOf | app/api/process-pdf/route.ts:266 | `lastIndexOf` reports the last position of the character, or none exactly when the character is absent. |
| Text.SecondSegment | app/api/process-pdf/route.ts:359 | `split(',')[1]` exists exactly when there is a comma. It is the comma-free text that runs from the first comma to the next comma or the end. |
| Text.FindFrom | app/api/process-pdf/route.ts:259 | The regular expression's scan for a triple backtick finds the first one at or after a position, and finds none exactly when none occurs there. |
| JsValue.Get | app/api/process-pdf/route.ts:342 | A plain property read throws exactly on `null` and `undefined`. Otherwise it gives the property's value. |
| JsValue.ToText | app/api/process-pdf/route.ts:347-368 | A template literal prints a string as itself, a missing value as `undefined` and a plain object as `[object Object]`. It throws exactly on an object with its own `toString` key, or on an array holding one at any depth. |
| JsValue.JoinText | app/api/process-pdf/route.ts:368 | An array converts through `join`, which throws exactly when one of its elements cannot be converted. |
| JsValue.TextOrEmpty | app/api/process-pdf/route.ts:347 | `${v || ''}` gives empty text for a falsy value and the string itself for a string. It throws exactly when `v` cannot be converted. |
| Normalize.MapAll | app/api/process-pdf/route.ts:350-369 | `map` with a callback that may throw succeeds exactly when every element succeeds. The results then keep the elements' order and count. Otherwise the error is the first failing element's. |
| Normalize.MapOptional | app/api/process-pdf/route.ts:350-369 | `coll?.map(f)`, defaulting to `[]`, gives nothing for a nullish collection. It throws on any other non-array, and on an array exactly when some element makes `f` throw. Otherwise it keeps count and order. |
| Normalize.NormalizeContact | app/api/process-pdf/route.ts:343-348 | `contactInfo` reads its fields from `contact` alone and is empty for a missing `contact`. It throws exactly when the website or the handle cannot be interpolated. |
| Normalize.NormalizeJob | app/api/process-pdf/route.ts:350-355 | A job throws exactly on a nullish element. Its title is `title` when truthy, else `position`, and its achievements are never falsy. |
| Normalize.MajorFromDegree | app/api/process-pdf/route.ts:359 | The `degree` fallback throws exactly on a degree that is neither nullish nor a string. It gives a trimmed, comma-free major exactly when the degree is a string with a comma. |
| Normalize.NormalizeSchool | app/api/process-pdf/route.ts:356-361 | A school throws exactly when SchoolThrows says so: a nullish element, or a non-string `degree` that the major fallback must split. Otherwise its major is ExpectedMajor. |
| Normalize.NormalizeCertification | app/api/process-pdf/route.ts:364-366 | A certification throws exactly on a nullish element. A string is kept, and anything else becomes its `name`. |
| Normalize.LanguageText | app/api/process-pdf/route.ts:367-368 | A language throws exactly when LanguageThrows says so: a nullish element, or an object whose name part or level part cannot be interpolated. A string is kept. |
| Normalize.Normalize | app/api/process-pdf/route.ts:341-370 | The object literal throws exactly in these cases: the parsed value is nullish; the website or handle cannot be interpolated; a collection is neither nullish nor an array; an experience or certification element is nullish; an education element is nullish or needs its non-string `degree` split; or a language element is nullish or has a part that cannot be interpolated. |
| Normalize.WebsiteWithOwnToString | app/api/process-pdf/route.ts:347 | A website given as an object with its own `toString` key makes the literal throw. |
| Normalize.LanguageWithOwnToString | app/api/process-pdf/route.ts:368 | A language name that is an array holding an object with its own `toString` key makes the literal throw. |
| Normalize.PlainObjectWebsite | app/api/process-pdf/route.ts:347 | A website given as an object without its own `toString` becomes the LinkedIn text `[object Object]`. |
| Normalize.NormalizeContactInfo | app/api/process-pdf/route.ts:343-348 | In a successful normalisation, contact fields come only from `contact`. `linkedin` is the website's text followed by the handle's, each replaced by empty text when falsy. Without a `contact` object every field is empty. |
| Normalize.NormalizeExperience | app/api/process-pdf/route.ts:350-355 | Jobs keep the source's count and order. Each job takes `title`, else `position`; `dates`, else `tenure`; `achievements`, else `keyAchievements`, else `[]`. |
| Normalize.NormalizeEducation | app/api/process-pdf/route.ts:356-361 | Schools keep count and order. `dates` falls back to `graduation_date`. `major` is `major`, else `field`, else the trimmed second comma-separated piece of a string `degree`. |
| Normalize.NormalizeSkillsAndProjects | app/api/process-pdf/route.ts:362-363 | `skills` is `skills`, else `top_skills`, else `[]`. `projects` is `projects`, else `[]`. |
| Normalize.NormalizeCertifications | app/api/process-pdf/route.ts:364-366 | Certifications keep count and order. A string stays as it is, and anything else becomes its `name`. |
| Normalize.LanguageObjectDropped | app/api/process-pdf/route.ts:367-369 | A language object that does not throw is formatted as text that starts with `undefined` exactly when its name part does. |
| Normalize.LanguageWithoutLevel | app/api/process-pdf/route.ts:368 | A language object whose name is a non-empty string that does not start with `undefined`, and which has no level, becomes `<name> (undefined)` and survives the filter. |
| Normalize.DropUndefined | app/api/process-pdf/route.ts:369 | The filter removes exactly the entries that start with `undefined`. Every survivor comes from the input. |
| Normalize.DropUndefinedCounts | app/api/process-pdf/route.ts:369 | Every entry that starts with `undefined` loses all its occurrences, and every other entry keeps its number of occurrences. |
| Normalize.DropUndefinedAppend | app/api/process-pdf/route.ts:369 | The filter distributes over concatenation, so survivors keep their relative order. |
| Normalize.NormalizeLanguages | app/api/process-pdf/route.ts:367-369 | The languages are the formatted entries that survive the filter, in order, and none starts with `undefined`. |
| Normalize.NormalizeEmptyObject | app/api/process-pdf/route.ts:341-370 | An empty object normalises without throwing. Every collection comes out empty and `linkedin` is empty text. |
| Normalize.LinkedinConcatenation | app/api/process-pdf/route.ts:347 | A website and a handle are glued together with nothing in between. |
| Schema.CheckEach | app/api/process-pdf/route.ts:21-38 | An array check succeeds exactly when every element does, and keeps order and count. Otherwise it reports the first failing element's issue. |
| Schema.CheckString | app/api/process-pdf/route.ts:13 | An optional string accepts exactly `undefined` and strings, and gives back what it was given. |
| Schema.CheckStringArray | app/api/process-pdf/route.ts:33 | An optional string array accepts exactly `undefined` and arrays of strings. |
| Schema.CheckContact | app/api/process-pdf/route.ts:14-19 | The contact object is accepted exactly when email, phone and location are optional strings. `linkedin` is always kept. |
| Schema.CheckJob | app/api/process-pdf/route.ts:21-26 | A job is accepted exactly when it meets its object schema, and the typed job embeds back to it. |
| Schema.CheckSchool | app/api/process-pdf/route.ts:27-32 | A school is accepted exactly when it meets its object schema, and the typed school embeds back to it. |
| Schema.CheckProject | app/api/process-pdf/route.ts:34-37 | A project needs a string name and description. Unknown keys are dropped. |
| Schema.CheckProjects | app/api/process-pdf/route.ts:34-37 | `projects` is accepted exactly when it is absent or an array of valid projects. |
| Schema.CheckCertification | app/api/process-pdf/route.ts:38 | A certification is accepted exactly when it is a string or an object with a string `name`. |
| Schema.Validate | app/api/process-pdf/route.ts:12-40 | `parse` succeeds exactly on candidates that meet the schema. A success always carries `linkedin`, experience, education, certifications and languages. |
| Schema.ValidateIssuePath | app/api/process-pdf/route.ts:12-40 | A rejection's issue path starts with one of the schema's top-level keys. |
| Schema.ValidateOutput | app/api/process-pdf/route.ts:12-40 | An accepted candidate comes back, through the embedding, as itself less the object keys the schema does not know. |
| Schema.ValidateRoundTrip | app/api/process-pdf/route.ts:12-40 | Every complete typed résumé is accepted as its own embedding and comes back unchanged. |
| Schema.ProjectWithoutDescription | app/api/process-pdf/route.ts:34-37 | An otherwise valid candidate whose project lacks a description fails at `projects[0].description`. |
| Render.DisplayName | app/api/process-pdf/route.ts:104 | The title text is never empty: it is the name when that is truthy, otherwise "Professional Resume". |
| Render.Html | app/api/process-pdf/route.ts:97-169 | The page opens with the `<title>` and, after the style sheet, the `<h1>`. Both hold the name when it is truthy, and "Professional Resume" otherwise. |
| Render.DocumentConforms | app/api/process-pdf/route.ts:97-256 | Every fixed fragment in the page is one the résumé's data allows. |
| Render.FilledIsTruthy | app/api/process-pdf/route.ts:104-251 | The template's test on an optional string field is JavaScript truthiness of its value. |
| Render.SectionShown | app/api/process-pdf/route.ts:178-251 | Each body section appears exactly when its condition holds: a truthy summary, or a present and non-empty list. |
| Render.ContactShown | app/api/process-pdf/route.ts:171-174 | Each contact span appears exactly when its value is truthy. In particular, an empty LinkedIn text shows no link. |
| Render.SkillsInOrder | app/api/process-pdf/route.ts:214-221 | The skills section holds one `skill-item` span per skill, in the list's order. |
| Render.SkillItemsOnlyInSkills | app/api/process-pdf/route.ts:218 | `skill-item` spans appear only when there are skills. |
| Render.LanguagesInOrder | app/api/process-pdf/route.ts:244-251 | The languages section holds one `language-item` span per language, in order. |
| Render.CertificationsInOrder | app/api/process-pdf/route.ts:235-242 | The certifications list holds one `<li>` per certification, in order: a string as itself, an object by its name. |
| Render.JobHeadingFields | app/api/process-pdf/route.ts:190-191 | A job's title, company and dates are interpolated verbatim, and a missing one prints as the text `undefined`. |
| Render.SchoolFields | app/api/process-pdf/route.ts:207-208 | A school's degree, institution and dates are interpolated verbatim, and a missing one prints as the text `undefined`. |
| Render.SchoolHeading | app/api/process-pdf/route.ts:205-209 | A school heading reads "degree in major" exactly when the major is truthy. |
| Render.JobAchievements | app/api/process-pdf/route.ts:188-198 | A job shows an achievements list exactly when it has achievements, with one `<li>` per achievement, in order. |
| Pipeline.ErrorTitle | app/api/process-pdf/route.ts:331-338 | Only a parse failure is reported as "Error parsing resume data". |
| Pipeline.Prepare | app/api/process-pdf/route.ts:328-375 | The stages up to validation. A success always has `linkedin` and every collection present, `skills` and `projects` included, because the literal defaults them to `[]`. |
| Pipeline.Process | app/api/process-pdf/route.ts:328-378 | The handler answers with a page exactly when three things hold: the payload parses, normalisation does not throw, and the schema accepts the result. |
| Pipeline.ParseFailure | app/api/process-pdf/route.ts:331-338 | The parse error is given exactly when `JSON.parse` rejects the extracted payload. The error value keeps that payload, which the handler only logs; the response carries the title `Error parsing resume data`, the message and the stack, with status 500. |
| Pipeline.NormalizeFailure | app/api/process-pdf/route.ts:341-381 | Normalisation errors come exactly from parsed payloads that the object literal throws on. |
| Pipeline.ValidationFailure | app/api/process-pdf/route.ts:374-381 | A validation error is reported as a processing error, under a top-level schema key. |
| Pipeline.PrepareOutput | app/api/process-pdf/route.ts:374-375 | The validated record is the normalised candidate less unknown keys. |
| Pipeline.HeadingName | app/api/process-pdf/route.ts:342 | The page shows the parsed `name` when it is a non-empty string, and "Professional Resume" when the name is missing or empty. |
| Pipeline.NoContactFields | app/api/process-pdf/route.ts:343-348 | Without a `contact` object, the validated contact has no email, phone or location, and an empty `linkedin`. |
| Pipeline.NoContactNoSpans | app/api/process-pdf/route.ts:171-174 | Without a `contact` object, the page has no contact spans, LinkedIn included. |
| Pipeline.LanguagesValidated | app/api/process-pdf/route.ts:367-375 | The validated languages are the normalised ones, and none starts with `undefined`. |
| Pipeline.LanguagesRendered | app/api/process-pdf/route.ts:244-251 | The languages section appears exactly when a language survives the filter. |

## Left out

- Reading the request body `{ fileUrl, apiKey }` with `req.json()` (line 278), the 400 answer `File URL and API key are required` when either is missing (lines 280-282), and building the JSON responses (lines 378-382) are left out. They are HTTP plumbing; the model returns the page or the error value instead.
- Fetching the PDF from `fileUrl` and extracting its text with `pdf-parse` (lines 287-294) are left out. They are network and foreign-library I/O.
- The model call and the prompt (lines 42-65 and 298-324) are left out. They are network calls into code not in this repository. The reply is the model's input.
- `JSON.parse` is a parameter of the handler model. Decoding JSON text is not part of this model.
- Logging to the console is left out. It has no effect on the result.
- Schema.Validate: reports only the first issue, in schema order. Zod collects every issue; the first one is what the model's error carries.
- JsValue.ToText: numbers are integers. Fractions and exponent notation are not modelled, so `String(n)` is exact only below 10^21 in magnitude.
- Strings are sequences of Unicode scalar values, while JavaScript strings are UTF-16 code units. A lone surrogate cannot be represented, and `length` and indices count differently for characters outside the Basic Multilingual Plane. A string holding a lone surrogate, such as one `JSON.parse` decodes from a `\ud800` escape, is outside the model. The delimiters the route looks for and the whitespace `trim()` removes are all single code units, so the text the model extracts and trims is the same either way.
- JsValue.Member: properties that a built-in prototype supplies are not modelled. The route reads only its own keys, and no built-in prototype defines those.
- The stack trace and error message in an error response are left out. They depend on the JavaScript engine.
- The page component, UI components, configuration files and type declarations are not part of this model.
