# Career-coach server actions, modelled in Dafny

This project models the server side of an AI career-coach web application. That server side has three parts:

- **Cover letters** (`actions/cover-letter.js`): generate a cover letter for a job and store it, list the caller's letters newest first, fetch one, and delete one.
- **Resumes** (`actions/resume.js`): save the caller's resume, read it back, and ask the text-generation service to improve one piece of resume text.
- **Validation** (`app/lib/schema.js`): the rules that check the onboarding, resume and cover-letter forms.

Every action starts by resolving the session to a user. The checks stop at the first failure:

1. No session, or an empty user id, is `Unauthorized`.
2. A session with no user row is `User not found`.

Modelling choices:

- The database is the class `Store.Database`, held in memory. It has:
  - a user table keyed by the authentication provider's id;
  - a cover-letter table kept in creation order;
  - a resume table keyed by the owner's internal id;
  - a `clock` counter that stands for the time stamps;
  - a `nextId` counter that stands for generated ids.
- The text-generation service is a parameter `generate: string -> Result<string, string>`. It maps the prompt to the completion's text or to an error message. This lets each contract name the exact prompt that was sent.
- Prompts are template literals (`Strings.Fill`). Each one is a sequence of fixed fragments, with their exact wording, and holes for the substituted values.
- JavaScript `trim`, `split`, `join`, `parseInt` and number rendering are written out in module `Strings`.

Files:

- `wrappers.dfy`: `Option` and `Result`.
- `strings.dfy`: JavaScript string operations and template literals.
- `schema.dfy`: the zod schemas.
- `store.dfy`: entities, the database and identity resolution.
- `cover_letter.dfy`: the cover-letter actions.
- `resume.dfy`: the resume actions.

## Model

| member | source | states |
|---|---|---|
| Strings.Trim | actions/cover-letter.js:58 | `String.prototype.trim`: the result has no white space at either end and is the input with only white space removed before and after it |
| Strings.TrimPadded | actions/resume.js:119 | trimming a text padded with white space on both sides gives the text back, when that text is itself trimmed |
| Strings.TrimIdempotent | actions/resume.js:119 | trimming twice is trimming once |
| Strings.Split | app/lib/schema.js:23 | `split(",")` always gives at least one piece |
| Strings.SplitWithoutSeparator | app/lib/schema.js:23 | a text with no comma splits into one piece, the text itself |
| Strings.SplitSpec | app/lib/schema.js:23 | `split(",")` gives one more piece than there are commas; no piece holds a comma; joining the pieces with the separator gives the input back |
| Strings.SplitJoin | app/lib/schema.js:23 | splitting pieces that hold no separator, once joined with it, gives the same pieces back |
| Strings.Join | actions/cover-letter.js:28 | `join` starts with the first piece |
| Strings.JoinLength | actions/cover-letter.js:28 | a join is as long as its pieces together plus one separator between each two |
| Strings.NatToString | actions/cover-letter.js:27 | `${n}` renders a natural number as decimal digits whose value is the number, "0" for zero and otherwise with no leading zero |
| Strings.IntToString | actions/cover-letter.js:27 | `${n}` renders an integer as decimal digits whose value is the number, with no leading zero, and with a leading `-` exactly when it is negative |
| Strings.ParseInt | app/lib/schema.js:13 | `parseInt(val, 10)` reads a text of digits alone as its decimal value; a blank text is `NaN`, and a number is read only when the text holds a digit |
| Strings.Utf16Length | app/lib/schema.js:10 | a string's JavaScript `length`: between its number of characters and twice that, equal to the first exactly when every character lies in the Basic Multilingual Plane and to the second exactly when none does; one character counts one unit, or two outside that plane |
| Strings.Utf16LengthAppend | app/lib/schema.js:10 | the length of a concatenation is the sum of the lengths, which with the one-character case fixes the length of every string |
| Strings.ParseIntSkipsLeadingSpace | app/lib/schema.js:13 | `parseInt` skips leading white space: the text after it is read as if it stood alone (" 5" is 5) |
| Strings.ParseIntSigned | app/lib/schema.js:13 | a `+` before the digits keeps their value and a `-` negates it, whatever non-digit text follows ("+5x" is 5, "-12 years" is -12) |
| Strings.ParseIntNoDigit | app/lib/schema.js:13 | a text whose first character, after an optional sign, is not a digit or is missing is `NaN` ("x5", "-", "+-5") |
| Strings.ParseIntRoundTrip | app/lib/schema.js:13 | `parseInt(String(n), 10)` is `n` for every integer, negative ones included |
| Strings.ParseIntDigitsThenText | app/lib/schema.js:13 | `parseInt` reads the leading digits and ignores whatever follows them |
| Strings.FillMentions | actions/cover-letter.js:21-54 | a value substituted into a template literal occurs verbatim in the resulting text |
| Strings.FillMentionsTwice | actions/cover-letter.js:21-54 | a value substituted at two holes occurs twice without overlap |
| Schema.PresentIssues | app/lib/schema.js:4-9 | `z.string({ required_error })` reports its message exactly when the value is missing, and nothing otherwise |
| Schema.FilledIssues | app/lib/schema.js:78-79 | `z.string().min(1, …)` reports no issue exactly when the value is present and non-empty, and every issue it reports is at the field's path; a missing value gets zod's `Required`, the empty string the schema's own message |
| Schema.BioIssues | app/lib/schema.js:10 | `max(500)` reports an issue exactly when the bio is present and longer than 500 UTF-16 code units, and that issue is zod's length message at `bio` |
| Schema.Experience | app/lib/schema.js:11-19 | experience is accepted exactly when `parseInt(val, 10)` is a number in [0, 50], and the accepted value is that number; non-numeric text gets zod's "Expected number, received nan", a number below 0 "Experience must be at least 0 years" and one above 50 "Experience cannot exceed 50 years" |
| Schema.ExperienceOfRendered | app/lib/schema.js:11-19 | a year count typed in digits is accepted exactly when it lies in [0, 50], and it is read back as itself |
| Schema.ExperienceIgnoresTrailingText | app/lib/schema.js:13 | text after the digits does not change the verdict ("7 years" is 7) |
| Schema.DropEmpty | app/lib/schema.js:25 | `filter(Boolean)` drops every empty piece and keeps every other piece as often as it occurs, in their order |
| Schema.SkillsTransform | app/lib/schema.js:20-27 | the empty string gives `undefined`; otherwise no skill is empty, untrimmed or holds a comma, there are at most commas + 1 skills, they are the trimmed pieces in input order with the empty ones dropped, and every piece that trims to some text is among them |
| Schema.TrimmedPieces | app/lib/schema.js:23-25 | after trimming and dropping the empty ones, every comma-free piece left is non-empty, trimmed and comma-free, and no piece that trims to some text is lost |
| Schema.SkillsRoundTrip | app/lib/schema.js:20-27 | trimmed, comma-free, non-empty skills joined with ", " go back through the transform to the same skills, or to `undefined` when there are none |
| Schema.ParseOnboarding | app/lib/schema.js:3-28 | onboarding is accepted exactly when industry and specialization are present, the bio is absent or at most 500 UTF-16 code units long, experience passes its rule and skills are present; the accepted value carries the parsed experience and transformed skills |
| Schema.BioLimitInCodeUnits | app/lib/schema.js:10 | `max(500)` counts UTF-16 code units: a bio over 500 characters is always rejected and one of 250 always accepted; a text of characters outside the Basic Multilingual Plane passes up to 250 of them |
| Schema.ParseContact | app/lib/schema.js:30-35 | contact details are accepted exactly when an e-mail is present; the other fields are optional and copied |
| Schema.ParseEntry | app/lib/schema.js:37-75 | an entry is accepted exactly when title, organization, start date and description are non-empty; `current` defaults to false; the five extra fields are kept exactly for Education entries |
| Schema.EntryMessagesFollowKind | app/lib/schema.js:39-64 | an empty title, organization or description is reported with the message of the entry's kind (Education, Project or the default), and a missing start date with `Required` |
| Schema.ParseEntries | app/lib/schema.js:80-82 | an entry list is accepted exactly when it is present and every entry is complete, and each accepted entry is the parse of its input |
| Schema.ParseResumeForm | app/lib/schema.js:76-83 | a resume form is accepted exactly when the contact details have an e-mail, summary and skills are non-empty and every entry of each list is complete; the accepted form carries the parsed contact details, the summary and skills as given, and each list parsed entry by entry as its own kind, so only education entries carry the Education fields |
| Schema.ParseCoverLetterForm | app/lib/schema.js:85-89 | a cover-letter request is accepted exactly when company name, job title and job description are all non-empty, and it is then copied verbatim |
| Store.Resolve | actions/cover-letter.js:12-19 | no session or an empty user id (`!userId`) is `Unauthorized`, a session with no user row is `User not found`, otherwise the session's own user |
| Store.Where | actions/cover-letter.js:88-91 | a `where` filter keeps exactly the rows that satisfy it |
| Store.WhereKeepsOrder | actions/cover-letter.js:88-95 | filtering keeps a table in creation order |
| Store.Without | actions/cover-letter.js:126-131 | deleting by id and owner keeps every other row, another user's row with the same id included |
| Store.WithoutRemovesOne | actions/cover-letter.js:126-131 | when a row matches, deleting removes exactly one row, because ids are unique |
| Store.FindCoverLetter | actions/cover-letter.js:108-113 | `findUnique` on id and owner finds a row exactly when one matches both, and the row it finds matches both |
| Store.Database.CreateCoverLetter | actions/cover-letter.js:60-69 | `create` appends one row with a fresh id, stamped with the current time, and keeps the database invariant |
| Store.Database.DeleteCoverLetter | actions/cover-letter.js:126-131 | `delete` removes the matching row, or changes nothing when none matches |
| Store.Database.UpsertResume | actions/resume.js:27-49 | `upsert` creates or replaces the owner's row and touches no other table |
| CoverLetterActions.CoverLetterPromptMentions | actions/cover-letter.js:21-32 | the prompt (`CoverLetterPrompt`, the template literal filled in) carries verbatim: the job title; the company name and the user's name, twice each; the job description; the industry, years of experience, skills joined with ", ", and bio |
| CoverLetterActions.GenerateCoverLetter | actions/cover-letter.js:10-76 | on success exactly one row is appended. It is owned by the caller and marked "completed", copies the job's fields, and holds the trimmed completion of the prompt. Any failure (identity or generation) leaves the database unchanged |
| CoverLetterActions.NewestFirstOf | actions/cover-letter.js:92-94 | `orderBy: { createdAt: "desc" }` on a table in creation order: the same rows, strictly newest first |
| CoverLetterActions.GetCoverLetters | actions/cover-letter.js:78-96 | exactly the caller's letters, strictly newest first; errors as `Resolve` |
| CoverLetterActions.GetCoverLetter | actions/cover-letter.js:98-114 | a letter is returned exactly when one has this id and the caller as owner, otherwise null |
| CoverLetterActions.DeleteCoverLetter | actions/cover-letter.js:116-132 | removes only the caller's letter with this id, leaving every other letter (another user's with the same id included), and one row fewer; with no match it fails with the database's not-found error (`RecordNotFound`) and changes nothing |
| ResumeActions.NormaliseDefaults | actions/resume.js:30-36 | `Normalise`: each field of the saved resume is the given value, or "", {} or [] when it is missing |
| ResumeActions.NormaliseStored | actions/resume.js:76-86 | reading a stored resume gives it back unchanged; normalising leaves data as it is exactly when no field is missing |
| ResumeActions.SaveThenRead | actions/resume.js:27-49 | `Read` (the lookup of `getResume`) after `Save(d)` (the upsert of `saveResume`) gives `d` with defaults filled in, whatever was stored before (a full overwrite) |
| ResumeActions.SaveFrame | actions/resume.js:28 | after a save the owner has exactly one row, filed under the owner, and every other user's row is unchanged |
| ResumeActions.SaveIdempotent | actions/resume.js:27-49 | saving the same data twice stores what saving it once does, up to the time stamp |
| ResumeActions.SaveResume | actions/resume.js:11-57 | the identity checks come first; a falsy or non-object payload fails "Server action failed: Save resumeInvalid resume data." and writes nothing; otherwise the caller's row becomes the normalised data and no other table changes |
| ResumeActions.GetResume | actions/resume.js:59-87 | null when the caller has no resume, otherwise the stored row with defaults filled in |
| ResumeActions.ImprovePromptMentions | actions/resume.js:100-114 | the prompt (`ImprovePrompt`, the template literal filled in) carries verbatim the kind of text, the user's industry and the current text |
| ResumeActions.ImproveWithAI | actions/resume.js:89-125 | the result is the trimmed completion of the prompt built from the caller's industry; a service error is rethrown as "Failed to improve content: " followed by its message |

## Left out

- Authentication: `auth()` is an external provider. The session's user id is an input (`Option<string>`).
- The Gemini client: `generateContent` is a network call. It is the parameter `generate`, a function of the prompt. Two calls with the same prompt are therefore assumed to give the same answer.
- Store failures: the in-memory store never fails. So `generateCoverLetter`'s "Failed to generate cover letter" comes only from the generation service. `saveResume`'s catch sees only the invalid-payload error.
- Prisma's own error for a delete that matches no row: it is modelled as the error `RecordNotFound`. The exact wording of that message is Prisma's and is not in the source.
- Wall-clock time: `createdAt` and `updatedAt` come from a counter that increases with every create or upsert. Two rows never share a time stamp.
- `revalidatePath`, `console.error`, the unused `include: { industryInsight: true }`, and the Prisma client singleton: none of them has behaviour to state.
- Concurrency and `async`: the model is sequential. Concurrent upserts by the same user are not modelled.
- The zod `.email()` and `.url()` format checks: they are regular expressions inside the library. Any present e-mail is accepted and URLs are not checked.
- Schema.ParseOnboarding: issues for a value of the wrong JavaScript type (a number where a string is expected, say) are not modelled. Every field is a string or absent.
- Issue lists: the order and the exact number of issues zod reports are not stated. Contracts state when parsing succeeds and what it returns.
- ResumeActions.SaveResume: a payload is falsy, a non-object, or an object whose fields are present or missing. Fields holding other falsy values (`0`, `false`) or values of the wrong type are not modelled. An array is an object whose fields are all missing, so it saves an all-default resume.
- User rows: `user.skills` is a list that is never null, as the database column is. So the `?.` in `user.skills?.join(", ")` never yields `undefined`.
- The rule "a current position has no end date": no code enforces it. `endDate` stays optional whatever `current` is.
- UI components and page rendering.
