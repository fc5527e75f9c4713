/** The zod validators of the forms (app/lib/schema.js): onboarding, contact details, resume
    entries by kind, the resume and the cover-letter request. Each schema is a function from
    the submitted fields to either the parsed value or every issue zod reports, in the order
    zod visits the fields. A field of type `Option` is `None` when it was not submitted. */
module Schema {
  import opened Wrappers
  import opened Strings

  /** One step of the path zod attaches to an issue: an object key or an array index. */
  datatype PathSegment = Key(name: string) | Index(position: nat)

  datatype Issue = Issue(path: seq<PathSegment>, message: Message)

  /** The messages the schemas attach to issues; `Text` gives each one's wording. An entry's
      messages carry the kind of entry the schema was built for. */
  datatype Message =
    | Required
    | SelectIndustry
    | SelectSpecialization
    | BioTooLong
    | NotANumber
    | ExperienceTooLow
    | ExperienceTooHigh
    | EmptyTitle(kind: string)
    | EmptyOrganization(kind: string)
    | EmptyStartDate
    | EmptyDescription(kind: string)
    | EmptySummary
    | EmptySkills
    | EmptyCompanyName
    | EmptyJobTitle
    | EmptyJobDescription

  /** The wording zod reports: `Required` is zod's own message for a missing value, the
      length message for `bio` and the not-a-number message for experience are zod's
      defaults, the rest are the schema's. */
  function Text(m: Message): string
  {
    match m
    case Required => "Required"
    case SelectIndustry => "Please select an industry"
    case SelectSpecialization => "Please select a specialization"
    case BioTooLong => "String must contain at most 500 character(s)"
    case NotANumber => "Expected number, received nan"
    case ExperienceTooLow => "Experience must be at least 0 years"
    case ExperienceTooHigh => "Experience cannot exceed 50 years"
    case EmptyTitle(kind) =>
      if kind == "Education" then "Please enter your degree or program name."
      else if kind == "Project" then "Please enter the title of your project."
      else "Please enter your job title or position."
    case EmptyOrganization(kind) =>
      if kind == "Education" then "Please enter the name of your school or institution."
      else if kind == "Project" then "Please enter the name of your project or organization."
      else "Please enter the name of the company or organization."
    case EmptyStartDate => "Please select a start date."
    case EmptyDescription(kind) =>
      if kind == "Education" then "Please describe your academic achievements or coursework."
      else if kind == "Project" then "Please describe the project, including your role and outcomes."
      else "Please describe your role and achievements in this position."
    case EmptySummary => "Professional summary is required"
    case EmptySkills => "Skills are required"
    case EmptyCompanyName => "Company name is required"
    case EmptyJobTitle => "Job title is required"
    case EmptyJobDescription => "Job description is required"
  }

  /** A submitted string of at least one character. */
  predicate Filled(v: Option<string>) {
    v.Some? && |v.value| >= 1
  }

  /** `z.string({ required_error: message })`: only a missing value is an issue. */
  function PresentIssues(path: seq<PathSegment>, v: Option<string>, message: Message): (issues: seq<Issue>)
    ensures v.None? ==> issues == [Issue(path, message)]
    ensures v.Some? ==> issues == []
  {
    if v.None? then [Issue(path, message)] else []
  }

  /** `z.string().min(1, message)`: zod's `Required` for a missing value, `message` for the
      empty string. */
  function FilledIssues(path: seq<PathSegment>, v: Option<string>, message: Message): (issues: seq<Issue>)
    ensures issues == [] <==> Filled(v)
    ensures forall iss :: iss in issues ==> iss.path == path
    ensures v.None? ==> issues == [Issue(path, Required)]
    ensures v == Some("") ==> issues == [Issue(path, message)]
  {
    match v
    case None => [Issue(path, Required)]
    case Some(s) => if |s| >= 1 then [] else [Issue(path, message)]
  }

  // ---------------------------------------------------------------------------------------
  // Onboarding: industry, specialization, bio, years of experience and skills

  datatype OnboardingInput = OnboardingInput(
    industry: Option<string>,
    subIndustry: Option<string>,
    bio: Option<string>,
    experience: Option<string>,
    skills: Option<string>)

  datatype Onboarding = Onboarding(
    industry: string,
    subIndustry: string,
    bio: Option<string>,
    experience: int,
    skills: Option<seq<string>>)

  const BioMaxLength := 500
  const MinExperience := 0
  const MaxExperience := 50

  /** `z.string().max(500).optional()`: the limit is on the JavaScript `length`. */
  function BioIssues(bio: Option<string>): (issues: seq<Issue>)
    ensures issues == [] <==> bio.None? || Utf16Length(bio.value) <= BioMaxLength
    ensures issues != [] ==> issues == [Issue([Key("bio")], BioTooLong)]
  {
    if bio.Some? && Utf16Length(bio.value) > BioMaxLength then
      [Issue([Key("bio")], BioTooLong)]
    else []
  }

  /** The bio limit counts UTF-16 code units: more than 500 characters never pass, 250 always
      do, and in between it depends on how many characters lie outside the Basic
      Multilingual Plane; a text of those alone passes up to 250 characters. */
  lemma BioLimitInCodeUnits(bio: string)
    ensures BioIssues(Some(bio)) == [] ==> |bio| <= BioMaxLength
    ensures 2 * |bio| <= BioMaxLength ==> BioIssues(Some(bio)) == []
    ensures (forall k :: 0 <= k < |bio| ==> CodeUnits(bio[k]) == 1) ==>
      (BioIssues(Some(bio)) == [] <==> |bio| <= BioMaxLength)
    ensures (forall k :: 0 <= k < |bio| ==> CodeUnits(bio[k]) == 2) ==>
      (BioIssues(Some(bio)) == [] <==> 2 * |bio| <= BioMaxLength)
  {
  }

  /** The experience rule: `parseInt(val, 10)` piped into a number between 0 and 50.
      The result is the parsed number or zod's message. */
  function Experience(s: string): (r: Result<int, Message>)
    ensures r.Success? <==> ParseInt(s).Some? && MinExperience <= ParseInt(s).value <= MaxExperience
    ensures r.Success? ==> r.value == ParseInt(s).value
    ensures ParseInt(s).None? ==> r == Failure(NotANumber)
    ensures ParseInt(s).Some? && ParseInt(s).value < MinExperience ==> r == Failure(ExperienceTooLow)
    ensures ParseInt(s).Some? && ParseInt(s).value > MaxExperience ==> r == Failure(ExperienceTooHigh)
  {
    match ParseInt(s)
    case None => Failure(NotANumber)
    case Some(n) =>
      if n < MinExperience then Failure(ExperienceTooLow)
      else if n > MaxExperience then Failure(ExperienceTooHigh)
      else Success(n)
  }

  /** A year count typed as digits is accepted exactly when it is between 0 and 50. */
  lemma {:induction false} ExperienceOfRendered(n: int)
    ensures Experience(IntToString(n)).Success? <==> MinExperience <= n <= MaxExperience
    ensures Experience(IntToString(n)).Success? ==> Experience(IntToString(n)).value == n
  {
    ParseIntRoundTrip(n);
  }

  /** Text after the digits is ignored: "7 years" and "7.5" are read as 7. */
  lemma {:induction false} ExperienceIgnoresTrailingText(digits: string, rest: string)
    requires digits != [] && AllDigits(digits)
    requires rest == [] || !IsDigit(rest[0])
    ensures Experience(digits + rest) == Experience(digits)
  {
    ParseIntDigitsThenText(digits, rest);
    ParseIntDigitsThenText(digits, []);
    assert digits + [] == digits;
  }

  function ExperienceIssues(experience: Option<string>): seq<Issue>
  {
    match experience
    case None => [Issue([Key("experience")], Required)]
    case Some(s) =>
      match Experience(s)
      case Success(_) => []
      case Failure(message) => [Issue([Key("experience")], message)]
  }

  /** `a` is `b` with some elements deleted. */
  predicate IsSubsequence(a: seq<string>, b: seq<string>)
    decreases |b|
  {
    if a == [] then true
    else if b == [] then false
    else if a[0] == b[0] then IsSubsequence(a[1..], b[1..])
    else IsSubsequence(a, b[1..])
  }

  /** `.map((skill) => skill.trim())`. */
  function TrimEach(parts: seq<string>): seq<string>
  {
    seq(|parts|, k requires 0 <= k < |parts| => Trim(parts[k]))
  }

  /** `.filter(Boolean)` on strings: drops the empty ones and keeps every other piece, each
      as often as it occurs, in its order. */
  function DropEmpty(parts: seq<string>): (r: seq<string>)
    ensures |r| <= |parts|
    ensures "" !in r
    ensures forall x :: x in r <==> x in parts && x != ""
    ensures forall x :: x != "" ==> multiset(r)[x] == multiset(parts)[x]
    ensures IsSubsequence(r, parts)
  {
    if parts == [] then []
    else
      var rest := DropEmpty(parts[1..]);
      assert parts == [parts[0]] + parts[1..];
      if parts[0] == "" then
        assert rest == [] || rest[0] != parts[0] by {
          if rest != [] { assert rest[0] in rest; }
        }
        rest
      else
        var r := [parts[0]] + rest;
        assert r[1..] == rest;
        r
  }

  /** The skills transform: the empty string gives `undefined`; anything else is split on
      commas, each piece trimmed and the empty pieces dropped. */
  function SkillsTransform(s: string): (r: Option<seq<string>>)
    ensures r.None? <==> s == ""
    ensures r.Some? ==> |r.value| <= Count(s, ',') + 1
    ensures r.Some? ==> forall k :: 0 <= k < |r.value| ==>
      r.value[k] != "" && IsTrimmed(r.value[k]) && ',' !in r.value[k]
    ensures r.Some? ==> IsSubsequence(r.value, TrimEach(Split(s, ',')))
    ensures r.Some? ==> r.value == DropEmpty(TrimEach(Split(s, ',')))
    ensures r.Some? ==> forall k :: 0 <= k < |Split(s, ',')| && Trim(Split(s, ',')[k]) != "" ==>
      Trim(Split(s, ',')[k]) in r.value
  {
    if s == "" then None
    else
      SplitSpec(s, ',');
      TrimmedPieces(Split(s, ','));
      Some(DropEmpty(TrimEach(Split(s, ','))))
  }

  /** Of comma-free pieces, trimmed and with the empty ones dropped, every one left is
      non-empty, trimmed and comma-free, and every piece that trims to something is left. */
  lemma {:induction false} TrimmedPieces(pieces: seq<string>)
    requires forall j :: 0 <= j < |pieces| ==> ',' !in pieces[j]
    ensures var skills := DropEmpty(TrimEach(pieces));
      (forall k :: 0 <= k < |skills| ==> skills[k] != "" && IsTrimmed(skills[k]) && ',' !in skills[k])
      && forall j :: 0 <= j < |pieces| && Trim(pieces[j]) != "" ==> Trim(pieces[j]) in skills
  {
    var trimmed := TrimEach(pieces);
    var skills := DropEmpty(trimmed);
    forall k | 0 <= k < |skills|
      ensures skills[k] != "" && IsTrimmed(skills[k]) && ',' !in skills[k]
    {
      assert skills[k] in skills;
      var j :| 0 <= j < |trimmed| && trimmed[j] == skills[k];
      TrimmedHasNoNewCharacters(pieces[j], ',');
    }
    forall j | 0 <= j < |pieces| && Trim(pieces[j]) != "" ensures Trim(pieces[j]) in skills {
      assert trimmed[j] in trimmed;
    }
  }

  /** Trimming only removes characters, so a character absent from a piece is absent from
      its trimmed form. */
  lemma {:induction false} TrimmedHasNoNewCharacters(s: string, c: char)
    requires c !in s
    ensures c !in Trim(s)
  {
    var r := Trim(s);
    var i, j :| 0 <= i <= j <= |s| && SpaceBetween(s, 0, i) && SpaceBetween(s, j, |s|) && r == s[i..j];
    forall k | 0 <= k < |r| ensures r[k] != c {
      assert s[i + k] == r[k];
    }
  }

  /** A text of trimmed skills rendered with `skills.join(", ")` (as the cover-letter prompt
      renders them) goes back through the skills transform to the same skills. */
  lemma {:induction false} SkillsRoundTrip(skills: seq<string>)
    requires forall k :: 0 <= k < |skills| ==>
      skills[k] != "" && IsTrimmed(skills[k]) && ',' !in skills[k]
    ensures SkillsTransform(Join(skills, ", ")) == if skills == [] then None else Some(skills)
  {
    if skills != [] {
      var text := Join(skills, ", ");
      JoinedSkillsSplit(skills);
      var pieces := Split(text, ',');
      assert TrimEach(pieces) == skills by {
        forall k | 0 <= k < |skills| ensures Trim(pieces[k]) == skills[k] {
          if k == 0 {
            TrimPadded([], skills[0], []);
            assert [] + skills[0] + [] == skills[0];
          } else {
            TrimPadded(" ", skills[k], []);
            assert " " + skills[k] + [] == " " + skills[k];
          }
        }
      }
      assert text != "";
      DropEmptyKeepsFilled(skills);
    }
  }

  lemma {:induction false} DropEmptyKeepsFilled(parts: seq<string>)
    requires forall k :: 0 <= k < |parts| ==> parts[k] != ""
    ensures DropEmpty(parts) == parts
  {
    if parts != [] {
      DropEmptyKeepsFilled(parts[1..]);
      assert parts == [parts[0]] + parts[1..];
    }
  }

  /** Splitting a comma-free prefix, a comma and the rest gives the prefix, then the pieces
      of the rest. */
  lemma {:induction false} SplitAtComma(first: string, u: string)
    requires ',' !in first
    ensures Split(first + ([','] + u), ',') == [first] + Split(u, ',')
  {
    var v := [','] + u;
    SplitAfterPrefix(first, v, ',');
    assert v[0] == ',' && v[1..] == u;
    assert Split(v, ',') == [""] + Split(u, ',');
    assert first + "" == first;
  }

  /** Splitting `skills.join(", ")` on commas gives the first skill, then every other skill
      with the one space the join put in front of it. */
  lemma {:induction false} JoinedSkillsSplit(skills: seq<string>)
    requires |skills| >= 1
    requires forall k :: 0 <= k < |skills| ==> ',' !in skills[k]
    ensures var pieces := Split(Join(skills, ", "), ',');
      |pieces| == |skills| && pieces[0] == skills[0]
      && forall k :: 1 <= k < |skills| ==> pieces[k] == " " + skills[k]
  {
    if |skills| == 1 {
      SplitAfterPrefix(skills[0], "", ',');
      assert skills[0] + "" == skills[0];
    } else {
      JoinedSkillsSplit(skills[1..]);
      var tail := Join(skills[1..], ", ");
      var rest := Split(tail, ',');
      assert Join(skills, ", ") == skills[0] + ([','] + (" " + tail));
      SplitAtComma(skills[0], " " + tail);
      SplitAfterPrefix(" ", tail, ',');
      var pieces := Split(Join(skills, ", "), ',');
      assert pieces == [skills[0]] + ([" " + rest[0]] + rest[1..]);
      forall k | 1 <= k < |skills| ensures pieces[k] == " " + skills[k] {
        assert skills[1..][k - 1] == skills[k];
        if k > 1 {
          assert pieces[k] == rest[k - 1];
        }
      }
    }
  }

  function SkillsIssues(skills: Option<string>): seq<Issue>
  {
    if skills.None? then [Issue([Key("skills")], Required)] else []
  }

  function OnboardingIssues(input: OnboardingInput): seq<Issue>
  {
    PresentIssues([Key("industry")], input.industry, SelectIndustry)
    + PresentIssues([Key("subIndustry")], input.subIndustry, SelectSpecialization)
    + BioIssues(input.bio)
    + ExperienceIssues(input.experience)
    + SkillsIssues(input.skills)
  }

  /** `onboardingSchema.safeParse`. */
  function ParseOnboarding(input: OnboardingInput): (r: Result<Onboarding, seq<Issue>>)
    ensures r.Success? <==>
      input.industry.Some? && input.subIndustry.Some?
      && (input.bio.None? || Utf16Length(input.bio.value) <= BioMaxLength)
      && input.experience.Some? && input.skills.Some?
      && ParseInt(input.experience.value).Some?
      && MinExperience <= ParseInt(input.experience.value).value <= MaxExperience
    ensures r.Success? ==>
      r.value.industry == input.industry.value && r.value.subIndustry == input.subIndustry.value
      && r.value.bio == input.bio
      && r.value.experience == ParseInt(input.experience.value).value
      && r.value.skills == SkillsTransform(input.skills.value)
  {
    var issues := OnboardingIssues(input);
    if issues != [] then Failure(issues)
    else
      Success(Onboarding(input.industry.value, input.subIndustry.value, input.bio,
                         Experience(input.experience.value).value,
                         SkillsTransform(input.skills.value)))
  }

  // ---------------------------------------------------------------------------------------
  // Contact details

  datatype ContactInput = ContactInput(
    email: Option<string>,
    mobile: Option<string>,
    linkedin: Option<string>,
    twitter: Option<string>)

  datatype Contact = Contact(
    email: string,
    mobile: Option<string>,
    linkedin: Option<string>,
    twitter: Option<string>)

  /** `contactSchema`: an e-mail is required, the rest is optional. */
  function ParseContact(at: seq<PathSegment>, c: ContactInput): (r: Result<Contact, seq<Issue>>)
    ensures r.Success? <==> c.email.Some?
    ensures r.Failure? ==> r.error != []
    ensures r.Success? ==> r.value == Contact(c.email.value, c.mobile, c.linkedin, c.twitter)
  {
    if c.email.None? then Failure([Issue(at + [Key("email")], Required)])
    else Success(Contact(c.email.value, c.mobile, c.linkedin, c.twitter))
  }

  // ---------------------------------------------------------------------------------------
  // Resume entries: experience, education and projects

  datatype EntryInput = EntryInput(
    title: Option<string>,
    organization: Option<string>,
    startDate: Option<string>,
    endDate: Option<string>,
    description: Option<string>,
    current: Option<bool>,
    location: Option<string>,
    boardUniversity: Option<string>,
    gradePercentage: Option<string>,
    fieldOfStudy: Option<string>,
    achievements: Option<string>)

  /** The fields only an Education entry has. */
  datatype EducationDetails = EducationDetails(
    location: Option<string>,
    boardUniversity: Option<string>,
    gradePercentage: Option<string>,
    fieldOfStudy: Option<string>,
    achievements: Option<string>)

  datatype Entry = Entry(
    title: string,
    organization: string,
    startDate: string,
    endDate: Option<string>,
    description: string,
    current: bool,
    education: Option<EducationDetails>)

  /** Title, organization, start date and description are non-empty. */
  predicate EntryComplete(e: EntryInput) {
    Filled(e.title) && Filled(e.organization) && Filled(e.startDate) && Filled(e.description)
  }

  function EntryIssues(kind: string, at: seq<PathSegment>, e: EntryInput): seq<Issue>
  {
    FilledIssues(at + [Key("title")], e.title, EmptyTitle(kind))
    + FilledIssues(at + [Key("organization")], e.organization, EmptyOrganization(kind))
    + FilledIssues(at + [Key("startDate")], e.startDate, EmptyStartDate)
    + FilledIssues(at + [Key("description")], e.description, EmptyDescription(kind))
  }

  /** The entry zod returns for a complete input: unknown keys are stripped, so the five
      Education fields are kept only for that kind. */
  function EntryValue(kind: string, e: EntryInput): Entry
    requires EntryComplete(e)
  {
    Entry(e.title.value, e.organization.value, e.startDate.value, e.endDate,
          e.description.value, e.current.GetOr(false),
          if kind == "Education" then
            Some(EducationDetails(e.location, e.boardUniversity, e.gradePercentage,
                                  e.fieldOfStudy, e.achievements))
          else None)
  }

  /** `entrySchema(kind).safeParse`, reporting issues under the path `at`. */
  function ParseEntry(kind: string, at: seq<PathSegment>, e: EntryInput): (r: Result<Entry, seq<Issue>>)
    ensures r.Success? <==> EntryComplete(e)
    ensures r.Success? ==> r.value == EntryValue(kind, e)
                           && r.value.current == (e.current == Some(true))
                           && (r.value.education.Some? <==> kind == "Education")
    ensures r.Failure? ==> r.error != []
  {
    var issues := EntryIssues(kind, at, e);
    if issues != [] then Failure(issues) else Success(EntryValue(kind, e))
  }

  /** Which message an incomplete entry gets depends on its kind: an empty title,
      organization or description is reported with the kind's own message, a missing start
      date with zod's `Required`. */
  lemma {:induction false} EntryMessagesFollowKind(kind: string, at: seq<PathSegment>, e: EntryInput)
    ensures var issues := EntryIssues(kind, at, e);
      (Issue(at + [Key("title")], EmptyTitle(kind)) in issues <==> e.title == Some(""))
      && (Issue(at + [Key("organization")], EmptyOrganization(kind)) in issues
          <==> e.organization == Some(""))
      && (Issue(at + [Key("description")], EmptyDescription(kind)) in issues
          <==> e.description == Some(""))
      && (Issue(at + [Key("startDate")], Required) in issues <==> e.startDate.None?)
  {
    var fields := ["title", "organization", "startDate", "description"];
    forall k, l | 0 <= k < 4 && 0 <= l < 4 && k != l
      ensures at + [Key(fields[k])] != at + [Key(fields[l])]
    {
      assert (at + [Key(fields[k])])[|at|] == Key(fields[k]);
      assert (at + [Key(fields[l])])[|at|] == Key(fields[l]);
    }
    assert fields[0] == "title" && fields[1] == "organization";
    assert fields[2] == "startDate" && fields[3] == "description";
  }

  /** The entries zod returns for a list of complete inputs, in order. */
  function EntryValues(kind: string, es: seq<EntryInput>): (r: seq<Entry>)
    requires forall j :: 0 <= j < |es| ==> EntryComplete(es[j])
    ensures |r| == |es| && forall j :: 0 <= j < |es| ==> r[j] == EntryValue(kind, es[j])
  {
    if es == [] then []
    else
      var rest := EntryValues(kind, es[1..]);
      var r := [EntryValue(kind, es[0])] + rest;
      assert forall j :: 1 <= j < |es| ==> r[j] == rest[j - 1] && es[j] == es[1..][j - 1];
      r
  }

  /** `z.array(entrySchema(kind))` on the entries from position `offset` of the list on,
      issues under `[key, position, …]`. */
  function ParseEntriesFrom(kind: string, key: string, es: seq<EntryInput>, offset: nat)
    : (r: Result<seq<Entry>, seq<Issue>>)
    ensures r.Success? <==> forall j :: 0 <= j < |es| ==> EntryComplete(es[j])
    ensures r.Success? ==> r.value == EntryValues(kind, es)
    ensures r.Failure? ==> r.error != []
    decreases |es|
  {
    if es == [] then Success([])
    else
      var head := ParseEntry(kind, [Key(key), Index(offset)], es[0]);
      var tail := ParseEntriesFrom(kind, key, es[1..], offset + 1);
      assert forall j :: 1 <= j < |es| ==> es[j] == es[1..][j - 1];
      if head.Success? && tail.Success? then Success([head.value] + tail.value)
      else Failure(IssuesOf(head) + IssuesOf(tail))
  }

  /** A required entry list: missing is an issue, otherwise each entry is parsed. */
  function ParseEntries(kind: string, key: string, es: Option<seq<EntryInput>>)
    : (r: Result<seq<Entry>, seq<Issue>>)
    ensures r.Success? <==> es.Some? && forall j :: 0 <= j < |es.value| ==> EntryComplete(es.value[j])
    ensures r.Success? ==> r.value == EntryValues(kind, es.value)
    ensures r.Failure? ==> r.error != []
  {
    if es.None? then Failure([Issue([Key(key)], Required)])
    else ParseEntriesFrom(kind, key, es.value, 0)
  }

  // ---------------------------------------------------------------------------------------
  // The resume form and the cover-letter request

  datatype ResumeFormInput = ResumeFormInput(
    contactInfo: Option<ContactInput>,
    summary: Option<string>,
    skills: Option<string>,
    experience: Option<seq<EntryInput>>,
    education: Option<seq<EntryInput>>,
    projects: Option<seq<EntryInput>>)

  datatype ResumeForm = ResumeForm(
    contactInfo: Contact,
    summary: string,
    skills: string,
    experience: seq<Entry>,
    education: seq<Entry>,
    projects: seq<Entry>)

  predicate EntriesComplete(es: Option<seq<EntryInput>>) {
    es.Some? && forall j :: 0 <= j < |es.value| ==> EntryComplete(es.value[j])
  }

  function IssuesOf<T>(r: Result<T, seq<Issue>>): (issues: seq<Issue>)
    requires r.Failure? ==> r.error != []
    ensures issues == [] <==> r.Success?
  {
    if r.Failure? then r.error else []
  }

  /** `resumeSchema.safeParse`: contact details, a non-empty summary and skills, and each
      entry list checked as its own kind. */
  function ParseResumeForm(input: ResumeFormInput): (r: Result<ResumeForm, seq<Issue>>)
    ensures r.Success? <==>
      input.contactInfo.Some? && input.contactInfo.value.email.Some?
      && Filled(input.summary) && Filled(input.skills)
      && EntriesComplete(input.experience) && EntriesComplete(input.education)
      && EntriesComplete(input.projects)
    ensures r.Success? ==>
      var c := input.contactInfo.value;
      r.value.contactInfo == Contact(c.email.value, c.mobile, c.linkedin, c.twitter)
      && r.value.experience == EntryValues("Experience", input.experience.value)
      && r.value.education == EntryValues("Education", input.education.value)
      && r.value.projects == EntryValues("Project", input.projects.value)
    ensures r.Success? ==>
      r.value.summary == input.summary.value && r.value.skills == input.skills.value
      && |r.value.experience| == |input.experience.value|
      && |r.value.education| == |input.education.value|
      && |r.value.projects| == |input.projects.value|
      && (forall j :: 0 <= j < |r.value.experience| ==> r.value.experience[j].education.None?)
      && (forall j :: 0 <= j < |r.value.education| ==> r.value.education[j].education.Some?)
      && (forall j :: 0 <= j < |r.value.projects| ==> r.value.projects[j].education.None?)
  {
    var contact :=
      if input.contactInfo.None? then Failure([Issue([Key("contactInfo")], Required)])
      else ParseContact([Key("contactInfo")], input.contactInfo.value);
    var experience := ParseEntries("Experience", "experience", input.experience);
    var education := ParseEntries("Education", "education", input.education);
    var projects := ParseEntries("Project", "projects", input.projects);
    // zod reports the issues of every field; the form is accepted when there are none,
    // that is when every field parsed.
    var issues :=
      IssuesOf(contact)
      + FilledIssues([Key("summary")], input.summary, EmptySummary)
      + FilledIssues([Key("skills")], input.skills, EmptySkills)
      + IssuesOf(experience) + IssuesOf(education) + IssuesOf(projects);
    if contact.Success? && Filled(input.summary) && Filled(input.skills)
       && experience.Success? && education.Success? && projects.Success?
    then
      Success(ResumeForm(contact.value, input.summary.value, input.skills.value,
                         experience.value, education.value, projects.value))
    else Failure(issues)
  }

  datatype CoverLetterFormInput = CoverLetterFormInput(
    companyName: Option<string>,
    jobTitle: Option<string>,
    jobDescription: Option<string>)

  /** The job a cover letter is written for. */
  datatype JobDetails = JobDetails(companyName: string, jobTitle: string, jobDescription: string)

  /** `coverLetterSchema.safeParse`: all three fields required and non-empty. */
  function ParseCoverLetterForm(input: CoverLetterFormInput): (r: Result<JobDetails, seq<Issue>>)
    ensures r.Success? <==>
      Filled(input.companyName) && Filled(input.jobTitle) && Filled(input.jobDescription)
    ensures r.Success? ==>
      r.value == JobDetails(input.companyName.value, input.jobTitle.value, input.jobDescription.value)
  {
    var issues :=
      FilledIssues([Key("companyName")], input.companyName, EmptyCompanyName)
      + FilledIssues([Key("jobTitle")], input.jobTitle, EmptyJobTitle)
      + FilledIssues([Key("jobDescription")], input.jobDescription, EmptyJobDescription);
    if issues != [] then Failure(issues)
    else Success(JobDetails(input.companyName.value, input.jobTitle.value, input.jobDescription.value))
  }
}
