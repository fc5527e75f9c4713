/** The cover-letter server actions (actions/cover-letter.js): generate a letter for a job
    and store it, list the caller's letters, fetch one and delete one. Every action first
    resolves the session to a user; the text-generation service is the parameter
    `generate`, which maps a prompt to the completion's text or to an error message. */
module CoverLetterActions {
  import opened Wrappers
  import opened Strings
  import opened Schema
  import opened Store

  const Completed := "completed"

  /** The values the prompt substitutes, in the order of `CoverLetterTemplate`'s holes:
      the job title, the company name, the user's name, industry, years of experience,
      skills joined with ", ", bio, and the job description. A null profile column renders
      as "null". */
  function CoverLetterValues(user: User, job: JobDetails): seq<string>
  {
    [job.jobTitle, job.companyName, Show(user.name), Show(user.industry),
     ShowInt(user.experience), Join(user.skills, ", "), Show(user.bio), job.jobDescription]
  }

  /** The fixed fragments of the prompt, between the substituted values. */
  datatype Fragment =
    | Opening
    | PositionAt
    | For
    | NameLine
    | IndustryLine
    | ExperienceLine
    | SkillsLine
    | SummaryLine
    | JobDescriptionLine
    | InstructionsToCompany
    | InstructionsAfterCompany

  /** The wording of each fragment. */
  function Wording(f: Fragment): string
  {
    match f
    case Opening =>
      "\n"
        + "  Write a highly targeted and impactful cover letter for the "
    case PositionAt =>
      " position at "
    case For =>
      " for "
    case NameLine =>
      ".\n"
        + "  \n"
        + "  Candidate Profile:\n"
        + "  - Name: "
    case IndustryLine =>
      "\n"
        + "  - Industry: "
    case ExperienceLine =>
      " (Specifically mention any experience relevant to the target company's "
        + "industry)\n"
        + "  - Years of Experience: "
    case SkillsLine =>
      "\n"
        + "  - Core Skills: "
    case SummaryLine =>
      " (Emphasize skills relevant to the job description)\n"
        + "  - Professional Summary: "
    case JobDescriptionLine =>
      " (Focus on accomplishments related to the key responsibilities of the target "
        + "role)\n"
        + "  \n"
        + "  Job Details:\n"
        + "  - Job Description: "
    case InstructionsToCompany =>
      " (Pay close attention to required technologies and key responsibilities)\n"
        + "  \n"
        + "  Specific Instructions:\n"
        + "  \n"
        + "  1. **Impactful Opening:** Start with a strong hook that connects the "
        + "candidate's passion or key qualification to the company's mission.\n"
        + "  2. **Directly Address Job Requirements:** Mirror the language and keywords "
        + "from the job description to demonstrate a clear understanding of the role.\n"
        + "  3. **Quantify Achievements:** Provide 2-3 specific examples of "
        + "accomplishments with measurable results (e.g., percentages, numbers), using "
        + "bullet points or a similar visually appealing format for clarity.\n"
        + "  4. **Company Research:** Demonstrate a thorough understanding of "
    case InstructionsAfterCompany =>
      "'s mission, values, and recent projects. Mention a specific project or "
        + "initiative that resonates with the candidate and explain why.\n"
        + "  5. **Skills in Context:** Provide context for how the candidate's skills have "
        + "been applied in previous roles and how they align with the job requirements.\n"
        + "  6. **Acknowledge and Address Skill Gaps (If Applicable):** If there are any "
        + "minor skill gaps, acknowledge them and express eagerness to learn.\n"
        + "  7. **Strong Call to Action:** End with a clear and confident call to action, "
        + "expressing interest in an interview and highlighting potential contributions to "
        + "the company. Avoid redundant statements like \"resume attached.\"\n"
        + "  8. **Personalization:** If possible, address the hiring manager by name.\n"
        + "  9. **Conciseness:** Keep the letter under 400 words, focusing on the most "
        + "relevant information.\n"
        + "  10. **Markdown Formatting:** Use proper business letter formatting in "
        + "markdown, including:\n"
        + "     - Candidate's contact information (if available)\n"
        + "     - Date\n"
        + "     - Hiring Manager's Name (if known, otherwise use title)\n"
        + "     - Company Address\n"
        + "     - Subject Line\n"
        + "     - Formal salutation and closing\n"
        + "  \n"
        + "  Output the cover letter in Markdown format.\n"
        + "  "
  }

  /** The prompt template of `generateCoverLetter`: `Hole(i)` is `CoverLetterValues`' i-th
      value. */
  function CoverLetterTemplate(): seq<Part<Fragment>>
  {
    [Lit(Opening), Hole(0), Lit(PositionAt), Hole(1),
     Lit(For), Hole(2), Lit(NameLine), Hole(2),
     Lit(IndustryLine), Hole(3), Lit(ExperienceLine), Hole(4),
     Lit(SkillsLine), Hole(5), Lit(SummaryLine), Hole(6),
     Lit(JobDescriptionLine), Hole(7), Lit(InstructionsToCompany), Hole(1),
     Lit(InstructionsAfterCompany)]
  }

  function CoverLetterPrompt(user: User, job: JobDetails): string
  {
    Fill(CoverLetterTemplate(), Wording, CoverLetterValues(user, job))
  }

  /** The prompt carries, verbatim, the job title, the company name twice (in the opening
      line and in the company-research instruction), the user's name twice (in the opening
      line and in the profile), the job description, and the user's industry, years of
      experience, skills joined with ", " and bio. */
  lemma {:induction false} CoverLetterPromptMentions(user: User, job: JobDetails)
    ensures var prompt := CoverLetterPrompt(user, job);
      Contains(prompt, job.jobTitle) && OccursTwice(prompt, job.companyName)
      && Contains(prompt, job.jobDescription)
      && OccursTwice(prompt, Show(user.name)) && Contains(prompt, Show(user.industry))
      && Contains(prompt, ShowInt(user.experience)) && Contains(prompt, Join(user.skills, ", "))
      && Contains(prompt, Show(user.bio))
  {
    var template, values := CoverLetterTemplate(), CoverLetterValues(user, job);
    var wording := Wording;
    assert template[1] == Hole(0) && template[3] == Hole(1) && template[19] == Hole(1);
    assert template[5] == Hole(2) && template[7] == Hole(2) && template[9] == Hole(3) && template[11] == Hole(4);
    assert template[13] == Hole(5) && template[15] == Hole(6) && template[17] == Hole(7);
    FillMentions(template, wording, values, 1);
    FillMentionsTwice(template, wording, values, 3, 19);
    FillMentionsTwice(template, wording, values, 5, 7);
    FillMentions(template, wording, values, 9);
    FillMentions(template, wording, values, 11);
    FillMentions(template, wording, values, 13);
    FillMentions(template, wording, values, 15);
    FillMentions(template, wording, values, 17);
  }

  /** `generateCoverLetter`: on success exactly one row is appended, owned by the caller,
      marked completed, with the job's fields as given and the trimmed completion as its
      content; every failure leaves the database as it was. */
  method GenerateCoverLetter(db: Database, session: Option<string>, job: JobDetails,
                             generate: string -> Result<string, string>)
    returns (r: Result<CoverLetter, Error>)
    requires db.Valid()
    modifies db
    ensures db.Valid()
    ensures db.users == old(db.users) && db.resumes == old(db.resumes)
    ensures Resolve(old(db.users), session).Failure? ==>
      r == Failure(Resolve(old(db.users), session).error) && unchanged(db)
    ensures Resolve(old(db.users), session).Success? ==>
      var user := Resolve(old(db.users), session).value;
      var reply := generate(CoverLetterPrompt(user, job));
      (reply.Failure? ==> r == Failure(CoverLetterFailed) && unchanged(db))
      && (reply.Success? ==>
            r == Success(CoverLetter(old(db.nextId), user.id, Trim(reply.value), job.jobDescription,
                                     job.companyName, job.jobTitle, Completed, old(db.clock)))
            && db.coverLetters == old(db.coverLetters) + [r.value])
  {
    var resolved := Resolve(db.users, session);
    if resolved.Failure? {
      return Failure(resolved.error);
    }
    var user := resolved.value;
    var prompt := CoverLetterPrompt(user, job);
    var reply := generate(prompt);
    if reply.Failure? {
      return Failure(CoverLetterFailed);
    }
    var content := Trim(reply.value);
    var row := db.CreateCoverLetter(user.id, content, job.jobDescription, job.companyName,
                                    job.jobTitle, Completed);
    return Success(row);
  }

  /** The rows of a table in creation order, newest first. */
  function NewestFirstOf(rows: seq<CoverLetter>): (r: seq<CoverLetter>)
    requires Chronological(rows)
    ensures forall c :: c in r <==> c in rows
    ensures NewestFirst(r)
  {
    var r := seq(|rows|, i requires 0 <= i < |rows| => rows[|rows| - 1 - i]);
    assert forall c :: c in rows ==> c in r by {
      forall c | c in rows ensures c in r {
        var k :| 0 <= k < |rows| && rows[k] == c;
        assert r[|rows| - 1 - k] == c;
      }
    }
    r
  }

  /** `getCoverLetters`: exactly the caller's letters, newest first. */
  method GetCoverLetters(db: Database, session: Option<string>)
    returns (r: Result<seq<CoverLetter>, Error>)
    requires db.Valid()
    ensures r.Failure? <==> Resolve(db.users, session).Failure?
    ensures r.Failure? ==> r.error == Resolve(db.users, session).error
    ensures r.Success? ==>
      (forall c :: c in r.value <==>
         c in db.coverLetters && c.userId == Resolve(db.users, session).value.id)
      && NewestFirst(r.value)
  {
    var resolved := Resolve(db.users, session);
    if resolved.Failure? {
      return Failure(resolved.error);
    }
    var owner := resolved.value.id;
    var owned := Where(db.coverLetters, (c: CoverLetter) => c.userId == owner);
    WhereKeepsOrder(db.coverLetters, (c: CoverLetter) => c.userId == owner);
    return Success(NewestFirstOf(owned));
  }

  /** `getCoverLetter(id)`: the letter with this id if the caller owns it, otherwise none. */
  method GetCoverLetter(db: Database, session: Option<string>, id: nat)
    returns (r: Result<Option<CoverLetter>, Error>)
    ensures r.Failure? <==> Resolve(db.users, session).Failure?
    ensures r.Failure? ==> r.error == Resolve(db.users, session).error
    ensures r.Success? ==>
      var owner := Resolve(db.users, session).value.id;
      (r.value.Some? <==> exists c :: c in db.coverLetters && c.id == id && c.userId == owner)
      && (r.value.Some? ==>
            r.value.value in db.coverLetters && r.value.value.id == id
            && r.value.value.userId == owner)
  {
    var resolved := Resolve(db.users, session);
    if resolved.Failure? {
      return Failure(resolved.error);
    }
    return Success(FindCoverLetter(db.coverLetters, id, resolved.value.id));
  }

  /** `deleteCoverLetter(id)`: removes the caller's letter with this id and nothing else
      (another user's letter with the same id stays); with no such letter the database's
      not-found error is raised and nothing changes. */
  method DeleteCoverLetter(db: Database, session: Option<string>, id: nat)
    returns (r: Result<CoverLetter, Error>)
    requires db.Valid()
    modifies db
    ensures db.Valid()
    ensures db.users == old(db.users) && db.resumes == old(db.resumes)
    ensures r.Failure? ==> unchanged(db)
    ensures Resolve(old(db.users), session).Failure? ==>
      r == Failure(Resolve(old(db.users), session).error)
    ensures Resolve(old(db.users), session).Success? ==>
      var owner := Resolve(old(db.users), session).value.id;
      (r.Success? <==> exists c :: c in old(db.coverLetters) && c.id == id && c.userId == owner)
      && (r.Failure? ==> r.error == RecordNotFound)
      && (r.Success? ==>
            r.value in old(db.coverLetters) && r.value.id == id && r.value.userId == owner
            && db.coverLetters == Without(old(db.coverLetters), id, owner)
            && |db.coverLetters| == |old(db.coverLetters)| - 1)
  {
    var resolved := Resolve(db.users, session);
    if resolved.Failure? {
      return Failure(resolved.error);
    }
    var deleted := db.DeleteCoverLetter(id, resolved.value.id);
    if deleted.None? {
      return Failure(RecordNotFound);
    }
    return Success(deleted.value);
  }
}
