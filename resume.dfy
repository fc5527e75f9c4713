/** The resume server actions (actions/resume.js): save the caller's resume (create or
    replace, every missing field set to its default), read it back with the same defaults,
    and ask the text-generation service to improve a piece of resume text. */
module ResumeActions {
  import opened Wrappers
  import opened Strings
  import Schema
  import opened Store

  /** A resume with every field present, as `getResume` returns it. */
  datatype Resume = Resume(
    content: string,
    contactInfo: map<string, string>,
    summary: string,
    skills: string,
    experience: seq<Schema.Entry>,
    education: seq<Schema.Entry>,
    projects: seq<Schema.Entry>)

  /** `field || default` for every field: a missing field becomes "", {} or []. */
  function Normalise(d: ResumeData): Resume
  {
    Resume(d.content.GetOr(""), d.contactInfo.GetOr(map[]), d.summary.GetOr(""),
           d.skills.GetOr(""), d.experience.GetOr([]), d.education.GetOr([]),
           d.projects.GetOr([]))
  }

  /** The columns a complete resume is stored as. */
  function Stored(r: Resume): ResumeData
  {
    ResumeData(Some(r.content), Some(r.contactInfo), Some(r.summary), Some(r.skills),
               Some(r.experience), Some(r.education), Some(r.projects))
  }

  /** Every field of the data is given. */
  predicate Complete(d: ResumeData)
  {
    d.content.Some? && d.contactInfo.Some? && d.summary.Some? && d.skills.Some?
    && d.experience.Some? && d.education.Some? && d.projects.Some?
  }

  /** Each field of the normalised resume is the given value, or its default when the
      value is missing. */
  lemma NormaliseDefaults(d: ResumeData)
    ensures var r := Normalise(d);
      (d.content.Some? ==> r.content == d.content.value) && (d.content.None? ==> r.content == "")
      && (d.contactInfo.Some? ==> r.contactInfo == d.contactInfo.value)
      && (d.contactInfo.None? ==> r.contactInfo == map[])
      && (d.summary.Some? ==> r.summary == d.summary.value) && (d.summary.None? ==> r.summary == "")
      && (d.skills.Some? ==> r.skills == d.skills.value) && (d.skills.None? ==> r.skills == "")
      && (d.experience.Some? ==> r.experience == d.experience.value)
      && (d.experience.None? ==> r.experience == [])
      && (d.education.Some? ==> r.education == d.education.value)
      && (d.education.None? ==> r.education == [])
      && (d.projects.Some? ==> r.projects == d.projects.value) && (d.projects.None? ==> r.projects == [])
  {
  }

  /** Normalising stored columns gives the resume back, and normalising changes the data
      exactly when some field is missing. */
  lemma NormaliseStored(r: Resume, d: ResumeData)
    ensures Normalise(Stored(r)) == r
    ensures Complete(Stored(r))
    ensures Stored(Normalise(d)) == d <==> Complete(d)
  {
  }

  /** `resume.upsert` keyed by the owner, with every field normalised: the table after
      `saveResume(d)` at time `now`. */
  function Save(rows: map<UserId, ResumeRow>, owner: UserId, d: ResumeData, now: nat): map<UserId, ResumeRow>
  {
    rows[owner := ResumeRow(owner, Stored(Normalise(d)), now)]
  }

  /** `getResume`'s lookup: the owner's row, normalised, or none. */
  function Read(rows: map<UserId, ResumeRow>, owner: UserId): Option<Resume>
  {
    if owner in rows then Some(Normalise(rows[owner].data)) else None
  }

  /** Reading after a save gives the saved data with defaults filled in, whatever was
      stored before: the save is a full overwrite. */
  lemma SaveThenRead(rows: map<UserId, ResumeRow>, owner: UserId, d: ResumeData, now: nat)
    ensures Read(Save(rows, owner, d, now), owner) == Some(Normalise(d))
  {
  }

  /** After a save there is exactly one row for the owner, keyed by the owner, and every
      other user's row is as it was. */
  lemma SaveFrame(rows: map<UserId, ResumeRow>, owner: UserId, d: ResumeData, now: nat)
    requires ResumesKeyed(rows)
    ensures var after := Save(rows, owner, d, now);
      ResumesKeyed(after) && owner in after && after[owner].userId == owner
      && after.Keys == rows.Keys + {owner}
      && (forall u :: u in rows && u != owner ==> after[u] == rows[u])
  {
  }

  /** Saving the same data twice stores the same fields as saving it once; only the time
      stamp differs. */
  lemma SaveIdempotent(rows: map<UserId, ResumeRow>, owner: UserId, d: ResumeData, t1: nat, t2: nat)
    ensures Save(Save(rows, owner, d, t1), owner, d, t2) == Save(rows, owner, d, t2)
    ensures Read(Save(Save(rows, owner, d, t1), owner, d, t2), owner) == Read(Save(rows, owner, d, t1), owner)
  {
  }

  /** What `saveResume` receives: nothing or another falsy value, a value that is not an
      object, or an object whose resume fields may be missing. */
  datatype ResumePayload = Falsy | NotAnObject | Object(data: ResumeData)

  const InvalidResumeData := "Invalid resume data."

  /** `saveResume`: after the identity checks, a payload that is not an object is rejected
      with nothing written; otherwise the caller's row is created or replaced by the
      normalised data and nothing else changes. */
  method SaveResume(db: Database, session: Option<string>, payload: ResumePayload)
    returns (r: Result<string, Error>)
    requires db.Valid()
    modifies db
    ensures db.Valid()
    ensures db.users == old(db.users) && db.coverLetters == old(db.coverLetters)
    ensures Resolve(old(db.users), session).Failure? ==>
      r == Failure(Resolve(old(db.users), session).error) && unchanged(db)
    ensures Resolve(old(db.users), session).Success? && !payload.Object? ==>
      r == Failure(SaveResumeFailed(InvalidResumeData)) && unchanged(db)
    ensures Resolve(old(db.users), session).Success? && payload.Object? ==>
      r == Success("success")
      && db.resumes == Save(old(db.resumes), Resolve(old(db.users), session).value.id,
                            payload.data, old(db.clock))
  {
    var resolved := Resolve(db.users, session);
    if resolved.Failure? {
      return Failure(resolved.error);
    }
    if !payload.Object? {
      return Failure(SaveResumeFailed(InvalidResumeData));
    }
    db.UpsertResume(resolved.value.id, Stored(Normalise(payload.data)));
    return Success("success");
  }

  /** `getResume`: the caller's resume with defaults filled in, or none. */
  method GetResume(db: Database, session: Option<string>) returns (r: Result<Option<Resume>, Error>)
    ensures r.Failure? <==> Resolve(db.users, session).Failure?
    ensures r.Failure? ==> r.error == Resolve(db.users, session).error
    ensures r.Success? ==>
      var owner := Resolve(db.users, session).value.id;
      (r.value.None? <==> owner !in db.resumes)
      && (r.value.Some? ==> r.value.value == Normalise(db.resumes[owner].data))
  {
    var resolved := Resolve(db.users, session);
    if resolved.Failure? {
      return Failure(resolved.error);
    }
    return Success(Read(db.resumes, resolved.value.id));
  }

  /** The fixed fragments of the improvement prompt, between the substituted values. */
  datatype Fragment =
    | Opening
    | DescriptionFor
    | CurrentContent
    | Requirements

  /** The wording of each fragment. */
  function Wording(f: Fragment): string
  {
    match f
    case Opening =>
      "\n"
        + "    As an expert resume writer, improve the following "
    case DescriptionFor =>
      " description for a "
    case CurrentContent =>
      " professional.\n"
        + "    Make it more impactful, quantifiable, and aligned with industry standards.\n"
        + "    Current content: \""
    case Requirements =>
      "\"\n"
        + "\n"
        + "    Requirements:\n"
        + "    1. Use action verbs\n"
        + "    2. Include metrics and results where possible\n"
        + "    3. Highlight relevant technical skills\n"
        + "    4. Keep it concise but detailed\n"
        + "    5. Focus on achievements over responsibilities\n"
        + "    6. Use industry-specific keywords\n"
        + "\n"
        + "    Format the response as a single paragraph without any additional text or "
        + "explanations.\n"
        + "  "
  }

  /** The values the prompt substitutes: the kind of text, the user's industry ("null"
      when unset) and the current text. */
  function ImproveValues(kind: string, industry: Option<string>, current: string): seq<string>
  {
    [kind, Show(industry), current]
  }

  /** The prompt template of `improveWithAI`: `Hole(i)` is `ImproveValues`' i-th value. */
  function ImproveTemplate(): seq<Part<Fragment>>
  {
    [Lit(Opening), Hole(0), Lit(DescriptionFor), Hole(1), Lit(CurrentContent), Hole(2),
     Lit(Requirements)]
  }

  function ImprovePrompt(kind: string, industry: Option<string>, current: string): string
  {
    Fill(ImproveTemplate(), Wording, ImproveValues(kind, industry, current))
  }

  /** The prompt carries, verbatim, the kind of text, the user's industry and the current
      text. */
  lemma {:induction false} ImprovePromptMentions(kind: string, industry: Option<string>, current: string)
    ensures var prompt := ImprovePrompt(kind, industry, current);
      Contains(prompt, kind) && Contains(prompt, Show(industry)) && Contains(prompt, current)
  {
    var template, values := ImproveTemplate(), ImproveValues(kind, industry, current);
    var wording := Wording;
    assert template[1] == Hole(0) && template[3] == Hole(1) && template[5] == Hole(2);
    FillMentions(template, wording, values, 1);
    FillMentions(template, wording, values, 3);
    FillMentions(template, wording, values, 5);
  }

  /** `improveWithAI`: the trimmed completion of the prompt built from the caller's
      industry, or the service's error wrapped in "Failed to improve content: ". Nothing
      is written. */
  method ImproveWithAI(db: Database, session: Option<string>, current: string, kind: string,
                       generate: string -> Result<string, string>)
    returns (r: Result<string, Error>)
    ensures Resolve(db.users, session).Failure? ==> r == Failure(Resolve(db.users, session).error)
    ensures Resolve(db.users, session).Success? ==>
      var reply := generate(ImprovePrompt(kind, Resolve(db.users, session).value.industry, current));
      (reply.Success? ==> r == Success(Trim(reply.value)))
      && (reply.Failure? ==> r == Failure(ImproveFailed(reply.error)))
  {
    var resolved := Resolve(db.users, session);
    if resolved.Failure? {
      return Failure(resolved.error);
    }
    var prompt := ImprovePrompt(kind, resolved.value.industry, current);
    var reply := generate(prompt);
    if reply.Failure? {
      return Failure(ImproveFailed(reply.error));
    }
    return Success(Trim(reply.value));
  }
}
