/** The database the server actions share (lib/prisma.js), held in memory: the user table
    keyed by the authentication provider's user id, the cover-letter table and the resume
    table keyed by the owner's internal id. A `clock` stands in for the wall-clock times the
    database stamps on rows and `nextId` for the ids it generates. */
module Store {
  import opened Wrappers
  import Schema

  /** A user's internal id. */
  type UserId = string

  /** A user row; the nullable profile columns are `Option`s. */
  datatype User = User(
    id: UserId,
    clerkUserId: string,
    name: Option<string>,
    industry: Option<string>,
    experience: Option<int>,
    skills: seq<string>,
    bio: Option<string>)

  datatype CoverLetter = CoverLetter(
    id: nat,
    userId: UserId,
    content: string,
    jobDescription: string,
    companyName: string,
    jobTitle: string,
    status: string,
    createdAt: nat)

  /** The columns of a resume row; `None` is a null column. */
  datatype ResumeData = ResumeData(
    content: Option<string>,
    contactInfo: Option<map<string, string>>,
    summary: Option<string>,
    skills: Option<string>,
    experience: Option<seq<Schema.Entry>>,
    education: Option<seq<Schema.Entry>>,
    projects: Option<seq<Schema.Entry>>)

  datatype ResumeRow = ResumeRow(userId: UserId, data: ResumeData, updatedAt: nat)

  /** The errors the actions raise. `RecordNotFound` is the database's own error for a
      delete that matches no row. */
  datatype Error =
    | Unauthorized
    | UserNotFound
    | CoverLetterFailed
    | RecordNotFound
    | SaveResumeFailed(cause: string)
    | ImproveFailed(cause: string)

  /** The message of the error each action throws. */
  function ErrorMessage(e: Error): string
  {
    match e
    case Unauthorized => "Unauthorized"
    case UserNotFound => "User not found"
    case CoverLetterFailed => "Failed to generate cover letter"
    case RecordNotFound => "Record to delete does not exist."
    case SaveResumeFailed(cause) => "Server action failed: Save resume" + cause
    case ImproveFailed(cause) => "Failed to improve content: " + cause
  }

  /** Every user is filed under its own provider id, and internal ids are unique. */
  predicate UsersKeyed(users: map<string, User>) {
    (forall k :: k in users ==> users[k].clerkUserId == k)
    && (forall k1, k2 :: k1 in users && k2 in users && k1 != k2 ==> users[k1].id != users[k2].id)
  }

  /** Rows in creation order: strictly increasing `createdAt`, distinct ids. */
  predicate Chronological(rows: seq<CoverLetter>) {
    forall i, j :: 0 <= i < j < |rows| ==>
      rows[i].createdAt < rows[j].createdAt && rows[i].id != rows[j].id
  }

  /** `ORDER BY createdAt DESC`, strictly. */
  predicate NewestFirst(rows: seq<CoverLetter>) {
    forall i, j :: 0 <= i < j < |rows| ==> rows[i].createdAt > rows[j].createdAt
  }

  /** The rows that satisfy `keep`, in table order (a `where` filter). */
  function Where(rows: seq<CoverLetter>, keep: CoverLetter -> bool): (r: seq<CoverLetter>)
    ensures forall c :: c in r <==> c in rows && keep(c)
    ensures |r| <= |rows|
  {
    if rows == [] then []
    else
      var rest := Where(rows[1..], keep);
      assert forall c :: c in rows <==> c == rows[0] || c in rows[1..];
      if keep(rows[0]) then [rows[0]] + rest else rest
  }

  /** A filter every row passes keeps the table as it is. */
  lemma {:induction false} WhereAll(rows: seq<CoverLetter>, keep: CoverLetter -> bool)
    requires forall c :: c in rows ==> keep(c)
    ensures Where(rows, keep) == rows
  {
    if rows != [] {
      assert rows[0] in rows;
      WhereAll(rows[1..], keep);
      assert rows == [rows[0]] + rows[1..];
    }
  }

  /** The cover-letter table after deleting the rows with this id and owner: every other
      row stays, another user's row with the same id included. */
  function Without(rows: seq<CoverLetter>, id: nat, owner: UserId): (r: seq<CoverLetter>)
    ensures forall c :: c in r <==> c in rows && !(c.id == id && c.userId == owner)
  {
    Where(rows, Survives(id, owner))
  }

  /** The filter of a delete: rows other than the one with this id and owner. */
  function Survives(id: nat, owner: UserId): CoverLetter -> bool
  {
    (c: CoverLetter) => !(c.id == id && c.userId == owner)
  }

  /** The tail of a table in creation order is in creation order, and every row in it is
      newer than the first row and has another id. */
  lemma {:induction false} ChronologicalTail(rows: seq<CoverLetter>)
    requires Chronological(rows) && rows != []
    ensures Chronological(rows[1..])
    ensures forall c :: c in rows[1..] ==> c.createdAt > rows[0].createdAt && c.id != rows[0].id
  {
    var tail := rows[1..];
    forall i, j | 0 <= i < j < |tail|
      ensures tail[i].createdAt < tail[j].createdAt && tail[i].id != tail[j].id
    {
      assert tail[i] == rows[i + 1] && tail[j] == rows[j + 1];
    }
    forall c | c in tail ensures c.createdAt > rows[0].createdAt && c.id != rows[0].id {
      var k :| 0 <= k < |tail| && tail[k] == c;
      assert rows[k + 1] == c;
    }
  }

  /** A row older than every row of a table in creation order, and with another id, can
      go in front of it. */
  lemma {:induction false} ChronologicalCons(first: CoverLetter, rest: seq<CoverLetter>)
    requires Chronological(rest)
    requires forall c :: c in rest ==> first.createdAt < c.createdAt && first.id != c.id
    ensures Chronological([first] + rest)
  {
    var r := [first] + rest;
    forall i, j | 0 <= i < j < |r|
      ensures r[i].createdAt < r[j].createdAt && r[i].id != r[j].id
    {
      assert r[j] == rest[j - 1] && r[j] in rest;
      if i > 0 {
        assert r[i] == rest[i - 1];
      }
    }
  }

  /** Filtering keeps a table in creation order. */
  lemma {:induction false} WhereKeepsOrder(rows: seq<CoverLetter>, keep: CoverLetter -> bool)
    requires Chronological(rows)
    ensures Chronological(Where(rows, keep))
  {
    if rows != [] {
      ChronologicalTail(rows);
      WhereKeepsOrder(rows[1..], keep);
      if keep(rows[0]) {
        ChronologicalCons(rows[0], Where(rows[1..], keep));
      }
    }
  }

  /** On a table in creation order (so with unique ids) deleting a row that matches removes
      exactly that one row. */
  lemma {:induction false} WithoutRemovesOne(rows: seq<CoverLetter>, id: nat, owner: UserId)
    requires Chronological(rows)
    requires exists c :: c in rows && c.id == id && c.userId == owner
    ensures |Without(rows, id, owner)| == |rows| - 1
  {
    ChronologicalTail(rows);
    assert forall c :: c in rows <==> c == rows[0] || c in rows[1..];
    var keep := Survives(id, owner);
    if rows[0].id == id && rows[0].userId == owner {
      WhereAll(rows[1..], keep);
    } else {
      WithoutRemovesOne(rows[1..], id, owner);
    }
  }

  /** Every key is the owner of the row filed under it. */
  predicate ResumesKeyed(resumes: map<UserId, ResumeRow>) {
    forall u :: u in resumes ==> resumes[u].userId == u
  }

  class Database {
    var users: map<string, User>
    var coverLetters: seq<CoverLetter>
    var resumes: map<UserId, ResumeRow>
    var clock: nat
    var nextId: nat

    ghost predicate Valid()
      reads this
    {
      UsersKeyed(users)
      && Chronological(coverLetters)
      && (forall i :: 0 <= i < |coverLetters| ==>
            coverLetters[i].id < nextId && coverLetters[i].createdAt < clock)
      && ResumesKeyed(resumes)
    }

    constructor (users: map<string, User>)
      requires UsersKeyed(users)
      ensures Valid()
      ensures this.users == users && coverLetters == [] && resumes == map[]
    {
      this.users := users;
      coverLetters := [];
      resumes := map[];
      clock := 0;
      nextId := 0;
    }

    /** `coverLetter.create`: appends a row with a fresh id, stamped with the current time. */
    method CreateCoverLetter(userId: UserId, content: string, jobDescription: string,
                             companyName: string, jobTitle: string, status: string)
      returns (row: CoverLetter)
      requires Valid()
      modifies this
      ensures Valid()
      ensures row == CoverLetter(old(nextId), userId, content, jobDescription, companyName,
                                 jobTitle, status, old(clock))
      ensures coverLetters == old(coverLetters) + [row]
      ensures users == old(users) && resumes == old(resumes)
      ensures clock == old(clock) + 1 && nextId == old(nextId) + 1
    {
      row := CoverLetter(nextId, userId, content, jobDescription, companyName, jobTitle,
                         status, clock);
      coverLetters := coverLetters + [row];
      clock := clock + 1;
      nextId := nextId + 1;
    }

    /** `coverLetter.delete` where id and owner match: the deleted row, or `None` (the
        database's not-found error) when no row matches, in which case nothing changes. */
    method DeleteCoverLetter(id: nat, owner: UserId) returns (deleted: Option<CoverLetter>)
      requires Valid()
      modifies this
      ensures Valid()
      ensures deleted.Some? <==> exists c :: c in old(coverLetters) && c.id == id && c.userId == owner
      ensures deleted.Some? ==>
        deleted.value in old(coverLetters) && deleted.value.id == id && deleted.value.userId == owner
      ensures coverLetters == Without(old(coverLetters), id, owner)
      ensures deleted.None? ==> unchanged(this)
      ensures deleted.Some? ==> |coverLetters| == |old(coverLetters)| - 1
      ensures users == old(users) && resumes == old(resumes)
      ensures clock == old(clock) && nextId == old(nextId)
    {
      deleted := FindCoverLetter(coverLetters, id, owner);
      var keep := Survives(id, owner);
      if deleted.None? {
        WhereAll(coverLetters, keep);
      } else {
        var rest := Without(coverLetters, id, owner);
        WhereKeepsOrder(coverLetters, keep);
        WithoutRemovesOne(coverLetters, id, owner);
        forall i | 0 <= i < |rest| ensures rest[i].id < nextId && rest[i].createdAt < clock {
          assert rest[i] in rest;
        }
        coverLetters := rest;
      }
    }

    /** `resume.upsert` keyed by the owner: creates or replaces the row. */
    method UpsertResume(owner: UserId, data: ResumeData)
      requires Valid()
      modifies this
      ensures Valid()
      ensures resumes == old(resumes)[owner := ResumeRow(owner, data, old(clock))]
      ensures users == old(users) && coverLetters == old(coverLetters)
      ensures clock == old(clock) + 1 && nextId == old(nextId)
    {
      resumes := resumes[owner := ResumeRow(owner, data, clock)];
      clock := clock + 1;
    }
  }

  /** `coverLetter.findUnique` where id and owner match. */
  function FindCoverLetter(rows: seq<CoverLetter>, id: nat, owner: UserId): (r: Option<CoverLetter>)
    ensures r.Some? <==> exists c :: c in rows && c.id == id && c.userId == owner
    ensures r.Some? ==> r.value in rows && r.value.id == id && r.value.userId == owner
  {
    if rows == [] then None
    else if rows[0].id == id && rows[0].userId == owner then Some(rows[0])
    else
      var r := FindCoverLetter(rows[1..], id, owner);
      assert forall c :: c in rows <==> c == rows[0] || c in rows[1..];
      r
  }

  /** `if (!userId)`: a session carries a user id that JavaScript treats as true, that is a
      present and non-empty one. */
  predicate SignedIn(session: Option<string>) {
    session.Some? && session.value != ""
  }

  /** The identity check every action starts with: no session, or an empty id, is
      `Unauthorized`; a session with no user row is `UserNotFound`; otherwise the session's
      user. */
  function Resolve(users: map<string, User>, session: Option<string>): (r: Result<User, Error>)
    ensures r.Success? <==> SignedIn(session) && session.value in users
    ensures r.Success? ==> r.value == users[session.value]
    ensures r.Failure? ==> r.error == (if !SignedIn(session) then Unauthorized else UserNotFound)
  {
    match session
    case None => Failure(Unauthorized)
    case Some(clerkUserId) =>
      if clerkUserId == "" then Failure(Unauthorized)
      else if clerkUserId in users then Success(users[clerkUserId])
      else Failure(UserNotFound)
  }
}
