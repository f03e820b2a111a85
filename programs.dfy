/**
 * The programs page (app/dashboard/programs/page.tsx): loading programs with their sessions and
 * issue, the issue select list, and the new-program form whose insert copies the issue's title.
 */
module Programs {
  import opened Common
  import opened Forms
  import opened Display

  /** A `programs` row as `select("*")` returns it. */
  datatype ProgramRow = ProgramRow(
    id: string, title: string, description: string, issueId: string, issueName: string,
    status: string, startDate: string, endDate: string, createdAt: string, updatedAt: string)

  /** `select("id, title, date, location")` on the program's sessions. */
  datatype SessionSummary = SessionSummary(id: string, title: string, date: string, location: string)

  /**
   * What the page knows of a program's issue: never asked for (its sessions query failed, so the
   * `issue` key is absent), `null` (the issue query failed or found nothing), or the issue.
   */
  datatype IssueLink = NotFetched | NoIssue | Linked(issue: Titled)

  datatype ProgramView = ProgramView(row: ProgramRow, sessions: seq<SessionSummary>, issue: IssueLink)

  /**
   * One program after its two follow-up queries. A failed sessions query gives no sessions and
   * skips the issue query; a failed issue query keeps the sessions and gives a null issue.
   */
  function WithDetails(row: ProgramRow, sessions: Fetch<Option<seq<SessionSummary>>>, issue: Fetch<Option<Titled>>)
    : (v: ProgramView)
    ensures v.row == row
    ensures sessions.Err? ==> v.sessions == [] && v.issue == NotFetched
    ensures sessions.Ok? ==> v.sessions == OrEmpty(sessions.data) && v.issue != NotFetched
    ensures sessions.Ok? ==> (v.issue.Linked? <==> issue.Ok? && issue.data.Some?)
    ensures v.issue.Linked? ==> issue == Ok(Some(v.issue.issue))
  {
    match sessions
    case Err(_) => ProgramView(row, [], NotFetched)
    case Ok(s) =>
      match issue
      case Err(_) => ProgramView(row, OrEmpty(s), NoIssue)
      case Ok(None) => ProgramView(row, OrEmpty(s), NoIssue)
      case Ok(Some(i)) => ProgramView(row, OrEmpty(s), Linked(i))
  }

  /**
   * `fetchPrograms`: the programs query, then for each program its sessions (`sessionsOf`) and its
   * issue (`issueOf`). Only the first query can fail the load.
   */
  function LoadPrograms(
    response: Fetch<seq<ProgramRow>>,
    sessionsOf: ProgramRow -> Fetch<Option<seq<SessionSummary>>>,
    issueOf: ProgramRow -> Fetch<Option<Titled>>): (r: Fetch<seq<ProgramView>>)
    ensures r.Err? <==> response.Err?
    ensures response.Err? ==> r.message == response.message
    ensures response.Ok? ==> |r.data| == |response.data|
    ensures response.Ok? ==> forall i :: 0 <= i < |r.data| ==>
              r.data[i] == WithDetails(response.data[i], sessionsOf(response.data[i]), issueOf(response.data[i]))
  {
    match response
    case Err(m) => Err(m)
    case Ok(rows) =>
      Ok(seq(|rows|, i requires 0 <= i < |rows| => WithDetails(rows[i], sessionsOf(rows[i]), issueOf(rows[i]))))
  }

  /**
   * A sessions failure for one program changes only that program: it shows no sessions and no
   * issue, while every other program loads as before.
   */
  lemma SessionsFailureIsolated(
    rows: seq<ProgramRow>, sessionsOf: ProgramRow -> Fetch<Option<seq<SessionSummary>>>,
    issueOf: ProgramRow -> Fetch<Option<Titled>>, failing: ProgramRow, m: string)
    ensures var failed := (p: ProgramRow) => if p == failing then Err(m) else sessionsOf(p);
            var before := LoadPrograms(Ok(rows), sessionsOf, issueOf).data;
            var after := LoadPrograms(Ok(rows), failed, issueOf).data;
            && |after| == |before|
            && forall i :: 0 <= i < |rows| ==>
                 if rows[i] == failing then after[i] == ProgramView(rows[i], [], NotFetched)
                 else after[i] == before[i]
  {
  }

  /** `programs[i].sessions?.length || 0`. */
  function SessionCount(v: ProgramView): (n: nat)
    ensures n == CountOrZero(Some(v.sessions))
  {
    |v.sessions|
  }

  /**
   * The inserted row names the selected issue's title exactly when the select list holds that id,
   * and "" otherwise.
   */
  lemma IssueNameOfSelection(issues: seq<Titled>, form: Form)
    requires "issueId" in form
    ensures (exists i :: 0 <= i < |issues| && issues[i].id == form["issueId"]) ==>
              WithSelectedTitle(issues, form, "issueId", "issueName")["issueName"] == issues[FindById(issues, form["issueId"])].title
    ensures (forall i :: 0 <= i < |issues| ==> issues[i].id != form["issueId"]) ==>
              WithSelectedTitle(issues, form, "issueId", "issueName")["issueName"] == ""
  {
  }

  /** `{ title: "", description: "", issueId: "", status: "Active", startDate: "", endDate: "" }`. */
  function DefaultProgram(): (f: Form)
    ensures f.Keys == {"title", "description", "issueId", "status", "startDate", "endDate"}
    ensures f["status"] == "Active"
    ensures forall k :: k in f && k != "status" ==> f[k] == ""
  {
    map["title" := "", "description" := "", "issueId" := "", "status" := "Active", "startDate" := "", "endDate" := ""]
  }

  class ProgramsPage {
    var programs: seq<ProgramView>
    var issues: seq<Titled>
    var loading: bool
    var error: Option<string>
    var newProgram: Form
    var isDialogOpen: bool

    constructor ()
      ensures programs == [] && issues == [] && loading && error == None
      ensures newProgram == DefaultProgram() && !isDialogOpen
    {
      programs := [];
      issues := [];
      loading := true;
      error := None;
      newProgram := DefaultProgram();
      isDialogOpen := false;
    }

    /** `fetchIssues` for the select: a null list reads as empty; a failure is only logged. */
    method FetchIssues(response: Fetch<Option<seq<Titled>>>)
      modifies this`issues
      ensures response.Ok? ==> issues == OrEmpty(response.data)
      ensures response.Err? ==> issues == old(issues)
    {
      if response.Ok? {
        issues := OrEmpty(response.data);
      }
    }

    /** `fetchPrograms`: on failure the error is set and the old list stays. */
    method FetchPrograms(
      response: Fetch<seq<ProgramRow>>,
      sessionsOf: ProgramRow -> Fetch<Option<seq<SessionSummary>>>,
      issueOf: ProgramRow -> Fetch<Option<Titled>>)
      modifies this`programs, this`loading, this`error
      ensures !loading
      ensures response.Ok? ==> programs == LoadPrograms(response, sessionsOf, issueOf).data && error == None
      ensures response.Err? ==>
                programs == old(programs) && error == Some(ErrorText(response.message, "Failed to fetch programs"))
    {
      loading := true;
      error := None;
      var loaded := LoadPrograms(response, sessionsOf, issueOf);
      match loaded {
        case Ok(ps) => programs := ps;
        case Err(m) => error := Some(ErrorText(m, "Failed to fetch programs"));
      }
      loading := false;
    }

    /** `handleInputChange` and `handleSelectChange`: only the named field changes. */
    method HandleFieldChange(name: string, value: string)
      modifies this`newProgram
      ensures newProgram == SetField(old(newProgram), name, value)
    {
      newProgram := SetField(newProgram, name, value);
    }

    /**
     * `handleSubmit` once the insert has answered: the row sent is the form plus the issue's title;
     * success restores the defaults, closes the dialog and asks for a reload; failure changes nothing.
     */
    method HandleSubmit(insertError: Option<string>) returns (row: Form, reload: bool)
      modifies this`newProgram, this`isDialogOpen
      ensures row == WithSelectedTitle(issues, old(newProgram), "issueId", "issueName")
      ensures reload <==> insertError.None?
      ensures insertError.None? ==> newProgram == DefaultProgram() && !isDialogOpen
      ensures insertError.Some? ==> newProgram == old(newProgram) && isDialogOpen == old(isDialogOpen)
    {
      row := WithSelectedTitle(issues, newProgram, "issueId", "issueName");
      reload := insertError.None?;
      if reload {
        newProgram := DefaultProgram();
        isDialogOpen := false;
      }
    }
  }
}
