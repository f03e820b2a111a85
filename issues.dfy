/**
 * The issues page (app/dashboard/issues/page.tsx): loading issues with their programs, and the
 * new-issue form. Its priority and status badges and the category fallback are in `Display`.
 */
module Issues {
  import opened Common
  import opened Forms
  import opened Display
  import Programs

  type ProgramRow = Programs.ProgramRow

  /** An `issues` row as `select("*")` returns it. */
  datatype IssueRow = IssueRow(
    id: string, title: string, description: string, category: string,
    status: string, priority: string, createdAt: string, updatedAt: string)

  datatype IssueView = IssueView(row: IssueRow, programs: seq<ProgramRow>)

  /** One issue after its programs query: a failure gives no programs, a null list reads as empty. */
  function WithPrograms(row: IssueRow, programs: Fetch<Option<seq<ProgramRow>>>): (v: IssueView)
    ensures v.row == row
    ensures programs.Err? ==> v.programs == []
    ensures programs.Ok? ==> v.programs == OrEmpty(programs.data)
  {
    match programs
    case Err(_) => IssueView(row, [])
    case Ok(ps) => IssueView(row, OrEmpty(ps))
  }

  /** `fetchIssues`: the issues query, then one programs query per issue; only the first can fail the load. */
  function LoadIssues(response: Fetch<seq<IssueRow>>, programsOf: IssueRow -> Fetch<Option<seq<ProgramRow>>>)
    : (r: Fetch<seq<IssueView>>)
    ensures r.Err? <==> response.Err?
    ensures response.Err? ==> r.message == response.message
    ensures response.Ok? ==> |r.data| == |response.data|
    ensures response.Ok? ==> forall i :: 0 <= i < |r.data| ==>
              r.data[i] == WithPrograms(response.data[i], programsOf(response.data[i]))
  {
    match response
    case Err(m) => Err(m)
    case Ok(rows) => Ok(seq(|rows|, i requires 0 <= i < |rows| => WithPrograms(rows[i], programsOf(rows[i]))))
  }

  /** A programs failure for one issue empties that issue's programs and leaves every other issue as it was. */
  lemma ProgramsFailureIsolated(
    rows: seq<IssueRow>, programsOf: IssueRow -> Fetch<Option<seq<ProgramRow>>>, failing: IssueRow, m: string)
    ensures var failed := (r: IssueRow) => if r == failing then Err(m) else programsOf(r);
            var before := LoadIssues(Ok(rows), programsOf).data;
            var after := LoadIssues(Ok(rows), failed).data;
            && |after| == |before|
            && forall i :: 0 <= i < |rows| ==>
                 if rows[i] == failing then after[i] == IssueView(rows[i], []) else after[i] == before[i]
  {
  }

  /** The program count shown on an issue's card: `issue.programs?.length || 0`. */
  function ProgramCount(v: IssueView): (n: nat)
    ensures n == CountOrZero(Some(v.programs))
  {
    |v.programs|
  }

  /** `{ title: "", description: "", category: "", status: "Active", priority: "Medium" }`. */
  function DefaultIssue(): (f: Form)
    ensures f.Keys == {"title", "description", "category", "status", "priority"}
    ensures f["status"] == "Active" && f["priority"] == "Medium"
    ensures forall k :: k in f && k != "status" && k != "priority" ==> f[k] == ""
  {
    map["title" := "", "description" := "", "category" := "", "status" := "Active", "priority" := "Medium"]
  }

  /** A fresh form shows the "Medium" priority and "Active" status badges and, having no category, "Uncategorized". */
  lemma DefaultIssueBadges()
    ensures PriorityColor(DefaultIssue()["priority"]) == Yellow
    ensures StatusColor(DefaultIssue()["status"]) == Green
    ensures CategoryLabel(DefaultIssue()["category"]) == "Uncategorized"
  {
  }

  class IssuesPage {
    var issues: seq<IssueView>
    var loading: bool
    var error: Option<string>
    var newIssue: Form
    var isDialogOpen: bool

    constructor ()
      ensures issues == [] && loading && error == None
      ensures newIssue == DefaultIssue() && !isDialogOpen
    {
      issues := [];
      loading := true;
      error := None;
      newIssue := DefaultIssue();
      isDialogOpen := false;
    }

    /** `fetchIssues`: on failure the error is set and the old list stays. */
    method FetchIssues(response: Fetch<seq<IssueRow>>, programsOf: IssueRow -> Fetch<Option<seq<ProgramRow>>>)
      modifies this`issues, this`loading, this`error
      ensures !loading
      ensures response.Ok? ==> issues == LoadIssues(response, programsOf).data && error == None
      ensures response.Err? ==>
                issues == old(issues) && error == Some(ErrorText(response.message, "Failed to fetch issues"))
    {
      loading := true;
      error := None;
      var loaded := LoadIssues(response, programsOf);
      match loaded {
        case Ok(vs) => issues := vs;
        case Err(m) => error := Some(ErrorText(m, "Failed to fetch issues"));
      }
      loading := false;
    }

    /** `handleInputChange` and `handleSelectChange`: only the named field changes. */
    method HandleFieldChange(name: string, value: string)
      modifies this`newIssue
      ensures newIssue == SetField(old(newIssue), name, value)
    {
      newIssue := SetField(newIssue, name, value);
    }

    /**
     * `handleSubmit` once the insert has answered: the row sent is the form as it stands; success
     * restores the defaults, closes the dialog and asks for a reload; failure changes nothing.
     */
    method HandleSubmit(insertError: Option<string>) returns (row: Form, reload: bool)
      modifies this`newIssue, this`isDialogOpen
      ensures row == old(newIssue)
      ensures reload <==> insertError.None?
      ensures insertError.None? ==> newIssue == DefaultIssue() && !isDialogOpen
      ensures insertError.Some? ==> newIssue == old(newIssue) && isDialogOpen == old(isDialogOpen)
    {
      row := newIssue;
      reload := insertError.None?;
      if reload {
        newIssue := DefaultIssue();
        isDialogOpen := false;
      }
    }
  }
}
