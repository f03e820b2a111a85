/**
 * The sessions page (app/dashboard/sessions/page.tsx): loading sessions with their attendance
 * count and attendees, the program select list, and the new-session form whose insert copies the
 * program's title. Whether a session is past is `SessionDetail.IsPastSession`.
 */
module Sessions {
  import opened Common
  import opened Forms
  import SessionDetail

  type SessionRow = SessionDetail.SessionRow

  /** The `parents(id, name)` join of an attendance row; null when the parent row is gone. */
  datatype ParentRef = ParentRef(id: string, name: string)

  /** `select("parentId, attended, parents(id, name)")`. */
  datatype AttendanceRow = AttendanceRow(parentId: string, attended: bool, parents: Option<ParentRef>)

  datatype Attendee = Attendee(id: string, name: string, attended: bool)

  /** A session as the page holds it; `parents` is absent when the count query failed. */
  datatype SessionView = SessionView(row: SessionRow, attendanceCount: nat, parents: Option<seq<Attendee>>)

  /** What the browser's engine reports when `item.parents.id` is read on a null join. */
  const NullParentMessage := "Cannot read properties of null (reading 'id')"

  /**
   * `attendanceData.map(item => ({ id: item.parents.id, name: item.parents.name, attended: item.attended }))`:
   * one attendee per row in order, or nothing when some row's parent join is null (the read throws).
   */
  function Attendees(rows: seq<AttendanceRow>): (r: Option<seq<Attendee>>)
    ensures r.Some? <==> forall i :: 0 <= i < |rows| ==> rows[i].parents.Some?
    ensures r.Some? ==> |r.value| == |rows|
    ensures r.Some? ==> forall i :: 0 <= i < |rows| ==>
              r.value[i] == Attendee(rows[i].parents.value.id, rows[i].parents.value.name, rows[i].attended)
  {
    if rows == [] then Some([])
    else
      match rows[0].parents
      case None => None
      case Some(p) =>
        match Attendees(rows[1..])
        case None => None
        case Some(rest) => Some([Attendee(p.id, p.name, rows[0].attended)] + rest)
  }

  /**
   * One session after its two attendance queries. A failed count query gives count 0 and no
   * parents and skips the list query; a failed list query keeps the count and gives no attendees.
   * Only a null parent join makes it fail.
   */
  function WithAttendance(row: SessionRow, count: Fetch<Option<nat>>, attendance: Fetch<seq<AttendanceRow>>)
    : (r: Fetch<SessionView>)
    ensures r.Err? <==> count.Ok? && attendance.Ok? && Attendees(attendance.data).None?
    ensures r.Err? ==> r.message == NullParentMessage
    ensures r.Ok? ==> r.data.row == row
    ensures count.Err? ==> r == Ok(SessionView(row, 0, None))
    ensures count.Ok? && r.Ok? ==> r.data.attendanceCount == (if count.data.Some? then count.data.value else 0)
    ensures count.Ok? && attendance.Err? ==> r.Ok? && r.data.parents == Some([])
    ensures count.Ok? && attendance.Ok? && r.Ok? ==> r.data.parents == Attendees(attendance.data)
  {
    match count
    case Err(_) => Ok(SessionView(row, 0, None))
    case Ok(c) =>
      var n := if c.Some? then c.value else 0;
      match attendance
      case Err(_) => Ok(SessionView(row, n, Some([])))
      case Ok(rows) =>
        match Attendees(rows)
        case None => Err(NullParentMessage)
        case Some(ps) => Ok(SessionView(row, n, Some(ps)))
  }

  /** Every session's view, or the first failure among them. */
  function AllWithAttendance(
    rows: seq<SessionRow>, countOf: SessionRow -> Fetch<Option<nat>>,
    attendanceOf: SessionRow -> Fetch<seq<AttendanceRow>>): (r: Fetch<seq<SessionView>>)
    ensures r.Ok? <==> forall i :: 0 <= i < |rows| ==> WithAttendance(rows[i], countOf(rows[i]), attendanceOf(rows[i])).Ok?
    ensures r.Err? ==> r.message == NullParentMessage
    ensures r.Ok? ==> |r.data| == |rows|
    ensures r.Ok? ==> forall i :: 0 <= i < |rows| ==>
              r.data[i] == WithAttendance(rows[i], countOf(rows[i]), attendanceOf(rows[i])).data
  {
    if rows == [] then Ok([])
    else
      match WithAttendance(rows[0], countOf(rows[0]), attendanceOf(rows[0]))
      case Err(m) => Err(m)
      case Ok(v) =>
        match AllWithAttendance(rows[1..], countOf, attendanceOf)
        case Err(m) => Err(m)
        case Ok(vs) => Ok([v] + vs)
  }

  /** `fetchSessions`: the sessions query, then the per-session attendance queries. */
  function LoadSessions(
    response: Fetch<seq<SessionRow>>, countOf: SessionRow -> Fetch<Option<nat>>,
    attendanceOf: SessionRow -> Fetch<seq<AttendanceRow>>): (r: Fetch<seq<SessionView>>)
    ensures response.Err? ==> r == Err(response.message)
    ensures response.Ok? ==> r == AllWithAttendance(response.data, countOf, attendanceOf)
  {
    match response
    case Err(m) => Err(m)
    case Ok(rows) => AllWithAttendance(rows, countOf, attendanceOf)
  }

  /**
   * When every attendance row joins its parent, the page holds one attendee per row with that
   * row's flag, and the count query's number; the list and the count come from separate queries,
   * so nothing ties the one's length to the other.
   */
  lemma AttendeesFollowRows(row: SessionRow, n: nat, rows: seq<AttendanceRow>)
    requires forall i :: 0 <= i < |rows| ==> rows[i].parents.Some?
    ensures var r := WithAttendance(row, Ok(Some(n)), Ok(rows));
            && r.Ok? && r.data.attendanceCount == n && r.data.parents.Some?
            && |r.data.parents.value| == |rows|
            && forall i :: 0 <= i < |rows| ==> r.data.parents.value[i].attended == rows[i].attended
  {
  }

  /** The inserted row names the selected program's title exactly when the select list holds that id. */
  lemma ProgramNameOfSelection(programs: seq<Titled>, form: Form)
    requires "programId" in form
    ensures (exists i :: 0 <= i < |programs| && programs[i].id == form["programId"]) ==>
              WithSelectedTitle(programs, form, "programId", "programName")["programName"] == programs[FindById(programs, form["programId"])].title
    ensures (forall i :: 0 <= i < |programs| ==> programs[i].id != form["programId"]) ==>
              WithSelectedTitle(programs, form, "programId", "programName")["programName"] == ""
  {
  }

  /** The six empty fields of a new session. */
  const DefaultSession: Form := BlankForm({"title", "programId", "date", "location", "description", "notes"})

  class SessionsPage {
    var sessions: seq<SessionView>
    var programs: seq<Titled>
    var loading: bool
    var error: Option<string>
    var newSession: Form
    var isDialogOpen: bool

    constructor ()
      ensures sessions == [] && programs == [] && loading && error == None
      ensures newSession == DefaultSession && !isDialogOpen
    {
      sessions := [];
      programs := [];
      loading := true;
      error := None;
      newSession := DefaultSession;
      isDialogOpen := false;
    }

    /** `fetchPrograms` for the select: a null list reads as empty; a failure is only logged. */
    method FetchPrograms(response: Fetch<Option<seq<Titled>>>)
      modifies this`programs
      ensures response.Ok? ==> programs == OrEmpty(response.data)
      ensures response.Err? ==> programs == old(programs)
    {
      if response.Ok? {
        programs := OrEmpty(response.data);
      }
    }

    /** `fetchSessions`: on failure the error is set and the old list stays. */
    method FetchSessions(
      response: Fetch<seq<SessionRow>>, countOf: SessionRow -> Fetch<Option<nat>>,
      attendanceOf: SessionRow -> Fetch<seq<AttendanceRow>>)
      modifies this`sessions, this`loading, this`error
      ensures !loading
      ensures LoadSessions(response, countOf, attendanceOf).Ok? ==>
                sessions == LoadSessions(response, countOf, attendanceOf).data && error == None
      ensures LoadSessions(response, countOf, attendanceOf).Err? ==>
                sessions == old(sessions)
                && error == Some(ErrorText(LoadSessions(response, countOf, attendanceOf).message, "Failed to fetch sessions"))
    {
      loading := true;
      error := None;
      var loaded := LoadSessions(response, countOf, attendanceOf);
      match loaded {
        case Ok(vs) => sessions := vs;
        case Err(m) => error := Some(ErrorText(m, "Failed to fetch sessions"));
      }
      loading := false;
    }

    /** `handleInputChange` and `handleSelectChange`: only the named field changes. */
    method HandleFieldChange(name: string, value: string)
      modifies this`newSession
      ensures newSession == SetField(old(newSession), name, value)
    {
      newSession := SetField(newSession, name, value);
    }

    /**
     * `handleSubmit` once the insert has answered: the row sent is the form plus the program's
     * title; success empties the six fields, closes the dialog and asks for a reload; failure
     * changes nothing.
     */
    method HandleSubmit(insertError: Option<string>) returns (row: Form, reload: bool)
      modifies this`newSession, this`isDialogOpen
      ensures row == WithSelectedTitle(programs, old(newSession), "programId", "programName")
      ensures reload <==> insertError.None?
      ensures insertError.None? ==> newSession == DefaultSession && !isDialogOpen
      ensures insertError.Some? ==> newSession == old(newSession) && isDialogOpen == old(isDialogOpen)
    {
      row := WithSelectedTitle(programs, newSession, "programId", "programName");
      reload := insertError.None?;
      if reload {
        newSession := DefaultSession;
        isDialogOpen := false;
      }
    }
  }
}
