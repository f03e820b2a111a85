/**
 * The page of one session (app/components/session-detail.tsx): loading the session with its
 * program and attendance, the error view, and the attendance statistics.
 */
module SessionDetail {
  import opened Common
  import opened Lists
  import AttendanceManager

  type Attendance = AttendanceManager.Attendance

  datatype Program = Program(id: string, title: string, status: string)

  /** A `sessions` row as `select("*")` returns it. */
  datatype SessionRow = SessionRow(
    id: string, title: string, programId: string, programName: string, date: string,
    location: string, description: string, notes: string, createdAt: string, updatedAt: string)

  /** The session as the page holds it: the row, its program if one was found, and its attendance. */
  datatype SessionView = SessionView(row: SessionRow, program: Option<Program>, attendance: seq<Attendance>)

  /**
   * `fetchSessionDetails` on the three answers of the store. The session query must answer a row;
   * the program is asked for only when the session names one, and its failure is not an error;
   * the attendance query must succeed, a null list reading as empty.
   */
  function LoadSession(
    sessionResp: Fetch<Option<SessionRow>>, programResp: Fetch<Option<Program>>,
    attendanceResp: Fetch<Option<seq<Attendance>>>): (r: Fetch<SessionView>)
    ensures sessionResp.Err? ==> r == Err(sessionResp.message)
    ensures sessionResp == Ok(None) ==> r == Err("Session not found")
    ensures sessionResp.Ok? && sessionResp.data.Some? && attendanceResp.Err? ==> r == Err(attendanceResp.message)
    ensures r.Ok? <==> sessionResp.Ok? && sessionResp.data.Some? && attendanceResp.Ok?
    ensures r.Ok? ==>
              && r.data.row == sessionResp.data.value
              && r.data.attendance == OrEmpty(attendanceResp.data)
              && (r.data.program.Some? <==>
                    r.data.row.programId != "" && programResp.Ok? && programResp.data.Some?)
              && (r.data.program.Some? ==> r.data.program == programResp.data)
  {
    match sessionResp
    case Err(m) => Err(m)
    case Ok(None) => Err("Session not found")
    case Ok(Some(row)) =>
      var program := if row.programId != "" && programResp.Ok? then programResp.data else None;
      match attendanceResp
      case Err(m) => Err(m)
      case Ok(att) => Ok(SessionView(row, program, OrEmpty(att)))
  }

  /** A session that names no program loads the same whatever the program query would answer. */
  lemma ProgramIgnoredWithoutId(
    sessionResp: Fetch<Option<SessionRow>>, p1: Fetch<Option<Program>>, p2: Fetch<Option<Program>>,
    attendanceResp: Fetch<Option<seq<Attendance>>>)
    requires sessionResp.Ok? && sessionResp.data.Some? && sessionResp.data.value.programId == ""
    ensures LoadSession(sessionResp, p1, attendanceResp) == LoadSession(sessionResp, p2, attendanceResp)
  {
  }

  /** A failed program query loads the session as if it had no program. */
  lemma ProgramFailureNotFatal(
    sessionResp: Fetch<Option<SessionRow>>, m: string, attendanceResp: Fetch<Option<seq<Attendance>>>)
    ensures LoadSession(sessionResp, Err(m), attendanceResp) == LoadSession(sessionResp, Ok(None), attendanceResp)
  {
  }

  /** The error view appears when an error is set or no session is loaded: `error || !session`. */
  predicate ShowsErrorView(error: Option<string>, session: Option<SessionView>)
  {
    (error.Some? && error.value != "") || session.None?
  }

  /** `error || "Session not found"`. */
  function ErrorViewMessage(error: Option<string>): (r: string)
    ensures r != ""
    ensures error.Some? && error.value != "" ==> r == error.value
    ensures error.None? ==> r == "Session not found"
  {
    if error.Some? && error.value != "" then error.value else "Session not found"
  }

  /** `session.attendance?.length || 0`: one per attendance record, so 0 exactly when there is none. */
  function TotalAttendees(attendance: seq<Attendance>): (n: nat)
    ensures n == 0 <==> attendance == []
  {
    |attendance|
  }

  predicate Present(a: Attendance)
  {
    a.attended
  }

  /**
   * `session.attendance?.filter(a => a.attended).length || 0`: the number of positions whose record
   * is marked present, never more than the records there are.
   */
  function PresentCount(attendance: seq<Attendance>): (n: nat)
    ensures n == |set i | 0 <= i < |attendance| && attendance[i].attended|
    ensures n <= |attendance|
  {
    var p := Present;
    FilterCount(attendance, p);
    assert Positions(attendance, p) == set i | 0 <= i < |attendance| && attendance[i].attended;
    |Filter(attendance, Present)|
  }

  /** `totalAttendees > 0 ? (presentCount / totalAttendees) * 100 : 0`, in exact arithmetic: a percentage. */
  function AttendanceRate(attendance: seq<Attendance>): (r: real)
    ensures 0.0 <= r <= 100.0
    ensures attendance == [] ==> r == 0.0
  {
    if TotalAttendees(attendance) > 0 then
      RatioBounds(PresentCount(attendance), TotalAttendees(attendance));
      (PresentCount(attendance) as real / TotalAttendees(attendance) as real) * 100.0
    else 0.0
  }

  /**
   * Present never exceeds total; no records means both are 0 and so is the rate; the rate lies in
   * [0, 100] and is 100 exactly when there are records and all of them are marked present.
   */
  lemma {:induction false} StatsBounds(attendance: seq<Attendance>)
    ensures PresentCount(attendance) <= TotalAttendees(attendance)
    ensures attendance == [] ==> PresentCount(attendance) == 0 && TotalAttendees(attendance) == 0
    ensures attendance == [] ==> AttendanceRate(attendance) == 0.0
    ensures 0.0 <= AttendanceRate(attendance) <= 100.0
    ensures AttendanceRate(attendance) == 100.0 <==>
              attendance != [] && forall a :: a in attendance ==> a.attended
  {
    if attendance != [] {
      var p := PresentCount(attendance);
      var t := TotalAttendees(attendance);
      RatioBounds(p, t);
      if forall a :: a in attendance ==> a.attended {
        FilterAll(attendance, Present);
      }
      if AttendanceRate(attendance) == 100.0 {
        forall a | a in attendance ensures a.attended {
          if !a.attended {
            FilterMissesOne(attendance, Present, a);
          }
        }
      }
    }
  }

  /** `p / t * 100` of counts `p <= t` lies in [0, 100] and reaches 100 exactly when `p == t`. */
  lemma RatioBounds(p: nat, t: nat)
    requires p <= t && t > 0
    ensures 0.0 <= (p as real / t as real) * 100.0 <= 100.0
    ensures (p as real / t as real) * 100.0 == 100.0 <==> p == t
  {
    var q := p as real / t as real;
    assert q * (t as real) == p as real;
    assert q <= 1.0;
    assert q * 100.0 == 100.0 ==> q == 1.0;
  }

  /** Leaving out an element the filter rejects makes the result shorter than the input. */
  lemma {:induction false} FilterMissesOne<T>(s: seq<T>, p: T -> bool, x: T)
    requires x in s && !p(x)
    ensures |Filter(s, p)| < |s|
  {
    if s[0] == x {
      assert |Filter(s[1..], p)| <= |s[1..]|;
      assert Filter(s, p) == Filter(s[1..], p);
    } else {
      FilterMissesOne(s[1..], p, x);
    }
  }

  /** `isPastSession`: an empty date is never past; `isBeforeNow` stands for `new Date(date) < now`. */
  function IsPastSession(date: string, isBeforeNow: string -> bool): (r: bool)
    ensures date == "" ==> !r
    ensures date != "" ==> (r <==> isBeforeNow(date))
  {
    date != "" && isBeforeNow(date)
  }

  class SessionDetailPage {
    const sessionId: string
    var session: Option<SessionView>
    var loading: bool
    var error: Option<string>

    constructor (sessionId: string)
      ensures this.sessionId == sessionId && session == None && loading && error == None
    {
      this.sessionId := sessionId;
      session := None;
      loading := true;
      error := None;
    }

    /**
     * `fetchSessionDetails`: success replaces the session and clears the error; any failure sets
     * the error text (its own message, or the page's default) and keeps the session held before.
     */
    method FetchSessionDetails(
      sessionResp: Fetch<Option<SessionRow>>, programResp: Fetch<Option<Program>>,
      attendanceResp: Fetch<Option<seq<Attendance>>>)
      modifies this`session, this`loading, this`error
      ensures !loading
      ensures LoadSession(sessionResp, programResp, attendanceResp).Ok? ==>
                session == Some(LoadSession(sessionResp, programResp, attendanceResp).data) && error == None
      ensures LoadSession(sessionResp, programResp, attendanceResp).Err? ==>
                session == old(session)
                && error == Some(ErrorText(LoadSession(sessionResp, programResp, attendanceResp).message,
                                           "Failed to fetch session details"))
      ensures ShowsErrorView(error, session) <==>
                LoadSession(sessionResp, programResp, attendanceResp).Err? || session.None?
    {
      loading := true;
      error := None;
      var loaded := LoadSession(sessionResp, programResp, attendanceResp);
      match loaded {
        case Ok(v) => session := Some(v);
        case Err(m) => error := Some(ErrorText(m, "Failed to fetch session details"));
      }
      loading := false;
    }
  }
}
