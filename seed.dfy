/**
 * The database seeding script (seed-supabase.js): the setup script split into statements, the
 * rows inserted without their ids, the old-to-new id maps, the meetings' foreign keys rewritten
 * through them, and the order in which the script writes or stops.
 */
module Seed {
  import opened Common
  import opened Text
  import opened Lists

  /** A field of a mock record. The mock records hold text and nulls in the fields this script reads. */
  datatype Value = Null | Str(s: string)

  /** A mock record: its fields by name. */
  type Row = map<string, Value>

  // ---- The setup script ----

  /** A segment between two `;` that holds more than white space. */
  predicate IsStatement(segment: string)
  {
    Trim(segment) != ""
  }

  /**
   * `sqlScript.split(';').filter(stmt => stmt.trim() !== '')`: the non-blank pieces between
   * semicolons, every one of them, in the script's order, one segment per non-blank piece.
   */
  function Segments(script: string): (r: seq<string>)
    ensures forall s :: s in r ==> IsStatement(s) && ';' !in s
    ensures forall s :: s in Split(script, ';') && IsStatement(s) ==> s in r
    ensures IsSubsequence(r, Split(script, ';'))
    ensures |r| == |Positions(Split(script, ';'), IsStatement)|
  {
    FilterIsSubsequence(Split(script, ';'), IsStatement);
    FilterCount(Split(script, ';'), IsStatement);
    Filter(Split(script, ';'), IsStatement)
  }

  /**
   * `statement.trim() + ';'`: the text sent for one segment ends in `;`, holds no other `;` when the
   * segment holds none, and starts and ends (before the `;`) with no white space.
   */
  function StatementText(segment: string): (r: string)
    ensures |r| >= 1 && r[|r| - 1] == ';'
    ensures ';' !in segment ==> ';' !in r[..|r| - 1]
    ensures IsStatement(segment) ==> |r| >= 2 && !IsSpace(r[0]) && !IsSpace(r[|r| - 2])
  {
    var r := Trim(segment) + ";";
    assert r[..|r| - 1] == Trim(segment);
    if ';' !in segment then
      TrimKeepsAbsent(segment, ';');
      r
    else r
  }

  /** The texts sent for a list of segments, in order. */
  function Texts(segments: seq<string>): (r: seq<string>)
    ensures |r| == |segments|
    ensures forall i :: 0 <= i < |segments| ==> r[i] == StatementText(segments[i])
  {
    seq(|segments|, i requires 0 <= i < |segments| => StatementText(segments[i]))
  }

  /** A statement as sent: non-blank, without white space at either end, ending in its only `;`. */
  predicate SentStatement(t: string)
  {
    && |t| >= 2 && t[|t| - 1] == ';' && ';' !in t[..|t| - 1]
    && !IsSpace(t[0]) && !IsSpace(t[|t| - 2])
  }

  lemma TextsShape(segments: seq<string>)
    requires forall s :: s in segments ==> IsStatement(s) && ';' !in s
    ensures forall t :: t in Texts(segments) ==> SentStatement(t)
  {
    var r := Texts(segments);
    forall i | 0 <= i < |r|
      ensures SentStatement(r[i])
    {
      assert segments[i] in segments;
    }
  }

  /** The statements the script sends, in order: one per segment, each a trimmed piece of the script. */
  function Statements(script: string): (r: seq<string>)
    ensures |r| == |Segments(script)|
    ensures forall t :: t in r ==> SentStatement(t)
  {
    TextsShape(Segments(script));
    Texts(Segments(script))
  }

  /**
   * The `for` loop of `executeSqlScript`, given how each segment becomes the text sent (`text`) and
   * the store's answer to each statement (`failsOn`): every statement is sent in order whether or
   * not an earlier one failed; failures are only reported.
   */
  method SendEach(segments: seq<string>, text: string -> string, failsOn: string -> bool)
    returns (sent: seq<string>, failed: set<nat>)
    ensures |sent| == |segments|
    ensures forall j :: 0 <= j < |segments| ==> sent[j] == text(segments[j])
    ensures forall j :: j in failed <==> 0 <= j < |sent| && failsOn(sent[j])
  {
    sent := [];
    failed := {};
    for i := 0 to |segments|
      invariant |sent| == i
      invariant forall j :: 0 <= j < i ==> sent[j] == text(segments[j])
      invariant forall j :: j in failed <==> 0 <= j < i && failsOn(sent[j])
    {
      var statement := text(segments[i]);
      sent := sent + [statement];
      if failsOn(statement) {
        failed := failed + {i};
      }
    }
  }

  /** The loop run on the segments with `statement.trim() + ';'` as the text of each. */
  method ExecuteStatements(segments: seq<string>, failsOn: string -> bool) returns (sent: seq<string>, failed: set<nat>)
    ensures sent == Texts(segments)
    ensures forall j :: j in failed <==> 0 <= j < |sent| && failsOn(sent[j])
  {
    sent, failed := SendEach(segments, StatementText, failsOn);
  }

  /** `executeSqlScript` on the text of the setup script. */
  method ExecuteSqlScript(script: string, failsOn: string -> bool) returns (sent: seq<string>, failed: set<nat>)
    ensures sent == Statements(script)
    ensures forall j :: j in failed <==> 0 <= j < |sent| && failsOn(sent[j])
  {
    var statements := Segments(script);
    sent, failed := ExecuteStatements(statements, failsOn);
  }

  /** A script of white space and semicolons alone sends nothing. */
  lemma BlankScriptSendsNothing(script: string)
    requires forall s :: s in Split(script, ';') ==> IsBlank(s)
    ensures Statements(script) == []
  {
    var segs := Segments(script);
    if segs != [] {
      assert segs[0] in segs;
      TrimEmptyIffBlank(segs[0]);
    }
  }

  // ---- Rows without their ids ----

  /** `({ id, ...rest }) => rest`. */
  function StripId(row: Row): (r: Row)
    ensures "id" !in r
    ensures r.Keys == row.Keys - {"id"}
    ensures forall k :: k in r ==> r[k] == row[k]
  {
    row - {"id"}
  }

  function StripIds(rows: seq<Row>): (r: seq<Row>)
    ensures |r| == |rows|
    ensures forall i :: 0 <= i < |rows| ==> r[i] == StripId(rows[i])
  {
    seq(|rows|, i requires 0 <= i < |rows| => StripId(rows[i]))
  }

  // ---- Id maps ----

  /**
   * The property name a field's value becomes when it indexes a plain object: the text itself,
   * "null" for null, and "undefined" when the record has no such field.
   */
  function KeyOf(row: Row, field: string): (k: string)
    ensures field in row && row[field].Str? ==> k == row[field].s
    ensures k != "null" && k != "undefined" ==> field in row && row[field] == Str(k)
  {
    if field !in row then "undefined"
    else match row[field]
      case Null => "null"
      case Str(s) => s
  }

  /**
   * The map after `old.forEach((o, index) => { if (index < newIds.length) map[o.id] = newIds[index]; })`:
   * every value is one of the new ids, and there is at most one entry per old record.
   */
  function IdMapOf(oldRows: seq<Row>, newIds: seq<string>): (m: map<string, string>)
    ensures forall k :: k in m ==> m[k] in newIds
    ensures |m| <= |oldRows|
  {
    if oldRows == [] then map[]
    else
      var n := |oldRows| - 1;
      var m := IdMapOf(oldRows[..n], newIds);
      if n < |newIds| then m[KeyOf(oldRows[n], "id") := newIds[n]] else m
  }

  /** The `forEach` that fills an id map, one old record at a time. */
  method BuildIdMap(oldRows: seq<Row>, newIds: seq<string>) returns (idMap: map<string, string>)
    ensures idMap == IdMapOf(oldRows, newIds)
  {
    idMap := map[];
    for index := 0 to |oldRows|
      invariant idMap == IdMapOf(oldRows[..index], newIds)
    {
      assert oldRows[..index + 1][..index] == oldRows[..index];
      if index < |newIds| {
        idMap := idMap[KeyOf(oldRows[index], "id") := newIds[index]];
      }
    }
    assert oldRows[..|oldRows|] == oldRows;
  }

  /** The old record ids, in pairs with the inserted rows: position i of both, for i below both lengths. */
  predicate Paired(oldRows: seq<Row>, newIds: seq<string>, i: int)
  {
    0 <= i < |oldRows| && i < |newIds|
  }

  /** One step of the `forEach`: the last old record adds its id when it has a new id to pair with. */
  lemma IdMapStep(oldRows: seq<Row>, newIds: seq<string>, k: string)
    requires oldRows != []
    ensures k in IdMapOf(oldRows, newIds) <==>
              k in IdMapOf(oldRows[..|oldRows| - 1], newIds)
              || (|oldRows| - 1 < |newIds| && k == KeyOf(oldRows[|oldRows| - 1], "id"))
  {
  }

  /** The map holds a key exactly when some record paired with an inserted row has that id. */
  lemma {:induction false} IdMapKeys(oldRows: seq<Row>, newIds: seq<string>, k: string)
    ensures k in IdMapOf(oldRows, newIds) <==> exists i :: Paired(oldRows, newIds, i) && KeyOf(oldRows[i], "id") == k
  {
    if oldRows != [] {
      var n := |oldRows| - 1;
      var init := oldRows[..n];
      var key := KeyOf(oldRows[n], "id");
      IdMapKeys(init, newIds, k);
      IdMapStep(oldRows, newIds, k);
      if exists i :: Paired(oldRows, newIds, i) && KeyOf(oldRows[i], "id") == k {
        var i :| Paired(oldRows, newIds, i) && KeyOf(oldRows[i], "id") == k;
        if i < n {
          assert Paired(init, newIds, i) && KeyOf(init[i], "id") == k;
        }
      }
      if exists i :: Paired(init, newIds, i) && KeyOf(init[i], "id") == k {
        var i :| Paired(init, newIds, i) && KeyOf(init[i], "id") == k;
        assert Paired(oldRows, newIds, i) && KeyOf(oldRows[i], "id") == k;
      }
      if n < |newIds| && k == key {
        assert Paired(oldRows, newIds, n);
      }
    }
  }

  /** A key maps to the new id paired with the last record that has that id. */
  lemma {:induction false} IdMapValue(oldRows: seq<Row>, newIds: seq<string>, i: int)
    requires Paired(oldRows, newIds, i)
    requires forall j :: i < j < |oldRows| && j < |newIds| ==> KeyOf(oldRows[j], "id") != KeyOf(oldRows[i], "id")
    ensures KeyOf(oldRows[i], "id") in IdMapOf(oldRows, newIds)
    ensures IdMapOf(oldRows, newIds)[KeyOf(oldRows[i], "id")] == newIds[i]
  {
    var n := |oldRows| - 1;
    var init := oldRows[..n];
    if i < n {
      assert init[i] == oldRows[i];
      forall j | i < j < |init| && j < |newIds| ensures KeyOf(init[j], "id") != KeyOf(init[i], "id") {
        assert init[j] == oldRows[j];
      }
      IdMapValue(init, newIds, i);
    }
  }

  /**
   * The map holds a key exactly when some record paired with an inserted row has that id; a key
   * maps to the new id paired with the last such record.
   */
  lemma IdMapPositional(oldRows: seq<Row>, newIds: seq<string>)
    ensures forall k :: k in IdMapOf(oldRows, newIds) <==>
              exists i :: Paired(oldRows, newIds, i) && KeyOf(oldRows[i], "id") == k
    ensures forall i :: Paired(oldRows, newIds, i)
              && (forall j :: i < j < |oldRows| && j < |newIds| ==> KeyOf(oldRows[j], "id") != KeyOf(oldRows[i], "id"))
              ==> KeyOf(oldRows[i], "id") in IdMapOf(oldRows, newIds)
                  && IdMapOf(oldRows, newIds)[KeyOf(oldRows[i], "id")] == newIds[i]
  {
    forall k ensures k in IdMapOf(oldRows, newIds) <==> exists i :: Paired(oldRows, newIds, i) && KeyOf(oldRows[i], "id") == k {
      IdMapKeys(oldRows, newIds, k);
    }
    forall i | Paired(oldRows, newIds, i)
              && (forall j :: i < j < |oldRows| && j < |newIds| ==> KeyOf(oldRows[j], "id") != KeyOf(oldRows[i], "id"))
      ensures KeyOf(oldRows[i], "id") in IdMapOf(oldRows, newIds)
              && IdMapOf(oldRows, newIds)[KeyOf(oldRows[i], "id")] == newIds[i]
    {
      IdMapValue(oldRows, newIds, i);
    }
  }

  /** With distinct old ids, `map[old[i].id] == newIds[i]` holds for every paired position. */
  lemma DistinctIdsMapPositionally(oldRows: seq<Row>, newIds: seq<string>)
    requires forall i, j :: 0 <= i < j < |oldRows| ==> KeyOf(oldRows[i], "id") != KeyOf(oldRows[j], "id")
    ensures forall i :: Paired(oldRows, newIds, i) ==>
              KeyOf(oldRows[i], "id") in IdMapOf(oldRows, newIds)
              && IdMapOf(oldRows, newIds)[KeyOf(oldRows[i], "id")] == newIds[i]
    ensures |IdMapOf(oldRows, newIds).Keys| == if |oldRows| < |newIds| then |oldRows| else |newIds|
  {
    IdMapPositional(oldRows, newIds);
    var n := if |oldRows| < |newIds| then |oldRows| else |newIds|;
    var keys := IdsUpTo(oldRows, n);
    assert IdMapOf(oldRows, newIds).Keys == keys by {
      forall k ensures k in IdMapOf(oldRows, newIds).Keys <==> k in keys {
        IdsUpToMembers(oldRows, n, k);
        if k in IdMapOf(oldRows, newIds) {
          var i :| Paired(oldRows, newIds, i) && KeyOf(oldRows[i], "id") == k;
        }
        if k in keys {
          var i :| 0 <= i < n && KeyOf(oldRows[i], "id") == k;
          assert Paired(oldRows, newIds, i);
        }
      }
    }
    DistinctKeysCount(oldRows, n);
  }

  /** The ids of the first n rows. */
  function IdsUpTo(rows: seq<Row>, n: nat): set<string>
    requires n <= |rows|
  {
    if n == 0 then {} else IdsUpTo(rows, n - 1) + {KeyOf(rows[n - 1], "id")}
  }

  lemma {:induction false} IdsUpToMembers(rows: seq<Row>, n: nat, x: string)
    requires n <= |rows|
    ensures x in IdsUpTo(rows, n) <==> exists i :: 0 <= i < n && KeyOf(rows[i], "id") == x
  {
    if n > 0 {
      IdsUpToMembers(rows, n - 1, x);
      if KeyOf(rows[n - 1], "id") == x {
        assert 0 <= n - 1 < n && KeyOf(rows[n - 1], "id") == x;
      }
    }
  }

  lemma {:induction false} DistinctKeysCount(rows: seq<Row>, n: nat)
    requires n <= |rows|
    requires forall i, j :: 0 <= i < j < |rows| ==> KeyOf(rows[i], "id") != KeyOf(rows[j], "id")
    ensures |IdsUpTo(rows, n)| == n
  {
    if n > 0 {
      DistinctKeysCount(rows, n - 1);
      IdsUpToMembers(rows, n - 1, KeyOf(rows[n - 1], "id"));
    }
  }

  /**
   * A record whose id is the text "null" and one whose id is null name the same entry, and so do a
   * record without an id and one whose id is the text "undefined".
   */
  lemma KeyOfCollisions(a: Row, b: Row, c: Row, d: Row)
    requires "id" in a && a["id"] == Str("null") && "id" in b && b["id"] == Null
    requires "id" !in c && "id" in d && d["id"] == Str("undefined")
    ensures KeyOf(a, "id") == KeyOf(b, "id")
    ensures KeyOf(c, "id") == KeyOf(d, "id")
  {
  }

  /** A record beyond the inserted rows is mapped only if an earlier paired record shares its id. */
  lemma UnpairedNotMapped(oldRows: seq<Row>, newIds: seq<string>, i: int)
    requires |newIds| <= i < |oldRows|
    requires forall j :: 0 <= j < |newIds| && j < |oldRows| ==> KeyOf(oldRows[j], "id") != KeyOf(oldRows[i], "id")
    ensures KeyOf(oldRows[i], "id") !in IdMapOf(oldRows, newIds)
  {
    IdMapPositional(oldRows, newIds);
  }

  // ---- Meetings ----

  /** `idMap[meeting[field]] || null`: the mapped id, or null when unmapped or mapped to "". */
  function Remapped(idMap: map<string, string>, meeting: Row, field: string): (v: Value)
    ensures v.Str? <==> KeyOf(meeting, field) in idMap && idMap[KeyOf(meeting, field)] != ""
    ensures v.Str? ==> v.s == idMap[KeyOf(meeting, field)]
  {
    var k := KeyOf(meeting, field);
    if k in idMap && idMap[k] != "" then Str(idMap[k]) else Null
  }

  /** `({ id, ...meeting }) => ({ ...meeting, politicianId: ..., issueId: ... })`. */
  function RemapMeeting(meeting: Row, issueIdMap: map<string, string>, politicianIdMap: map<string, string>)
    : (r: Row)
    ensures "id" !in r
    ensures r.Keys == meeting.Keys - {"id"} + {"politicianId", "issueId"}
    ensures r["politicianId"] == Remapped(politicianIdMap, meeting, "politicianId")
    ensures r["issueId"] == Remapped(issueIdMap, meeting, "issueId")
    ensures forall k :: k in meeting && k !in {"id", "politicianId", "issueId"} ==> r[k] == meeting[k]
  {
    var rest := StripId(meeting);
    rest["politicianId" := Remapped(politicianIdMap, meeting, "politicianId")]
        ["issueId" := Remapped(issueIdMap, meeting, "issueId")]
  }

  function RemapMeetings(meetings: seq<Row>, issueIdMap: map<string, string>, politicianIdMap: map<string, string>)
    : (r: seq<Row>)
    ensures |r| == |meetings|
    ensures forall i :: 0 <= i < |meetings| ==> r[i] == RemapMeeting(meetings[i], issueIdMap, politicianIdMap)
  {
    seq(|meetings|, i requires 0 <= i < |meetings| => RemapMeeting(meetings[i], issueIdMap, politicianIdMap))
  }

  /**
   * A meeting that points at the i-th mock issue ends up pointing at the i-th inserted issue,
   * when the mock issue ids are distinct and that inserted id is not empty.
   */
  lemma MeetingFollowsIssue(
    meeting: Row, issues: seq<Row>, newIssueIds: seq<string>, politicianIdMap: map<string, string>, i: int)
    requires forall a, b :: 0 <= a < b < |issues| ==> KeyOf(issues[a], "id") != KeyOf(issues[b], "id")
    requires Paired(issues, newIssueIds, i) && newIssueIds[i] != ""
    requires KeyOf(meeting, "issueId") == KeyOf(issues[i], "id")
    ensures RemapMeeting(meeting, IdMapOf(issues, newIssueIds), politicianIdMap)["issueId"] == Str(newIssueIds[i])
  {
    DistinctIdsMapPositionally(issues, newIssueIds);
  }

  // ---- The run ----

  /** What the script does to the store, or how it ends. */
  datatype Action =
    | ExitFailure
    | RunSetupScript(statements: seq<string>)
    | ClearTable(table: string)
    | InsertIssues(rows: seq<Row>)
    | InsertPoliticians(rows: seq<Row>)
    | InsertMeetings(rows: seq<Row>)

  predicate Writes(a: Action)
  {
    !a.ExitFailure?
  }

  predicate InsertsRows(a: Action)
  {
    a.InsertIssues? || a.InsertPoliticians? || a.InsertMeetings?
  }

  const Clearing: seq<Action> := [ClearTable("meetings"), ClearTable("issues"), ClearTable("politicians")]

  /**
   * `seedDatabase`, given the mock lists, the setup script, and the store's answers: the list of
   * public tables, and the ids of the inserted issues and politicians. It always does something;
   * it exits with failure only as its one and only action; and no rows are inserted before the
   * three tables have been cleared.
   */
  function SeedRun(
    issues: seq<Row>, politicians: seq<Row>, meetings: seq<Row>, script: string,
    tables: Fetch<seq<string>>, issuesInsert: Fetch<seq<string>>, politiciansInsert: Fetch<seq<string>>)
    : (run: seq<Action>)
    ensures 1 <= |run| <= 6
    ensures ExitFailure in run ==> run == [ExitFailure]
    ensures forall i :: 0 <= i < |run| && InsertsRows(run[i]) ==> 3 <= i && run[..3] == Clearing
  {
    if issues == [] && politicians == [] && meetings == [] then [ExitFailure]
    else if tables.Err? then [RunSetupScript(Statements(script))]
    else if "issues" !in tables.data || "politicians" !in tables.data || "meetings" !in tables.data
    then [RunSetupScript(Statements(script))]
    else
      var inserts := [InsertIssues(StripIds(issues))] +
        match issuesInsert
        case Err(_) => []
        case Ok(issueIds) =>
          [InsertPoliticians(StripIds(politicians))] +
          match politiciansInsert
          case Err(_) => []
          case Ok(politicianIds) =>
            [InsertMeetings(RemapMeetings(meetings, IdMapOf(issues, issueIds), IdMapOf(politicians, politicianIds)))];
      assert (Clearing + inserts)[..3] == Clearing;
      assert forall i :: 0 <= i < 3 ==> !InsertsRows(Clearing[i]);
      Clearing + inserts
  }

  /** With nothing to seed the script exits with failure before any write. */
  lemma AbortWhenNothingToSeed(
    script: string, tables: Fetch<seq<string>>, issuesInsert: Fetch<seq<string>>, politiciansInsert: Fetch<seq<string>>)
    ensures SeedRun([], [], [], script, tables, issuesInsert, politiciansInsert) == [ExitFailure]
    ensures forall a :: a in SeedRun([], [], [], script, tables, issuesInsert, politiciansInsert) ==> !Writes(a)
  {
  }

  /** When the table list cannot be read or a table is missing, only the setup script runs. */
  lemma MissingTableRunsScriptOnly(
    issues: seq<Row>, politicians: seq<Row>, meetings: seq<Row>, script: string,
    tables: Fetch<seq<string>>, issuesInsert: Fetch<seq<string>>, politiciansInsert: Fetch<seq<string>>)
    requires issues != [] || politicians != [] || meetings != []
    requires tables.Err? || "issues" !in tables.data || "politicians" !in tables.data || "meetings" !in tables.data
    ensures SeedRun(issues, politicians, meetings, script, tables, issuesInsert, politiciansInsert)
            == [RunSetupScript(Statements(script))]
  {
  }

  /** A failed issues insert stops before the politicians; a failed politicians insert stops before the meetings. */
  lemma InsertErrorsStop(
    issues: seq<Row>, politicians: seq<Row>, meetings: seq<Row>, script: string,
    tables: Fetch<seq<string>>, issuesInsert: Fetch<seq<string>>, politiciansInsert: Fetch<seq<string>>)
    ensures var run := SeedRun(issues, politicians, meetings, script, tables, issuesInsert, politiciansInsert);
            && (issuesInsert.Err? ==> forall a :: a in run ==> !a.InsertPoliticians? && !a.InsertMeetings?)
            && (politiciansInsert.Err? ==> forall a :: a in run ==> !a.InsertMeetings?)
  {
  }

  /**
   * A full run clears the three tables, then inserts the issues and the politicians without their
   * ids, then every meeting with its keys rewritten through the two id maps, in that order.
   */
  lemma FullRun(
    issues: seq<Row>, politicians: seq<Row>, meetings: seq<Row>, script: string,
    tables: seq<string>, issueIds: seq<string>, politicianIds: seq<string>)
    requires issues != [] || politicians != [] || meetings != []
    requires "issues" in tables && "politicians" in tables && "meetings" in tables
    ensures var run := SeedRun(issues, politicians, meetings, script, Ok(tables), Ok(issueIds), Ok(politicianIds));
            && |run| == 6 && run[..3] == Clearing
            && run[3] == InsertIssues(StripIds(issues)) && run[4] == InsertPoliticians(StripIds(politicians))
            && run[5].InsertMeetings? && |run[5].rows| == |meetings|
            && forall i :: 0 <= i < |meetings| ==>
                 run[5].rows[i] == RemapMeeting(meetings[i], IdMapOf(issues, issueIds), IdMapOf(politicians, politicianIds))
  {
  }
}
