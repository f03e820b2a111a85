# ABC community dashboard: a verified model of its logic

The dashboard tracks community issues, the programs that address them, the sessions of those
programs and the parents who attend them. This project models in Dafny the logic of its pages, its
CSV export, its mock sign-in and its database seeding script. It then proves what that logic promises.

Every answer from the hosted store is an input. A query's result is a `Fetch<T>`: either
`Ok(data)` or `Err(message)`. The follow-up queries a page runs for each row are functions from the
row to such an answer. Each page is a class whose fields are the page's state. Each handler is a
method stating the page's whole new state. The pure parts the handlers use are functions, and
lemmas prove properties of those functions. A page's form is a `map<string, string>`, because the
handlers write it with `{ ...prev, [name]: value }` under a field name chosen at run time.

One module per source file:

- `Csv`: `convertToCSV` as a loop, plus a reader for the format it writes. Fields are quoted per
  section 2 of RFC 4180. Records are separated by LF. Reading the output back gives the header and
  every field's text.
- `Parents`: attendance counts, search, pagination and the rate colour of the parents page.
- `Dashboard`: counts, the category tally (a loop), the month buckets and upcoming sessions.
- `AttendanceManager`: the attendance panel of a session.
- `SessionDetail`: one session's page.
- `Issues`, `Programs` and `Sessions`: the three list pages.
- `Seed`: the seeding script.
- `Auth`: the mock sign-in. Its two roles, "admin" and "user", are `Admin` and `Member`.

Shared modules: `Common`, `Text` (ASCII lower-casing, substring, trim, split and join), `Lists`
(filter, subsequence, JavaScript `slice`), `Forms` and `Display`. `Display` holds the badge colours
the issues and programs pages share. The two pages' `getStatusColor` switches are identical, so
`Display.StatusColor` models both. `SessionDetail.IsPastSession` likewise models the identical
`isPastSession` of the sessions page (app/dashboard/sessions/page.tsx:231-236).

## Model

| member | source | states |
|---|---|---|
| Common.ErrorText | app/dashboard/parents/page.tsx:141 | `err.message \|\| fallback`: a non-empty message is shown as is; an empty one shows the page's default text |
| Common.OrEmpty | app/dashboard/page.tsx:176-182 | a null list reads as the empty list, a present list as itself |
| Text.Trim | app/components/attendance-manager.tsx:81 | the trimmed text is a contiguous slice of its input; everything before and after that slice is white space, and the slice has no white space at either end |
| Text.TrimEmptyIffBlank | app/components/attendance-manager.tsx:81 | `!query.trim()` holds exactly when the query is empty or white space only |
| Text.Split | seed-supabase.js:60 | splitting yields at least one piece, and no piece contains the separator |
| Text.JoinSplit | seed-supabase.js:60 | joining the pieces of a split with the same separator gives back the text |
| Text.ToLower | app/dashboard/parents/page.tsx:159-163 | `toLowerCase`: the same length, each character lower-cased on its own |
| Text.ToLowerIdempotent | app/dashboard/parents/page.tsx:159-163 | lower-casing an already lower-cased text changes nothing |
| Text.Contains | app/dashboard/parents/page.tsx:159-163 | `includes`: the empty query is found in every text, and no text is found in a shorter one |
| Text.ContainsBlock | app/dashboard/parents/page.tsx:159-163 | every contiguous block of a text, the whole text included, is found by `includes` |
| Text.SplitJoin | lib/export-utils.ts:41 | splitting an LF-join at LF gives back the joined pieces when none of them holds a line feed |
| Lists.Filter | app/dashboard/parents/page.tsx:168 | the result keeps exactly the elements satisfying the predicate, and is no longer than the input |
| Lists.FilterIsSubsequence | app/dashboard/parents/page.tsx:168 | a filter keeps the input order: the result is a subsequence of the input |
| Lists.FilterCount | app/dashboard/parents/page.tsx:128 | the length of a filtered list is the number of positions whose element meets the condition |
| Lists.Slice | app/dashboard/parents/page.tsx:173 | `slice(start, end)` with JavaScript clamping: for 0 <= start <= end it is the clamped window, and never longer than the input |
| Forms.SetField | app/dashboard/parents/page.tsx:183-188 | `{ ...prev, [name]: value }`: the named field takes the value, every other field keeps its value, and no other field appears |
| Forms.FindById | app/dashboard/programs/page.tsx:182 | `find` by id: -1 exactly when no row has the id, otherwise the first row that has it |
| Forms.TitleOf | app/dashboard/programs/page.tsx:182-183 | the title of the first row with the id, or "" when there is none |
| Forms.SelectedTitle | app/dashboard/programs/page.tsx:182-183 | the title copied into an insert: the title of the first row whose id the form holds under the given field, or "" when the form lacks that field |
| Forms.BlankForm | app/dashboard/parents/page.tsx:67-74 | a new form has exactly the given fields, all empty (the parents, sessions and attendance-panel forms) |
| Forms.WithSelectedTitle | app/dashboard/programs/page.tsx:182-188 | the inserted row `{ ...form, [titleField]: title }` (issueName on the programs page, programName at sessions/page.tsx:185-192): the form's fields plus the title field holding the selected row's title, every other field unchanged |
| Display.PriorityColor | app/dashboard/issues/page.tsx:165-176 | High is red, Medium yellow, Low green, each exactly; every other value is gray |
| Display.StatusColor | app/dashboard/issues/page.tsx:178-191 | Active is green, Pending yellow, Completed blue, each exactly; Inactive and every other value are gray |
| Display.CategoryLabel | app/dashboard/issues/page.tsx:426 | an empty category shows "Uncategorized"; any other shows itself; the label is never empty |
| Display.CountOrZero | app/dashboard/issues/page.tsx:436 | `xs?.length \|\| 0`: the list's length, or 0 when it is absent |
| Csv.Keys | lib/export-utils.ts:10 | the headers are the keys of the first record, in order |
| Csv.Cell | lib/export-utils.ts:17-36 | a missing, null or undefined value is an empty field; a number or boolean is its text; a string is verbatim unless it holds a comma, LF, CR or quote; such a string and every object are written between quotes |
| Csv.ConvertToCsv | lib/export-utils.ts:4-42 | the loop that pushes one line per record produces exactly the `ToCsv` text |
| Csv.ToCsv | lib/export-utils.ts:4-42 | no records give ""; otherwise the text starts with the header row of the first record's keys, followed by a line feed |
| Csv.EmptyInput | lib/export-utils.ts:5-7 | no records give the empty string |
| Csv.OutputLines | lib/export-utils.ts:10-41 | when no header and no value's text holds a line feed, splitting the output at LF gives `data.length + 1` lines: the first record's keys joined by commas, then each record's line in order |
| Csv.LookupAbsent | lib/export-utils.ts:18 | a key the record lacks reads as undefined |
| Csv.MissingKeyEmptyField | lib/export-utils.ts:21-23 | a missing key, a null or an undefined value gives an empty field |
| Csv.RowIgnoresOtherKeys | lib/export-utils.ts:17-38 | a record's line depends only on its values under the headers; keys absent from the first record are ignored |
| Csv.StringCell | lib/export-utils.ts:29-33 | a string without `,`, LF, CR or `"` is written verbatim; any other is quoted with every `"` doubled |
| Csv.UnquoteRoundTrip | lib/export-utils.ts:31-32 | stripping a quoted field's outer quotes and halving its doubled quotes recovers the string |
| Csv.ObjectCell | lib/export-utils.ts:25-27 | an object is always quoted, and undoing the quoting recovers its JSON text |
| Csv.UndoubleDoubled | lib/export-utils.ts:26 | halving doubled quotes undoes the doubling, for every text |
| Csv.CellRoundTrip | lib/export-utils.ts:17-36 | reading one written field back gives the value's text and stops at the next comma or LF |
| Csv.LineRoundTrip | lib/export-utils.ts:38 | reading a written line back gives every field's text, in order |
| Csv.GridRoundTrip | lib/export-utils.ts:41 | reading LF-joined written lines back gives each line's fields |
| Csv.CsvRoundTrip | lib/export-utils.ts:4-42 | for a non-empty list whose first record has at least one key, none of which needs quotes, and whose number and boolean values have texts that need no quotes (`RecordPlain`), reading the CSV back gives the header and each record's field texts: `data.length + 1` rows, each data row as wide as the header |
| Parents.CountsOf | app/dashboard/parents/page.tsx:126-129 | total is the number of attendance entries; attended is the number of positions whose entry is marked attended, so never more than total |
| Parents.AttendedCountExtremes | app/dashboard/parents/page.tsx:126-129 | attended equals total exactly when every entry is attended, and is 0 exactly when none is |
| Parents.WithAttendance | app/dashboard/parents/page.tsx:103-135 | a failed attendance query gives that parent no entries and counts of 0; otherwise the entries and their counts |
| Parents.LoadParents | app/dashboard/parents/page.tsx:86-146 | a failed parents query fails the load with its message; otherwise one parent per row, in order, each depending only on its own attendance answer |
| Parents.MatchesSearch | app/dashboard/parents/page.tsx:157-166 | the empty query matches everyone; otherwise a parent matches exactly when its name, email or children info contains the query ignoring ASCII case, or its phone contains the query as typed (both directions) |
| Parents.FilterParents | app/dashboard/parents/page.tsx:157-168 | the result is an order-preserving subsequence holding exactly the parents that match |
| Parents.EmptyQueryMatchesAll | app/dashboard/parents/page.tsx:159 | an empty query shows every parent |
| Parents.SearchIgnoresAddressAndNotes | app/dashboard/parents/page.tsx:159-163 | changing a parent's address or notes never changes whether it matches |
| Parents.SearchIgnoresQueryCase | app/dashboard/parents/page.tsx:160-163 | away from the phone, queries with the same lower-case form match the same parents |
| Parents.PhoneSearchIsCaseSensitive | app/dashboard/parents/page.tsx:162 | the phone is matched as typed: "Ext" finds "Ext 5" and "ext" does not |
| Parents.TotalPages | app/dashboard/parents/page.tsx:174 | `ceil(n / 6)`: enough pages for n items and no spare page; 0 pages for no items |
| Parents.PageItems | app/dashboard/parents/page.tsx:171-173 | page p (from 1) shows items [(p-1)*6, p*6) of the filtered list; no page shows more than six |
| Parents.PagesCoverList | app/dashboard/parents/page.tsx:171-174 | pages 1 to totalPages, concatenated, give the filtered list |
| Parents.InRangePageShowsParents | app/dashboard/parents/page.tsx:171-174 | a page between 1 and totalPages of the filtered list shows at least one parent |
| Parents.RateColor | app/dashboard/parents/page.tsx:227-238 | no colour exactly when there is no attendance; otherwise one of the three colours, green for full attendance and red for none |
| Parents.RateColorThresholds | app/dashboard/parents/page.tsx:227-238 | no attendance gives ""; otherwise a rate of 80% or more is green, 50% up to 80% amber, below 50% red |
| Parents.StaleCurrentPage | app/dashboard/parents/page.tsx:418 | as written, a query typed on page 2 that leaves one to six matches shows an empty grid and no pager |
| Parents.TypeQuery | app/dashboard/parents/page.tsx:418 | the corrected query change keeps the parents, takes the query and returns to page 1 |
| Parents.TypeQueryShowsFirstPage | app/dashboard/parents/page.tsx:171-174 | after the corrected query change the grid shows the first matches, up to six, and is never stranded |
| Parents.ParentsPage.FetchParents | app/dashboard/parents/page.tsx:86-146 | success replaces the list; failure keeps it and sets the error text; loading ends |
| Parents.ParentsPage.HandleInputChange | app/dashboard/parents/page.tsx:183-188 | only the named field changes |
| Parents.ParentsPage.HandleSubmit | app/dashboard/parents/page.tsx:190-221 | success empties the six fields, closes the dialog and reloads; failure leaves form and dialog as they were |
| Parents.ParentsPage.HandlePageChange | app/dashboard/parents/page.tsx:177-181 | the current page becomes the one chosen |
| Parents.ParentsPage.PageInRange | app/dashboard/parents/page.tsx:171-174 | a current page between 1 and totalPages of the filtered list shows at least one parent |
| Parents.ParentsPage.PreviousPage | app/dashboard/parents/page.tsx:580-585 | only while the pager shows (more than one page): disabled on page 1, otherwise one page back; from a page in range the page stays in range |
| Parents.ParentsPage.NextPage | app/dashboard/parents/page.tsx:580-609 | only while the pager shows (more than one page): disabled on the last page, otherwise one page on; from a page in range the page stays in range |
| Parents.ParentsPage.GoToPage | app/dashboard/parents/page.tsx:580-598 | only while the pager shows: a numbered button (one per page from 1 to totalPages) makes its page current, which is then in range |
| Parents.ParentsPage.SetSearchQuery | app/dashboard/parents/page.tsx:418 | the page's state after a query change is the corrected `TypeQuery` of the state before |
| Dashboard.CategoryOf | app/dashboard/page.tsx:130 | an issue's shown category is its own when it has one, and is never empty |
| Dashboard.TallyOf | app/dashboard/page.tsx:128-135 | the tally is a dictionary (no category twice) whose counts are all at least 1 and add up to the number of issues |
| Dashboard.TallyCategories | app/dashboard/page.tsx:128-135 | the `reduce` loop builds exactly the tally `TallyOf` of the issues |
| Dashboard.TallyFacts | app/dashboard/page.tsx:128-142 | the tally has one entry per distinct category; each value is the number of issues in that category, so at least 1; the values sum to the number of issues |
| Dashboard.NoEmptyCategory | app/dashboard/page.tsx:130 | no issue is counted under the empty category, which is shown as "Uncategorized" |
| Dashboard.SessionsByMonth | app/dashboard/page.tsx:145-170 | exactly 12 buckets, named Jan to Dec in order |
| Dashboard.MonthBucketsBound | app/dashboard/page.tsx:159-170 | each session counts in at most one month, so the buckets sum to at most the number of sessions, and to 0 when no session has a date |
| Dashboard.UndatedSessionInNoMonth | app/dashboard/page.tsx:162 | adding a session without a date changes no bucket |
| Dashboard.Upcoming | app/dashboard/page.tsx:175-182 | at most five sessions, all dated after now, in query order (a subsequence of the sessions; none when the list is absent) |
| Dashboard.UpcomingFacts | app/dashboard/page.tsx:175-182 | upcoming is exactly the first five of the sessions dated after now, or all of them when there are fewer |
| Dashboard.Load | app/dashboard/page.tsx:84-185 | any failed query leaves the initial view; otherwise each count is the list's length or 0, the chart data are the `TallyOf` tally, the `SessionsByMonth` buckets and the `Upcoming` list of the answers, the tally sums to the issue count, 12 buckets, at most 5 upcoming |
| AttendanceManager.ParentIds | app/components/attendance-manager.tsx:98 | the parent ids of the existing attendance, one per record, in order |
| AttendanceManager.ExcludeExisting | app/components/attendance-manager.tsx:97-99 | the results are an order-preserving subsequence of the answer holding exactly the parents not already attending |
| AttendanceManager.ResultsWithinLimit | app/components/attendance-manager.tsx:86-90 | with the store's answer capped at 10 rows, at most 10 results are shown |
| AttendanceManager.NothingToExclude | app/components/attendance-manager.tsx:97-99 | with no attendance yet, the results are the store's answer as it came |
| AttendanceManager.AttendancePanel.SearchParents | app/components/attendance-manager.tsx:80-102 | a blank query clears the results; a failed search keeps them; otherwise they become the answer less the parents already attending |
| AttendanceManager.AttendancePanel.ChangeSearch | app/components/attendance-manager.tsx:301-304 | the box's text is stored, then searched as above |
| AttendanceManager.AttendancePanel.AddParentToSession | app/components/attendance-manager.tsx:104-117 | the row sent is always `{sessionId, parentId, attended: true}`; success reloads the page and closes the dialog, failure changes nothing |
| AttendanceManager.AttendancePanel.UpdateAttendance | app/components/attendance-manager.tsx:119-134 | reports success exactly when the store reported no error, and only then reloads the page |
| AttendanceManager.AttendancePanel.HandleCreateParent | app/components/attendance-manager.tsx:136-164 | a failed parent insert changes nothing; otherwise the new parent is added to the session, and the form, search and dialog reset even if that add failed |
| AttendanceManager.AttendancePanel.HandleEditAttendance | app/components/attendance-manager.tsx:166-171 | the record's id and flag are copied, its notes too (or "" when null), and the editor opens |
| AttendanceManager.AttendancePanel.SetAttendanceStatus | app/components/attendance-manager.tsx:402 | the editor's switch sets the flag |
| AttendanceManager.AttendancePanel.SetAttendanceNote | app/components/attendance-manager.tsx:414 | the editor's notes box sets the note |
| AttendanceManager.AttendancePanel.CancelEdit | app/components/attendance-manager.tsx:421 | Cancel closes the editor and nothing else |
| AttendanceManager.AttendancePanel.HandleSaveAttendance | app/components/attendance-manager.tsx:173-185 | with no record being edited nothing is sent or changed; otherwise the editor's values are sent, success clears the editing state and failure keeps it |
| AttendanceManager.AttendancePanel.HandleInputChange | app/components/attendance-manager.tsx:187-190 | only the named field of the new-parent form changes |
| SessionDetail.LoadSession | app/components/session-detail.tsx:76-122 | a session error or a missing session ("Session not found") fails; the program is kept only when the session names one and its query found it; an attendance error fails; a null attendance list reads as empty |
| SessionDetail.ProgramIgnoredWithoutId | app/components/session-detail.tsx:91-92 | a session without a program loads the same whatever the program query would answer |
| SessionDetail.ProgramFailureNotFatal | app/components/session-detail.tsx:99-101 | a failed program query loads the session as if it had no program |
| SessionDetail.ErrorViewMessage | app/components/session-detail.tsx:182 | the error view shows the error text, or "Session not found" when there is none; never empty |
| SessionDetail.TotalAttendees | app/components/session-detail.tsx:193 | one per attendance record: 0 exactly when there is none |
| SessionDetail.PresentCount | app/components/session-detail.tsx:194 | the number of positions whose record is marked present, never more than the records |
| SessionDetail.AttendanceRate | app/components/session-detail.tsx:195 | a percentage in [0, 100], and 0 when there are no records |
| SessionDetail.StatsBounds | app/components/session-detail.tsx:193-195 | present never exceeds total; no records gives 0, 0 and a rate of 0; the rate lies in [0, 100] and is 100 exactly when all records are present |
| SessionDetail.IsPastSession | app/components/session-detail.tsx:145-150 | an empty date is never past; otherwise the date is past exactly when it is before now |
| SessionDetail.SessionDetailPage.FetchSessionDetails | app/components/session-detail.tsx:76-129 | success replaces the session and clears the error; failure sets the error text and keeps the old session; the error view then shows exactly when the load failed or no session is held |
| Issues.WithPrograms | app/dashboard/issues/page.tsx:94-106 | a failed programs query gives the issue no programs; otherwise its programs, a null list reading as empty |
| Issues.LoadIssues | app/dashboard/issues/page.tsx:79-116 | a failed issues query fails the load with its message; otherwise one view per issue, in order, each from its own programs answer |
| Issues.ProgramsFailureIsolated | app/dashboard/issues/page.tsx:100-103 | a programs failure for one issue empties only that issue's programs; every other issue loads as before |
| Issues.ProgramCount | app/dashboard/issues/page.tsx:436 | the card's program count is the number of programs held |
| Issues.DefaultIssue | app/dashboard/issues/page.tsx:65-71 | the form has its five fields: status "Active", priority "Medium", the rest empty |
| Issues.IssuesPage.FetchIssues | app/dashboard/issues/page.tsx:79-116 | success replaces the list; failure keeps it and sets the error text; loading ends |
| Issues.IssuesPage.HandleFieldChange | app/dashboard/issues/page.tsx:122-131 | only the named field changes |
| Issues.IssuesPage.HandleSubmit | app/dashboard/issues/page.tsx:133-163 | the form is sent as it stands; success restores exactly the defaults and closes the dialog; failure changes nothing |
| Programs.WithDetails | app/dashboard/programs/page.tsx:118-146 | a sessions failure gives no sessions and skips the issue; an issue failure keeps the sessions and gives a null issue; otherwise the issue found, or null |
| Programs.LoadPrograms | app/dashboard/programs/page.tsx:104-158 | a failed programs query fails the load with its message; otherwise one view per program, in order, each from its own answers |
| Programs.SessionsFailureIsolated | app/dashboard/programs/page.tsx:126-129 | a sessions failure for one program affects only that program |
| Programs.SessionCount | app/dashboard/programs/page.tsx:497 | the card's session count is the number of sessions held |
| Programs.IssueNameOfSelection | app/dashboard/programs/page.tsx:182-188 | the inserted `issueName` is the selected issue's title when the issue list has that id, and "" when it has not |
| Programs.DefaultProgram | app/dashboard/programs/page.tsx:71-78 | the form has its six fields: status "Active", the rest empty |
| Programs.ProgramsPage.FetchIssues | app/dashboard/programs/page.tsx:87-102 | success sets the select list (a null list reads as empty); failure keeps it |
| Programs.ProgramsPage.FetchPrograms | app/dashboard/programs/page.tsx:104-158 | success replaces the list; failure keeps it and sets the error text; loading ends |
| Programs.ProgramsPage.HandleFieldChange | app/dashboard/programs/page.tsx:165-174 | only the named field changes |
| Programs.ProgramsPage.HandleSubmit | app/dashboard/programs/page.tsx:176-216 | the row sent is the form plus the issue's title; success restores the defaults and closes the dialog; failure changes nothing |
| Sessions.Attendees | app/dashboard/sessions/page.tsx:140-144 | one attendee per attendance row, in order, with that row's parent and flag; nothing when a row's parent join is null |
| Sessions.WithAttendance | app/dashboard/sessions/page.tsx:118-151 | a count failure gives count 0 and no parents; a list failure keeps the count and gives `parents = []`; a null count reads as 0 |
| Sessions.AllWithAttendance | app/dashboard/sessions/page.tsx:117-152 | one view per session, in order, unless some session's attendance mapping throws |
| Sessions.LoadSessions | app/dashboard/sessions/page.tsx:102-161 | a failed sessions query fails the load with its message; otherwise the per-session views |
| Sessions.AttendeesFollowRows | app/dashboard/sessions/page.tsx:140-150 | with every parent joined, the count is the count query's and the attendees follow the rows one for one, with their flags |
| Sessions.ProgramNameOfSelection | app/dashboard/sessions/page.tsx:185-191 | the inserted `programName` is the selected program's title when the list has that id, and "" when it has not |
| Sessions.SessionsPage.FetchPrograms | app/dashboard/sessions/page.tsx:85-100 | success sets the select list (a null list reads as empty); failure keeps it |
| Sessions.SessionsPage.FetchSessions | app/dashboard/sessions/page.tsx:102-161 | success replaces the list; failure keeps it and sets the error text; loading ends |
| Sessions.SessionsPage.HandleFieldChange | app/dashboard/sessions/page.tsx:168-177 | only the named field changes |
| Sessions.SessionsPage.HandleSubmit | app/dashboard/sessions/page.tsx:179-219 | the row sent is the form plus the program's title; success empties the six fields and closes the dialog; failure changes nothing |
| Seed.Segments | seed-supabase.js:60 | the segments are exactly the non-blank pieces between semicolons, none holding a semicolon, in script order, as many as there are non-blank pieces |
| Seed.StatementText | seed-supabase.js:64 | the text sent for a segment ends in ";", holds no other ";" when the segment holds none, and for a non-blank segment neither starts nor ends with white space before the ";" |
| Seed.Texts | seed-supabase.js:64 | each statement sent is its trimmed segment followed by ";" |
| Seed.SendEach | seed-supabase.js:63-73 | every segment's statement is sent, in order, whatever the earlier ones answered; the failures reported are exactly the positions whose statement failed |
| Seed.ExecuteStatements | seed-supabase.js:63-73 | the statements sent are exactly `Texts` of the segments, each its trimmed segment followed by ";"; the failures are exactly the statements that failed |
| Seed.ExecuteSqlScript | seed-supabase.js:52-80 | the statements sent are exactly `Statements` of the script |
| Seed.Statements | seed-supabase.js:60-64 | one statement per segment, each non-blank, starting and ending without white space, and ending in its only ";" |
| Seed.BlankScriptSendsNothing | seed-supabase.js:60-64 | a script of white space and semicolons alone sends nothing |
| Seed.StripId | seed-supabase.js:150 | the row loses `id` and keeps every other field unchanged |
| Seed.StripIds | seed-supabase.js:168 | every row is stripped of its `id`, in order |
| Seed.KeyOf | seed-supabase.js:188 | a text id is its own key; any key other than "null" and "undefined" comes from a text id equal to it |
| Seed.KeyOfCollisions | seed-supabase.js:188 | the id text "null" and a null id name the same entry, and so do a missing id and the text "undefined" |
| Seed.IdMapOf | seed-supabase.js:186-200 | every value of an id map is one of the inserted ids, and the map has no more entries than there are old records |
| Seed.BuildIdMap | seed-supabase.js:186-192 | the `forEach` loop builds exactly `IdMapOf` of the old rows and the inserted ids |
| Seed.IdMapPositional | seed-supabase.js:186-200 | a key is mapped exactly when a record paired with an inserted row has that id; it maps to the id inserted for the last such record |
| Seed.DistinctIdsMapPositionally | seed-supabase.js:186-200 | with distinct old ids, `map[old[i].id] == inserted[i].id` for every i below both lengths, and the map has that many keys |
| Seed.UnpairedNotMapped | seed-supabase.js:188 | a record beyond the inserted rows is not mapped unless a paired record shares its id |
| Seed.Remapped | seed-supabase.js:208-209 | the mapped id when there is a non-empty one; otherwise null |
| Seed.RemapMeeting | seed-supabase.js:206-210 | the meeting loses `id`, its `politicianId` and `issueId` are rewritten through the maps, and every other field is unchanged |
| Seed.RemapMeetings | seed-supabase.js:206-210 | every meeting is rewritten, in order |
| Seed.MeetingFollowsIssue | seed-supabase.js:189 | with distinct mock issue ids, a meeting on the i-th mock issue points at the i-th inserted issue |
| Seed.SeedRun | seed-supabase.js:82-230 | the run always does something, at most six steps; an exit with failure is its only step; no rows are inserted before the three tables are cleared |
| Seed.AbortWhenNothingToSeed | seed-supabase.js:89-92 | with all three lists empty the script exits with failure before any write |
| Seed.MissingTableRunsScriptOnly | seed-supabase.js:104-120 | when the table list cannot be read or a table is missing, only the setup script runs |
| Seed.InsertErrorsStop | seed-supabase.js:157-177 | a failed issues insert stops before the politicians; a failed politicians insert stops before the meetings |
| Seed.FullRun | seed-supabase.js:122-221 | a full run clears the three tables, inserts issues and politicians without ids, then every meeting rewritten through both maps |
| Auth.WithoutPassword | lib/auth-provider.tsx:63 | the user keeps the account's id, name, email and role |
| Auth.InitialAccounts | lib/auth-provider.tsx:24-34 | the table starts with exactly the admin account under its email |
| Auth.LoginResult | lib/auth-provider.tsx:56-64 | fails with "Invalid email or password" exactly when the email is unknown or the password differs; otherwise gives the account without its password |
| Auth.RegisterResult | lib/auth-provider.tsx:32-89 | fails with "Email already in use" exactly when the email is stored or is a property name every object literal inherits (such as "toString"), which `MOCK_USERS[email]` also finds; otherwise adds an account with role "user" (`Member`) under the email and keeps every other account |
| Auth.AdminSignsIn | lib/auth-provider.tsx:24-34 | out of the box only the admin's email and password sign in, as an admin |
| Auth.RegisterThenLogin | lib/auth-provider.tsx:56-58 | after registering an email and password, signing in with them gives the new member |
| Auth.InheritedNamesNeverStored | lib/auth-provider.tsx:32-79 | an inherited property name cannot be registered, a table built by registration never stores one, and signing in with one fails whatever the password |
| Auth.RegisterLeavesOthers | lib/auth-provider.tsx:89 | a registration changes no other email's sign-in, and that email cannot be registered again |
| Auth.AuthProvider.constructor | lib/auth-provider.tsx:32-38 | the table holds the admin account; no user; loading |
| Auth.AuthProvider.Restore | lib/auth-provider.tsx:41-48 | a kept user is restored; loading ends |
| Auth.AuthProvider.Login | lib/auth-provider.tsx:50-68 | the table is untouched; success signs the account's user in, failure keeps the current user; loading ends |
| Auth.AuthProvider.Register | lib/auth-provider.tsx:70-96 | a taken email fails and changes nothing; otherwise the member is added and signed in without its password; loading ends |
| Auth.AuthProvider.Logout | lib/auth-provider.tsx:98-102 | no user is signed in |

## Left out

- Calls to the hosted store are not modelled; their answers are the model's inputs. That covers every query, insert and update, the `count: "exact"` head query and `.limit(10)`.
  The store's filtering is not modelled either: `ilike`, `eq` and `order`. The model takes the rows as answered.
- `Promise.all` runs the per-row queries concurrently; the model evaluates them in sequence. They are independent, so only the order of side effects differs, and the model does not observe that order.
- Clock and locale are parameters:
  - `toLocaleString` month names become `monthOf`.
  - `new Date(date) > now` becomes `isAfterNow`, and `< now` becomes `isBeforeNow`.
  - Date and time formatting and the Today/Tomorrow badges are not modelled.
- Floating point: `getAttendanceRateColor` compares with integer cross-multiplication, which a lemma links to the exact rate. The session page's rate is an exact `real`. IEEE rounding and `Math.round`/`toFixed` display are not modelled.
- Text.ToLower: lower-cases ASCII letters only, where JavaScript's `toLowerCase` also folds other Unicode letters.
- Csv.Cell: `JSON.stringify` is not modelled. An object value carries the text it would give.
- Csv.Cell: a number or boolean carries its `String()` text.
- Csv.OutputLines: requires that no header and no value's text holds a line feed. A quoted field with LF splits into more LF-separated pieces than there are records; `Csv.CsvRoundTrip` reads such output back with a quote-aware reader instead.
- Csv.CsvRoundTrip: requires headers that need no quotes. Headers are joined unescaped (lib/export-utils.ts:13). A key with a comma therefore produces a header line that cannot be read back.
- Csv.CsvRoundTrip: requires the first record to have at least one key. With none, the header line is empty, and an empty line reads back as one empty field, not as a row with no fields.
- Csv.CsvRoundTrip: requires `RecordPlain` of every record, meaning that no number or boolean value has a text that needs quotes. Such texts are written without quotes (line 35).
- Csv.Lookup: a record holds only its own keys. In JavaScript, `item[header]` for a missing header named after an `Object.prototype` member (for example "toString") yields a function, which line 35 writes as its source text. The model reads it as undefined.
- Csv.LookupAbsent: states the missing-key reading of `Csv.Lookup`, so it does not cover inherited names either.
- Csv.MissingKeyEmptyField: a missing header named after an `Object.prototype` member is written as a function's text in JavaScript, not as an empty field. The model gives an empty field.
- `downloadCSV`, `exportTable` and `exportAllData` are not modelled. They use browser Blob and DOM APIs and network fetches.
- Dashboard.TallyOf: lists categories in first-occurrence order. JavaScript's `Object.entries` lists integer-like keys such as "2024" first, in ascending numeric order, and inherited properties such as "__proto__" behave specially. Neither is modelled.
- Parents.LoadParents: attendance entries arrive already joined to their session. A null `sessions` join, which would throw at app/dashboard/parents/page.tsx:120, is not modelled.
- Sessions.WithAttendance: a null `parents` join makes the mapping throw. The model reports that throw with the message V8 gives. Other engines word their message differently.
- Seed.KeyOf: keys follow JavaScript's property-name conversion for text, null and a missing field. Numeric ids and prototype properties of the plain-object maps (for example "toString") are not modelled.
- Seed.SeedRun: the catch that exits with code 1 on a runtime error is not modelled. Such an error would be, for example, a tables answer without data.
- Seed.SeedRun: the mock-data extraction by regular expression and `eval` (seed-supabase.js:23-49) is not modelled. The three mock lists are inputs.
- Seed.SeedRun: the setup script file is an input.
- Seed.SeedRun: errors from clearing the tables are only logged, so the model does not record them.
- Every handler is one atomic step, and the answers it is given are those of the store at that moment. Interleavings of handlers and answers that arrive out of order are not modelled. For example, the attendance panel starts a search on every keystroke without awaiting it (app/components/attendance-manager.tsx:301-304), and each search filters with the attendance known when it started (lines 86-101); a slow older answer can arrive after a newer one and overwrite its results. The model applies each search's answer in the order the searches were started.
- Toasts, `console` logging, `router.push`, `window.scrollTo` and `setTimeout` delays are side-effect plumbing and are not modelled.
- Auth.AuthProvider.Restore: the user kept by the browser's `localStorage` is a parameter. Writing it is not modelled.
- Auth.AuthProvider.Register: the `Date.now()`-based id is a parameter, `freshId`.
- Auth.AuthProvider.constructor: `MOCK_USERS` is one module-level object (lib/auth-provider.tsx:32), shared by every provider and kept across remounts, so registered accounts outlive a provider. The model gives each provider its own table, and the constructor starts it from `InitialAccounts()`.
- The in-flight flags (`isSubmitting`) and the details dialogs are not modelled. Neither is any JSX rendering. They change no data.
- The other files of the repository are not part of this model. These are the data-service wrappers, the table-creation scripts, the navigation and landing components, the layouts and the type-only files. They are I/O or presentation.

## Findings

| source | as written | input that shows it | evidently intended | confidence | as-written member | corrected member |
|---|---|---|---|---|---|---|
| app/dashboard/parents/page.tsx:418 | typing in the search box sets only `searchQuery`; `currentPage` keeps its value, while `totalPages` shrinks with the matches (lines 171-174), and the pager hides when one page is left (line 580) | seven parents, one of them named "Ann"; go to page 2, then type "ann": one parent matches, page 2 of a one-page list is empty, and no pager is shown to go back | a query change returns to page 1 | medium, not executed | Parents.StaleCurrentPage | Parents.TypeQueryShowsFirstPage |
