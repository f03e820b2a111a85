/**
 * The parents list page (app/dashboard/parents/page.tsx): per-parent attendance counts, the search
 * filter, six-per-page pagination, the attendance-rate colour and the new-parent form.
 */
module Parents {
  import opened Common
  import opened Text
  import opened Lists
  import opened Forms

  const ItemsPerPage: nat := 6

  /** A parent row as the store returns it: the columns any logic of the page reads. */
  datatype ParentRow = ParentRow(
    id: string, name: string, email: string, phone: string,
    address: string, childrenInfo: string, notes: string)

  /** One attendance entry of a parent, carrying its session's title and date. */
  datatype AttendanceEntry = AttendanceEntry(sessionId: string, sessionTitle: string, date: string, attended: bool)

  datatype AttendanceCount = AttendanceCount(total: nat, attended: nat)

  /** A parent as the page holds it: the stored row plus its attendance and counts. */
  datatype Parent = Parent(row: ParentRow, attendance: seq<AttendanceEntry>, attendanceCount: AttendanceCount)

  // ---- Attendance counts ----

  predicate Attended(e: AttendanceEntry)
  {
    e.attended
  }

  function AttendedEntries(attendance: seq<AttendanceEntry>): seq<AttendanceEntry>
  {
    Filter(attendance, Attended)
  }

  lemma AttendedPositions(attendance: seq<AttendanceEntry>)
    ensures |AttendedEntries(attendance)| == |set i | 0 <= i < |attendance| && attendance[i].attended|
  {
    var p := Attended;
    FilterCount(attendance, p);
    assert Positions(attendance, p) == set i | 0 <= i < |attendance| && attendance[i].attended;
  }

  /**
   * `{ total: attendance.length, attended: attendance.filter(a => a.attended).length }`: the number
   * of entries, and the number of positions whose entry is marked attended.
   */
  function CountsOf(attendance: seq<AttendanceEntry>): (c: AttendanceCount)
    ensures c.total == |attendance|
    ensures c.attended == |set i | 0 <= i < |attendance| && attendance[i].attended|
    ensures c.attended <= c.total
  {
    AttendedPositions(attendance);
    AttendanceCount(|attendance|, |AttendedEntries(attendance)|)
  }

  /** The attended count is the total exactly when every entry is attended, and 0 exactly when none is. */
  lemma {:induction false} AttendedCountExtremes(attendance: seq<AttendanceEntry>)
    ensures CountsOf(attendance).attended == CountsOf(attendance).total
            <==> forall i :: 0 <= i < |attendance| ==> attendance[i].attended
    ensures CountsOf(attendance).attended == 0
            <==> forall i :: 0 <= i < |attendance| ==> !attendance[i].attended
  {
    if attendance != [] {
      var rest := attendance[1..];
      AttendedCountExtremes(rest);
      assert AttendedEntries(attendance)
          == (if attendance[0].attended then [attendance[0]] else []) + AttendedEntries(rest);
      assert forall i :: 1 <= i < |attendance| ==> attendance[i] == rest[i - 1];
      assert (forall i :: 0 <= i < |attendance| ==> attendance[i].attended)
          <==> attendance[0].attended && (forall i :: 0 <= i < |rest| ==> rest[i].attended);
      assert (forall i :: 0 <= i < |attendance| ==> !attendance[i].attended)
          <==> !attendance[0].attended && (forall i :: 0 <= i < |rest| ==> !rest[i].attended);
    }
  }

  /** One parent after its attendance query: empty attendance and zero counts when the query failed. */
  function WithAttendance(row: ParentRow, fetched: Fetch<seq<AttendanceEntry>>): (p: Parent)
    ensures p.row == row
    ensures p.attendanceCount == CountsOf(p.attendance)
    ensures fetched.Err? ==> p.attendance == [] && p.attendanceCount == AttendanceCount(0, 0)
    ensures fetched.Ok? ==> p.attendance == fetched.data
  {
    match fetched
    case Err(_) => Parent(row, [], AttendanceCount(0, 0))
    case Ok(attendance) => Parent(row, attendance, CountsOf(attendance))
  }

  /**
   * `fetchParents`: the parents query, then one attendance query per parent (`attendanceOf`).
   * A failed parents query fails the load; a failed attendance query affects only its own parent.
   */
  function LoadParents(response: Fetch<seq<ParentRow>>, attendanceOf: ParentRow -> Fetch<seq<AttendanceEntry>>)
    : (r: Fetch<seq<Parent>>)
    ensures r.Err? <==> response.Err?
    ensures response.Err? ==> r.message == response.message
    ensures response.Ok? ==> |r.data| == |response.data|
    ensures response.Ok? ==> forall i :: 0 <= i < |r.data| ==>
              && r.data[i].row == response.data[i]
              && r.data[i].attendanceCount == CountsOf(r.data[i].attendance)
              && (attendanceOf(response.data[i]).Err? ==> r.data[i].attendance == [])
              && (attendanceOf(response.data[i]).Ok? ==> r.data[i].attendance == attendanceOf(response.data[i]).data)
  {
    match response
    case Err(m) => Err(m)
    case Ok(rows) => Ok(seq(|rows|, i requires 0 <= i < |rows| => WithAttendance(rows[i], attendanceOf(rows[i]))))
  }

  // ---- Search ----

  /**
   * `filterParents`: the empty query matches everyone; otherwise a parent matches exactly when the
   * name, email or children info contains the query ignoring case, or the phone contains it as typed.
   */
  function MatchesSearch(p: Parent, query: string): (b: bool)
    ensures query == "" ==> b
    ensures Contains(ToLower(p.row.name), ToLower(query)) ==> b
    ensures Contains(ToLower(p.row.email), ToLower(query)) ==> b
    ensures Contains(p.row.phone, query) ==> b
    ensures Contains(ToLower(p.row.childrenInfo), ToLower(query)) ==> b
    ensures b ==> || query == ""
                  || Contains(ToLower(p.row.name), ToLower(query))
                  || Contains(ToLower(p.row.email), ToLower(query))
                  || Contains(p.row.phone, query)
                  || Contains(ToLower(p.row.childrenInfo), ToLower(query))
  {
    var q := ToLower(query);
    || query == ""
    || Contains(ToLower(p.row.name), q)
    || (p.row.email != "" && Contains(ToLower(p.row.email), q))
    || (p.row.phone != "" && Contains(p.row.phone, query))
    || (p.row.childrenInfo != "" && Contains(ToLower(p.row.childrenInfo), q))
  }

  /** `parents.filter(filterParents)`: the matching parents, in their original order. */
  function FilterParents(parents: seq<Parent>, query: string): (r: seq<Parent>)
    ensures IsSubsequence(r, parents)
    ensures forall p :: p in r ==> MatchesSearch(p, query)
    ensures forall p :: p in parents && MatchesSearch(p, query) ==> p in r
  {
    var keep := (p: Parent) => MatchesSearch(p, query);
    FilterIsSubsequence(parents, keep);
    Filter(parents, keep)
  }

  /** An empty query shows every parent. */
  lemma EmptyQueryMatchesAll(parents: seq<Parent>)
    ensures FilterParents(parents, "") == parents
  {
    FilterAll(parents, (p: Parent) => MatchesSearch(p, ""));
  }

  /** Address and notes are never searched. */
  lemma SearchIgnoresAddressAndNotes(p: Parent, query: string, address: string, notes: string)
    ensures MatchesSearch(p.(row := p.row.(address := address, notes := notes)), query) == MatchesSearch(p, query)
  {
  }

  /** Away from the phone, the query's letter case does not matter. */
  lemma SearchIgnoresQueryCase(p: Parent, q1: string, q2: string)
    requires ToLower(q1) == ToLower(q2) && p.row.phone == ""
    ensures MatchesSearch(p, q1) == MatchesSearch(p, q2)
  {
    assert q1 == "" <==> q2 == "" by {
      assert |q1| == |ToLower(q1)| == |ToLower(q2)| == |q2|;
    }
  }

  /** The phone is compared as typed: "Ext" finds a phone "Ext 5" and "ext" does not. */
  lemma PhoneSearchIsCaseSensitive()
    ensures var p := Parent(ParentRow("", "", "", "Ext 5", "", "", ""), [], AttendanceCount(0, 0));
            MatchesSearch(p, "Ext") && !MatchesSearch(p, "ext")
  {
    var phone := "Ext 5";
    assert OccursAt(phone, "Ext", 0);
    assert !Contains(phone, "ext") by {
      forall i | 0 <= i <= |phone| - 3 ensures !OccursAt(phone, "ext", i) {
        assert phone[i..i + 3][0] != 'e';
      }
    }
    assert ToLower("") == "";
  }

  // ---- Pagination ----

  /** `Math.ceil(n / itemsPerPage)`. */
  function TotalPages(n: nat): (t: nat)
    ensures t * ItemsPerPage >= n
    ensures n > 0 ==> (t - 1) * ItemsPerPage < n
    ensures n == 0 ==> t == 0
  {
    (n + ItemsPerPage - 1) / ItemsPerPage
  }

  function Min(a: int, b: int): int { if a <= b then a else b }

  /**
   * `items.slice(page * itemsPerPage - itemsPerPage, page * itemsPerPage)`: page p (from 1) holds
   * the items [(p-1)*6, p*6) of the list, so never more than six.
   */
  function PageItems<T>(items: seq<T>, page: int): (r: seq<T>)
    ensures |r| <= ItemsPerPage
    ensures page >= 1 ==> r == items[Min((page - 1) * ItemsPerPage, |items|)..Min(page * ItemsPerPage, |items|)]
  {
    Slice(items, page * ItemsPerPage - ItemsPerPage, page * ItemsPerPage)
  }

  /** Pages 1 to k, one after the other. */
  function Pages<T>(items: seq<T>, k: nat): seq<T>
  {
    if k == 0 then [] else Pages(items, k - 1) + PageItems(items, k)
  }

  lemma {:induction false} PagesPrefix<T>(items: seq<T>, k: nat)
    ensures Pages(items, k) == items[..Min(k * ItemsPerPage, |items|)]
  {
    if k > 0 {
      PagesPrefix(items, k - 1);
      var a := Min((k - 1) * ItemsPerPage, |items|);
      var b := Min(k * ItemsPerPage, |items|);
      assert items[..a] + items[a..b] == items[..b];
    }
  }

  /** Concatenating pages 1 to totalPages gives the whole filtered list. */
  lemma PagesCoverList<T>(items: seq<T>)
    ensures Pages(items, TotalPages(|items|)) == items
  {
    PagesPrefix(items, TotalPages(|items|));
  }

  /** The pager is shown only when there is more than one page. */
  predicate ShowPager(totalPages: nat) { totalPages > 1 }
  predicate PreviousDisabled(page: int) { page == 1 }
  predicate NextDisabled(page: int, totalPages: nat) { page == totalPages }

  /** A page between 1 and the number of pages of the filtered list shows at least one parent. */
  lemma InRangePageShowsParents(parents: seq<Parent>, query: string, page: int)
    requires 1 <= page <= TotalPages(|FilterParents(parents, query)|)
    ensures Shown(ListView(parents, query, page)) != []
  {
    var n := |FilterParents(parents, query)|;
    var t := TotalPages(n);
    assert (page - 1) * ItemsPerPage <= (t - 1) * ItemsPerPage;
  }

  // ---- Attendance-rate colour ----

  const RateGreen := "text-green-600 bg-green-100"
  const RateAmber := "text-amber-600 bg-amber-100"
  const RateRed := "text-red-600 bg-red-100"

  /**
   * `getAttendanceRateColor`, with the thresholds on (attended / total) * 100 cross-multiplied: no
   * colour without sessions, green for full attendance, red for none.
   */
  function RateColor(c: AttendanceCount): (r: string)
    ensures r == "" <==> c.total == 0
    ensures r in {"", RateGreen, RateAmber, RateRed}
    ensures c.total > 0 && c.attended == c.total ==> r == RateGreen
    ensures c.total > 0 && c.attended == 0 ==> r == RateRed
  {
    if c.total == 0 then ""
    else if c.attended * 100 >= 80 * c.total then RateGreen
    else if c.attended * 100 >= 50 * c.total then RateAmber
    else RateRed
  }

  /** The source's rate `(attended / total) * 100`, computed exactly. */
  function Rate(c: AttendanceCount): real
    requires c.total > 0
  {
    (c.attended as real / c.total as real) * 100.0
  }

  lemma ThresholdByCrossMultiplying(a: nat, t: nat, pct: nat)
    requires t > 0
    ensures (a as real / t as real) * 100.0 >= pct as real <==> a * 100 >= pct * t
  {
    var r := a as real / t as real;
    assert r * t as real == a as real;
    assert (a as real / t as real) * 100.0 * t as real == (a * 100) as real;
  }

  /** The colour follows the source's thresholds on the rate: 80% or more green, 50% or more amber, else red. */
  lemma RateColorThresholds(c: AttendanceCount)
    ensures RateColor(c) == "" <==> c.total == 0
    ensures c.total > 0 ==> (RateColor(c) == RateGreen <==> Rate(c) >= 80.0)
    ensures c.total > 0 ==> (RateColor(c) == RateAmber <==> 50.0 <= Rate(c) < 80.0)
    ensures c.total > 0 ==> (RateColor(c) == RateRed <==> Rate(c) < 50.0)
  {
    if c.total > 0 {
      ThresholdByCrossMultiplying(c.attended, c.total, 80);
      ThresholdByCrossMultiplying(c.attended, c.total, 50);
    }
  }

  // ---- The search box and the current page ----

  /** What the grid shows: the parents, the query and the current page. */
  datatype ListView = ListView(parents: seq<Parent>, query: string, page: int)

  function Shown(v: ListView): seq<Parent>
  {
    PageItems(FilterParents(v.parents, v.query), v.page)
  }

  /** Matching parents exist, the grid is empty, and the pager that could lead back is hidden. */
  predicate Stranded(v: ListView)
  {
    var filtered := FilterParents(v.parents, v.query);
    && |filtered| > 0
    && Shown(v) == []
    && !ShowPager(TotalPages(|filtered|))
  }

  /** Typing in the search box as the page does it: `setSearchQuery` alone, the page number stays. */
  function TypeQueryAsWritten(v: ListView, query: string): ListView
  {
    v.(query := query)
  }

  /**
   * On the second page of seven or more matches, a query that leaves between one and six matches
   * shows an empty grid and no pager: for instance seven parents of whom one is named "Ann", page 2,
   * then typing "ann".
   */
  lemma StaleCurrentPage(v: ListView, query: string)
    requires v.page == 2 && |FilterParents(v.parents, v.query)| > ItemsPerPage
    requires 0 < |FilterParents(v.parents, query)| <= ItemsPerPage
    ensures 2 <= TotalPages(|FilterParents(v.parents, v.query)|)
    ensures Stranded(TypeQueryAsWritten(v, query))
  {
  }

  /** Typing in the search box with the page reset to the first. */
  function TypeQuery(v: ListView, query: string): (r: ListView)
    ensures r.parents == v.parents && r.query == query && r.page == 1
  {
    v.(query := query, page := 1)
  }

  /** After a query change the grid shows the first matches, up to six, so it is never stranded. */
  lemma TypeQueryShowsFirstPage(v: ListView, query: string)
    ensures var filtered := FilterParents(v.parents, query);
            Shown(TypeQuery(v, query)) == filtered[..Min(ItemsPerPage, |filtered|)]
    ensures !Stranded(TypeQuery(v, query))
  {
    assert PageItems(FilterParents(v.parents, query), 1) == FilterParents(v.parents, query)[..Min(ItemsPerPage, |FilterParents(v.parents, query)|)];
  }

  // ---- The page state ----

  /** The six empty fields of a new parent. */
  const EmptyParentForm: Form := BlankForm({"name", "email", "phone", "address", "childrenInfo", "notes"})

  class ParentsPage {
    var parents: seq<Parent>
    var loading: bool
    var error: Option<string>
    var newParent: Form
    var isDialogOpen: bool
    var searchQuery: string
    var currentPage: int

    constructor ()
      ensures parents == [] && loading && error == None
      ensures newParent == EmptyParentForm && !isDialogOpen
      ensures searchQuery == "" && currentPage == 1
    {
      parents := [];
      loading := true;
      error := None;
      newParent := EmptyParentForm;
      isDialogOpen := false;
      searchQuery := "";
      currentPage := 1;
    }

    function FilteredParents(): seq<Parent>
      reads this
    {
      FilterParents(parents, searchQuery)
    }

    function CurrentParents(): seq<Parent>
      reads this
    {
      PageItems(FilteredParents(), currentPage)
    }

    /** `totalPages` of the filtered list. */
    function PageCount(): nat
      reads this
    {
      TotalPages(|FilteredParents()|)
    }

    /** The current page is one the pager offers, so the grid shows at least one parent. */
    predicate PageInRange()
      reads this
      ensures PageInRange() ==> CurrentParents() != []
    {
      if 1 <= currentPage <= PageCount() then
        InRangePageShowsParents(parents, searchQuery, currentPage);
        true
      else false
    }

    /** `fetchParents`: on success the list is replaced; on failure the error is set and the old list stays. */
    method FetchParents(response: Fetch<seq<ParentRow>>, attendanceOf: ParentRow -> Fetch<seq<AttendanceEntry>>)
      modifies this`parents, this`loading, this`error
      ensures !loading
      ensures LoadParents(response, attendanceOf).Ok? ==>
                parents == LoadParents(response, attendanceOf).data && error == None
      ensures response.Err? ==>
                parents == old(parents) && error == Some(ErrorText(response.message, "Failed to fetch parents"))
    {
      loading := true;
      error := None;
      var loaded := LoadParents(response, attendanceOf);
      match loaded {
        case Ok(ps) => parents := ps;
        case Err(m) => error := Some(ErrorText(m, "Failed to fetch parents"));
      }
      loading := false;
    }

    /** `handleInputChange`: only the named field takes the typed value. */
    method HandleInputChange(name: string, value: string)
      modifies this`newParent
      ensures newParent == SetField(old(newParent), name, value)
    {
      newParent := SetField(newParent, name, value);
    }

    /**
     * `handleSubmit` once the insert has answered: success empties all six fields, closes the dialog
     * and asks for a reload; failure leaves the form as it was.
     */
    method HandleSubmit(insertError: Option<string>) returns (reload: bool)
      modifies this`newParent, this`isDialogOpen
      ensures reload <==> insertError.None?
      ensures insertError.None? ==> newParent == EmptyParentForm && !isDialogOpen
      ensures insertError.Some? ==> newParent == old(newParent) && isDialogOpen == old(isDialogOpen)
    {
      reload := insertError.None?;
      if reload {
        newParent := EmptyParentForm;
        isDialogOpen := false;
      }
    }

    /** `handlePageChange`. */
    method HandlePageChange(page: int)
      modifies this`currentPage
      ensures currentPage == page
    {
      currentPage := page;
    }

    /**
     * The Previous button, drawn only while the pager shows: disabled on page 1, otherwise one page
     * back. From a page in range it stays in range.
     */
    method PreviousPage()
      requires ShowPager(PageCount())
      modifies this`currentPage
      ensures PreviousDisabled(old(currentPage)) ==> currentPage == old(currentPage)
      ensures !PreviousDisabled(old(currentPage)) ==> currentPage == old(currentPage) - 1
      ensures old(PageInRange()) ==> PageInRange()
    {
      if !PreviousDisabled(currentPage) {
        HandlePageChange(currentPage - 1);
      }
    }

    /**
     * The Next button, drawn only while the pager shows: disabled on the last page, otherwise one
     * page on. From a page in range it stays in range.
     */
    method NextPage()
      requires ShowPager(PageCount())
      modifies this`currentPage
      ensures NextDisabled(old(currentPage), PageCount()) ==> currentPage == old(currentPage)
      ensures !NextDisabled(old(currentPage), PageCount()) ==> currentPage == old(currentPage) + 1
      ensures old(PageInRange()) ==> PageInRange()
    {
      if !NextDisabled(currentPage, PageCount()) {
        HandlePageChange(currentPage + 1);
      }
    }

    /** A numbered button: the pager, when shown, draws one for each page from 1 to `totalPages`. */
    method GoToPage(page: int)
      requires ShowPager(PageCount()) && 1 <= page <= PageCount()
      modifies this`currentPage
      ensures currentPage == page && PageInRange()
    {
      HandlePageChange(page);
    }

    /** A change of the search box (typing, or one of the two clear buttons), with the page reset. */
    method SetSearchQuery(query: string)
      modifies this`searchQuery, this`currentPage
      ensures ListView(parents, searchQuery, currentPage) == TypeQuery(ListView(parents, old(searchQuery), old(currentPage)), query)
    {
      searchQuery := query;
      currentPage := 1;
    }
  }
}
