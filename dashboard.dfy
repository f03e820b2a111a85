/**
 * The dashboard overview (app/dashboard/page.tsx): entity counts, the issue-category tally for the
 * pie chart, sessions per calendar month and the next five upcoming sessions.
 */
module Dashboard {
  import opened Common
  import opened Lists
  import opened Display

  datatype Issue = Issue(id: string, title: string, category: string)

  datatype Session = Session(id: string, title: string, programId: string, programName: string, date: string, location: string)

  // ---- The category tally ----

  /** A dictionary that keeps its keys in insertion order, as `Object.entries` lists them. */
  type Tally = seq<(string, nat)>

  /** `issue.category || "Uncategorized"`: the issue's own category when it has one, never "". */
  function CategoryOf(issue: Issue): (r: string)
    ensures r != ""
    ensures issue.category != "" ==> r == issue.category
  {
    CategoryLabel(issue.category)
  }

  /** `acc[category] = (acc[category] || 0) + 1`. */
  function Bump(t: Tally, c: string): Tally
  {
    if t == [] then [(c, 1)]
    else if t[0].0 == c then [(c, t[0].1 + 1)] + t[1..]
    else [t[0]] + Bump(t[1..], c)
  }

  /**
   * The tally after reducing over the issues in order: a dictionary (no name twice) whose counts
   * are all at least 1 and add up to the number of issues.
   */
  function TallyOf(issues: seq<Issue>): (r: Tally)
    ensures DistinctNames(r) && Positive(r)
    ensures Sum(r) == |issues|
  {
    if issues == [] then []
    else
      var t := TallyOf(issues[..|issues| - 1]);
      var c := CategoryOf(issues[|issues| - 1]);
      BumpFacts(t, c);
      Bump(t, c)
  }

  /** The `reduce` that fills the accumulator dictionary, one issue at a time. */
  method TallyCategories(issues: seq<Issue>) returns (acc: Tally)
    ensures acc == TallyOf(issues)
  {
    acc := [];
    for i := 0 to |issues|
      invariant acc == TallyOf(issues[..i])
    {
      assert issues[..i + 1][..i] == issues[..i];
      acc := Bump(acc, CategoryOf(issues[i]));
    }
    assert issues[..|issues|] == issues;
  }

  /** `acc[name]`, or 0 when the tally has no such key. */
  function ValueOf(t: Tally, name: string): nat
  {
    if t == [] then 0 else if t[0].0 == name then t[0].1 else ValueOf(t[1..], name)
  }

  function Sum(t: Tally): nat
  {
    if t == [] then 0 else t[0].1 + Sum(t[1..])
  }

  /** Whether the tally has an entry named `name`. */
  predicate HasName(t: Tally, name: string)
  {
    t != [] && (t[0].0 == name || HasName(t[1..], name))
  }

  /** No two entries share a name, as in a dictionary. */
  predicate DistinctNames(t: Tally)
  {
    t == [] || (!HasName(t[1..], t[0].0) && DistinctNames(t[1..]))
  }

  predicate Positive(t: Tally)
  {
    t == [] || (t[0].1 >= 1 && Positive(t[1..]))
  }

  /** The number of issues whose shown category is `c`. */
  function CountCategory(issues: seq<Issue>, c: string): nat
  {
    if issues == [] then 0
    else CountCategory(issues[..|issues| - 1], c) + (if CategoryOf(issues[|issues| - 1]) == c then 1 else 0)
  }

  lemma {:induction false} BumpFacts(t: Tally, c: string)
    requires DistinctNames(t) && Positive(t)
    ensures DistinctNames(Bump(t, c)) && Positive(Bump(t, c))
    ensures Sum(Bump(t, c)) == Sum(t) + 1
    ensures forall k :: ValueOf(Bump(t, c), k) == ValueOf(t, k) + (if k == c then 1 else 0)
    ensures forall k :: HasName(Bump(t, c), k) <==> HasName(t, k) || k == c
  {
    if t != [] {
      var b := Bump(t, c);
      if t[0].0 == c {
        assert b[1..] == t[1..];
      } else {
        BumpFacts(t[1..], c);
        assert b[1..] == Bump(t[1..], c);
      }
    }
  }

  /**
   * The tally has one entry per distinct shown category, each holding the number of issues in that
   * category (so at least 1), and its values add up to the number of issues.
   */
  lemma {:induction false} TallyFacts(issues: seq<Issue>)
    ensures DistinctNames(TallyOf(issues)) && Positive(TallyOf(issues))
    ensures Sum(TallyOf(issues)) == |issues|
    ensures forall c :: ValueOf(TallyOf(issues), c) == CountCategory(issues, c)
    ensures forall c :: HasName(TallyOf(issues), c) <==> CountCategory(issues, c) > 0
  {
    if issues != [] {
      var init := issues[..|issues| - 1];
      TallyFacts(init);
      BumpFacts(TallyOf(init), CategoryOf(issues[|issues| - 1]));
    } else {
      forall c ensures !HasName(TallyOf(issues), c) { }
    }
  }

  /** No tally entry is named by an empty category: an empty category counts as "Uncategorized". */
  lemma {:induction false} NoEmptyCategory(issues: seq<Issue>)
    ensures CountCategory(issues, "") == 0
    ensures !HasName(TallyOf(issues), "")
  {
    if issues != [] {
      NoEmptyCategory(issues[..|issues| - 1]);
    }
    TallyFacts(issues);
  }

  // ---- Sessions by month ----

  const Months: seq<string> := ["Jan", "Feb", "Mar", "Apr", "May", "Jun", "Jul", "Aug", "Sep", "Oct", "Nov", "Dec"]

  /** Whether a session falls in `month`; `monthOf` stands for `toLocaleString(..., { month: "short" })`. */
  predicate InMonth(s: Session, month: string, monthOf: string -> string)
  {
    s.date != "" && monthOf(s.date) == month
  }

  function MonthCount(sessions: seq<Session>, month: string, monthOf: string -> string): nat
  {
    |Filter(sessions, (s: Session) => InMonth(s, month, monthOf))|
  }

  /** `sessionsByMonthData`: one (name, count) pair per entry of `months`. */
  function SessionsByMonth(sessions: Option<seq<Session>>, monthOf: string -> string): (r: seq<(string, nat)>)
    ensures |r| == 12
    ensures forall i :: 0 <= i < 12 ==> r[i].0 == Months[i]
  {
    seq(12, i requires 0 <= i < 12 => (Months[i], MonthCount(OrEmpty(sessions), Months[i], monthOf)))
  }

  function SumCounts(sessions: seq<Session>, months: seq<string>, monthOf: string -> string): nat
  {
    if months == [] then 0 else MonthCount(sessions, months[0], monthOf) + SumCounts(sessions, months[1..], monthOf)
  }

  /** How many of `months` a session is counted in. */
  function Hits(s: Session, months: seq<string>, monthOf: string -> string): nat
  {
    if months == [] then 0 else (if InMonth(s, months[0], monthOf) then 1 else 0) + Hits(s, months[1..], monthOf)
  }

  predicate Distinct(months: seq<string>)
  {
    forall i, j :: 0 <= i < j < |months| ==> months[i] != months[j]
  }

  lemma {:induction false} HitsAtMostOne(s: Session, months: seq<string>, monthOf: string -> string)
    requires Distinct(months)
    ensures Hits(s, months, monthOf) <= 1
    ensures s.date == "" ==> Hits(s, months, monthOf) == 0
  {
    if months != [] {
      HitsAtMostOne(s, months[1..], monthOf);
      if InMonth(s, months[0], monthOf) {
        HitsNone(s, months[1..], monthOf);
      }
    }
  }

  lemma {:induction false} HitsNone(s: Session, months: seq<string>, monthOf: string -> string)
    requires s.date == "" || monthOf(s.date) !in months
    ensures Hits(s, months, monthOf) == 0
  {
    if months != [] {
      HitsNone(s, months[1..], monthOf);
    }
  }

  lemma {:induction false} SumCountsCons(s: Session, rest: seq<Session>, months: seq<string>, monthOf: string -> string)
    ensures SumCounts([s] + rest, months, monthOf) == Hits(s, months, monthOf) + SumCounts(rest, months, monthOf)
  {
    if months != [] {
      assert ([s] + rest)[1..] == rest;
      SumCountsCons(s, rest, months[1..], monthOf);
    }
  }

  lemma {:induction false} SumCountsBound(sessions: seq<Session>, months: seq<string>, monthOf: string -> string)
    requires Distinct(months)
    ensures SumCounts(sessions, months, monthOf) <= |sessions|
    ensures (forall i :: 0 <= i < |sessions| ==> sessions[i].date == "") ==> SumCounts(sessions, months, monthOf) == 0
  {
    if sessions != [] {
      assert sessions == [sessions[0]] + sessions[1..];
      SumCountsCons(sessions[0], sessions[1..], months, monthOf);
      HitsAtMostOne(sessions[0], months, monthOf);
      SumCountsBound(sessions[1..], months, monthOf);
    } else {
      SumCountsEmpty(months, monthOf);
    }
  }

  lemma {:induction false} SumCountsEmpty(months: seq<string>, monthOf: string -> string)
    ensures SumCounts([], months, monthOf) == 0
  {
    if months != [] {
      SumCountsEmpty(months[1..], monthOf);
    }
  }

  function SumBuckets(buckets: seq<(string, nat)>): nat
  {
    if buckets == [] then 0 else buckets[0].1 + SumBuckets(buckets[1..])
  }

  lemma {:induction false} SumBucketsIsSumCounts(sessions: seq<Session>, k: nat, monthOf: string -> string)
    requires k <= 12
    ensures SumBuckets(SessionsByMonth(Some(sessions), monthOf)[k..]) == SumCounts(sessions, Months[k..], monthOf)
    decreases 12 - k
  {
    if k < 12 {
      var b := SessionsByMonth(Some(sessions), monthOf);
      assert b[k..][1..] == b[k + 1..];
      assert Months[k..][1..] == Months[k + 1..];
      SumBucketsIsSumCounts(sessions, k + 1, monthOf);
    }
  }

  /**
   * Each session is counted in at most one month and an undated one in none, so the twelve
   * buckets add up to at most the number of sessions.
   */
  lemma MonthBucketsBound(sessions: seq<Session>, monthOf: string -> string)
    ensures SumBuckets(SessionsByMonth(Some(sessions), monthOf)) <= |sessions|
    ensures (forall i :: 0 <= i < |sessions| ==> sessions[i].date == "")
            ==> SumBuckets(SessionsByMonth(Some(sessions), monthOf)) == 0
  {
    SumBucketsIsSumCounts(sessions, 0, monthOf);
    MonthsDistinct();
    SumCountsBound(sessions, Months, monthOf);
  }

  lemma MonthsDistinct()
    ensures Distinct(Months)
  {
  }

  /** Adding an undated session changes no month's count. */
  lemma UndatedSessionInNoMonth(sessions: seq<Session>, s: Session, monthOf: string -> string)
    requires s.date == ""
    ensures SessionsByMonth(Some(sessions + [s]), monthOf) == SessionsByMonth(Some(sessions), monthOf)
  {
    forall i | 0 <= i < 12
      ensures MonthCount(sessions + [s], Months[i], monthOf) == MonthCount(sessions, Months[i], monthOf)
    {
      var p := (x: Session) => InMonth(x, Months[i], monthOf);
      FilterAppend(sessions, [s], p);
      assert Filter([s], p) == [];
    }
  }

  // ---- Upcoming sessions ----

  /** Whether a session is dated strictly after now; `isAfterNow` stands for `new Date(date) > now`. */
  predicate IsUpcoming(s: Session, isAfterNow: string -> bool)
  {
    s.date != "" && isAfterNow(s.date)
  }

  /**
   * `sessions?.filter(upcoming).slice(0, 5) || []`: at most five sessions, all dated after now, in
   * their (date-ascending) query order.
   */
  function Upcoming(sessions: Option<seq<Session>>, isAfterNow: string -> bool): (r: seq<Session>)
    ensures |r| <= 5
    ensures forall s :: s in r ==> IsUpcoming(s, isAfterNow)
    ensures IsSubsequence(r, OrEmpty(sessions))
  {
    var all := OrEmpty(sessions);
    var eligible := Filter(all, (s: Session) => IsUpcoming(s, isAfterNow));
    var r := Slice(eligible, 0, 5);
    FilterIsSubsequence(all, (s: Session) => IsUpcoming(s, isAfterNow));
    PrefixSubsequence(eligible, |r|, all);
    assert forall s :: s in r ==> s in eligible;
    r
  }

  /** The upcoming list is the first five upcoming sessions, or all of them when there are fewer. */
  lemma UpcomingFacts(sessions: seq<Session>, isAfterNow: string -> bool)
    ensures var eligible := Filter(sessions, (s: Session) => IsUpcoming(s, isAfterNow));
            Upcoming(Some(sessions), isAfterNow) == eligible[..if |eligible| < 5 then |eligible| else 5]
  {
  }

  lemma {:induction false} PrefixSubsequence<T>(a: seq<T>, n: nat, b: seq<T>)
    requires n <= |a| && IsSubsequence(a, b)
    ensures IsSubsequence(a[..n], b)
    decreases |a| - n
  {
    if n < |a| {
      PrefixSubsequence(a, n + 1, b);
      DropLastSubsequence(a[..n + 1], b);
      assert a[..n + 1][..n] == a[..n];
    } else {
      assert a[..n] == a;
    }
  }

  lemma {:induction false} DropLastSubsequence<T>(a: seq<T>, b: seq<T>)
    requires a != [] && IsSubsequence(a, b)
    ensures IsSubsequence(a[..|a| - 1], b)
    decreases |b|
  {
    if |a| == 1 {
      assert a[..0] == [];
    } else if a[0] == b[0] {
      DropLastSubsequence(a[1..], b[1..]);
      assert a[..|a| - 1][1..] == a[1..][..|a[1..]| - 1];
    } else {
      DropLastSubsequence(a, b[1..]);
    }
  }

  // ---- The dashboard as loaded ----

  datatype View = View(
    issueCount: nat, programCount: nat, sessionCount: nat, parentCount: nat,
    issueData: Tally, sessionsByMonth: seq<(string, nat)>, upcomingSessions: seq<Session>)

  const InitialView := View(0, 0, 0, 0, [], [], [])

  /**
   * `fetchData`: the five queries in order; the first failure leaves the whole view as it was
   * (counts 0, charts and list empty). A query that answers no list reads as an empty one.
   */
  function Load<P, Q, A>(
    issues: Fetch<Option<seq<Issue>>>, programs: Fetch<Option<seq<P>>>,
    sessions: Fetch<Option<seq<Session>>>, parents: Fetch<Option<seq<Q>>>,
    attendance: Fetch<Option<seq<A>>>,
    monthOf: string -> string, isAfterNow: string -> bool): (v: View)
    ensures (issues.Err? || programs.Err? || sessions.Err? || parents.Err? || attendance.Err?) ==> v == InitialView
    ensures issues.Ok? && programs.Ok? && sessions.Ok? && parents.Ok? && attendance.Ok? ==>
              && v.issueCount == CountOrZero(issues.data)
              && v.programCount == CountOrZero(programs.data)
              && v.sessionCount == CountOrZero(sessions.data)
              && v.parentCount == CountOrZero(parents.data)
              && v.issueData == TallyOf(OrEmpty(issues.data))
              && v.sessionsByMonth == SessionsByMonth(sessions.data, monthOf)
              && v.upcomingSessions == Upcoming(sessions.data, isAfterNow)
              && Sum(v.issueData) == v.issueCount
              && |v.sessionsByMonth| == 12
              && |v.upcomingSessions| <= 5
  {
    if issues.Err? || programs.Err? || sessions.Err? || parents.Err? || attendance.Err? then InitialView
    else
      var list := OrEmpty(issues.data);
      View(
        CountOrZero(issues.data), CountOrZero(programs.data), CountOrZero(sessions.data), CountOrZero(parents.data),
        TallyOf(list), SessionsByMonth(sessions.data, monthOf), Upcoming(sessions.data, isAfterNow))
  }
}
