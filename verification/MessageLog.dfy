/** The message delivery history: latest request wins, and pages of one pinned snapshot are appended. */
module MessageLog {
  import opened Collections

  type Filters = string
  type Moment = string

  datatype Row = Row(id: string, text: string)

  /** Where the next page starts; the service binds it to the filters and the snapshot. */
  datatype Cursor = Cursor(filters: Filters, moment: Moment, offset: nat)

  datatype Read = Read(filters: Filters, moment: Moment, rows: seq<Row>, next: Option<Cursor>)

  /** What one call of `load` closed over; `id` stands for its abort controller. */
  datatype Request = Request(id: nat, filters: Filters, cursor: Option<Cursor>, expected: Option<Moment>)

  /** How a request ends: a parsed page, any other outcome, or a page parsed just after its own timeout. */
  datatype Outcome = Page(page: Read) | Failure | PageAfterTimeout

  datatype View = View(
    applied: Filters, snapshot: Option<Moment>, data: Option<Read>, busy: bool, failed: bool,
    current: Option<Request>, issued: nat)

  const PAGE: nat := 25

  // ---------------------------------------------------------------- the client

  function Started(v: View, filters: Filters, cursor: Option<Cursor>): View {
    var request := Request(v.issued, filters, cursor, if cursor.Some? then v.snapshot else None);
    var pinned := if cursor.Some? then v else v.(applied := filters, snapshot := None);
    pinned.(current := Some(request), busy := true, failed := false, issued := v.issued + 1)
  }

  function Verified(request: Request, page: Read): bool {
    page.filters == request.filters && (request.cursor.Some? ==> Some(page.moment) == request.expected)
  }

  function Combined(previous: Option<Read>, request: Request, page: Read): Read {
    if request.cursor.Some? && previous.Some? && previous.value.moment == page.moment then
      page.(rows := previous.value.rows
                    + Filter(page.rows, (row: Row) => !exists p :: p in previous.value.rows && p.id == row.id))
    else page
  }

  /** The end of one `load`; only the latest one may touch what is shown. */
  function Ended(v: View, request: Request, outcome: Outcome): View {
    if v.current != Some(request) then v
    else
      var idle := v.(current := None, busy := false);
      match outcome
      case PageAfterTimeout => idle
      case Failure => idle.(data := None, snapshot := None, failed := true)
      case Page(page) =>
        if !Verified(request, page) then idle.(data := None, snapshot := None, failed := true)
        else idle.(applied := request.filters, snapshot := Some(page.moment), data := Some(Combined(v.data, request, page)))
  }

  /** The component: its refs and state, and `load` up to and after its `await`s. */
  class CommunicationLog {
    var applied: Filters
    var snapshot: Option<Moment>
    var data: Option<Read>
    var busy: bool
    var failed: bool
    var current: Option<Request>
    var issued: nat

    constructor ()
      ensures State() == Opened()
    {
      applied, snapshot, data, busy, failed, current, issued := "", None, None, true, false, None, 0;
    }

    function State(): View
      reads this
    {
      View(applied, snapshot, data, busy, failed, current, issued)
    }

    method Load(filters: Filters, cursor: Option<Cursor>) returns (request: Request)
      modifies this
      ensures State() == Started(old(State()), filters, cursor) && State().current == Some(request)
    {
      request := Request(issued, filters, cursor, if cursor.Some? then snapshot else None);
      current, issued, busy, failed := Some(request), issued + 1, true, false;
      if cursor.None? {
        applied, snapshot := filters, None;
      }
    }

    method Finish(request: Request, outcome: Outcome)
      modifies this
      ensures State() == Ended(old(State()), request, outcome)
    {
      if outcome.Page? && Verified(request, outcome.page) {
        if current != Some(request) {
          return;
        }
        applied, snapshot := request.filters, Some(outcome.page.moment);
        data := Some(Combined(data, request, outcome.page));
      } else if !outcome.PageAfterTimeout? && current == Some(request) {
        data, snapshot, failed := None, None, true;
      }
      if current == Some(request) {
        current, busy := None, false;
      }
    }
  }

  function Opened(): View {
    View("", None, None, true, false, None, 0)
  }

  // ---------------------------------------------------------------- the service

  /** The fixed list of a snapshot, for each filter. */
  type Log = (Filters, Moment) -> seq<Row>

  ghost predicate DistinctRows(rows: seq<Row>) {
    forall i, j :: 0 <= i < j < |rows| ==> rows[i].id != rows[j].id
  }

  ghost predicate FixedLists(log: Log) {
    forall f, t :: DistinctRows(log(f, t))
  }

  function NextAt(log: Log, f: Filters, t: Moment, shown: nat): Option<Cursor> {
    if shown < |log(f, t)| then Some(Cursor(f, t, shown)) else None
  }

  function PageAt(log: Log, f: Filters, t: Moment, offset: nat): Read {
    var rows := log(f, t);
    var start := if offset < |rows| then offset else |rows|;
    var stop := if start + PAGE < |rows| then start + PAGE else |rows|;
    Read(f, t, rows[start..stop], NextAt(log, f, t, stop))
  }

  /** A page the service gives: of a snapshot of its choice, or the one the cursor names, if it fits the filters. */
  ghost predicate Served(log: Log, request: Request, page: Read) {
    match request.cursor
    case None => exists t :: page == PageAt(log, request.filters, t, 0)
    case Some(c) => c.filters == request.filters && page == PageAt(log, c.filters, c.moment, c.offset)
  }

  // ---------------------------------------------------------------- the invariant

  /** `d` shows the first rows of the list, each once, and its cursor points just behind them. */
  ghost predicate ShowsPrefix(log: Log, d: Read, f: Filters, t: Moment) {
    && d.filters == f && d.moment == t
    && d.rows <= log(f, t) && DistinctRows(d.rows)
    && d.next == NextAt(log, f, t, |d.rows|)
  }

  ghost predicate Faithful(log: Log, v: View) {
    v.data.Some? ==> v.snapshot == Some(v.data.value.moment) && ShowsPrefix(log, v.data.value, v.applied, v.data.value.moment)
  }

  ghost predicate Inv(log: Log, v: View) {
    && (v.current.None? && !v.busy ==> Faithful(log, v))
    && (v.current.Some? ==>
          var r := v.current.value;
          && v.busy && r.id < v.issued && r.filters == v.applied
          && (r.cursor.None? ==> v.snapshot.None?)
          && (r.cursor.Some? ==> && v.data.Some? && Faithful(log, v) && r.expected == v.snapshot
                                 && r.cursor == v.data.value.next))
  }

  datatype Event =
    | Fresh(filters: Filters)
    | Older
    | End(request: Request, outcome: Outcome)

  /** "Load older messages" is there only when idle with a cursor; pages come from the service. */
  ghost predicate Possible(log: Log, v: View, e: Event) {
    match e
    case Fresh(_) => true
    case Older => !v.busy && v.current.None? && v.data.Some? && v.data.value.next.Some?
    case End(request, outcome) => outcome.Page? ==> Served(log, request, outcome.page)
  }

  function Step(v: View, e: Event): View {
    match e
    case Fresh(filters) => Started(v, filters, None)
    case Older => if v.data.Some? then Started(v, v.applied, v.data.value.next) else v
    case End(request, outcome) => Ended(v, request, outcome)
  }

  lemma RowsAreNew(log: Log, f: Filters, t: Moment, offset: nat)
    requires FixedLists(log) && offset <= |log(f, t)|
    ensures forall row :: row in PageAt(log, f, t, offset).rows ==>
              !exists p :: p in log(f, t)[..offset] && p.id == row.id
  {
    var rows := log(f, t);
    forall row, p | row in PageAt(log, f, t, offset).rows && p in rows[..offset]
      ensures p.id != row.id
    {
      var i :| 0 <= i < |rows[..offset]| && rows[..offset][i] == p;
      var j :| 0 <= j < |PageAt(log, f, t, offset).rows| && PageAt(log, f, t, offset).rows[j] == row;
      assert rows[i] == p && rows[offset + j] == row;
    }
  }

  lemma PrefixDistinct(log: Log, f: Filters, t: Moment, k: nat)
    requires FixedLists(log) && k <= |log(f, t)|
    ensures DistinctRows(log(f, t)[..k]) && log(f, t)[..k] <= log(f, t)
  {
  }

  function Stop(total: nat, shown: nat): nat {
    if shown + PAGE < total then shown + PAGE else total
  }

  lemma NextPrefix(log: Log, f: Filters, t: Moment, k: nat)
    requires k <= |log(f, t)|
    ensures log(f, t)[..k] + PageAt(log, f, t, k).rows == log(f, t)[..Stop(|log(f, t)|, k)]
    ensures PageAt(log, f, t, k).next == NextAt(log, f, t, Stop(|log(f, t)|, k))
  {
  }

  lemma CombinedRows(d: Read, request: Request, page: Read)
    requires request.cursor.Some? && d.moment == page.moment
    requires forall row :: row in page.rows ==> !exists p :: p in d.rows && p.id == row.id
    ensures Combined(Some(d), request, page) == page.(rows := d.rows + page.rows)
  {
    FilterAll(page.rows, (row: Row) => !exists p :: p in Some(d).value.rows && p.id == row.id);
  }

  /** One older page takes a prefix of k rows to the prefix of k + 25 rows, or of the whole list. */
  lemma OlderExtends(log: Log, d: Read, f: Filters, t: Moment, request: Request)
    requires FixedLists(log) && ShowsPrefix(log, d, f, t) && request.cursor.Some?
    ensures var after := Combined(Some(d), request, PageAt(log, f, t, |d.rows|));
            ShowsPrefix(log, after, f, t) && |after.rows| == Stop(|log(f, t)|, |d.rows|)
  {
    var k := |d.rows|;
    assert d.rows == log(f, t)[..k];
    RowsAreNew(log, f, t, k);
    CombinedRows(d, request, PageAt(log, f, t, k));
    NextPrefix(log, f, t, k);
    PrefixDistinct(log, f, t, Stop(|log(f, t)|, k));
  }

  lemma {:induction false} FilterKeepsRows(rows: seq<Row>, keep: Row -> bool)
    requires DistinctRows(rows)
    ensures DistinctRows(Filter(rows, keep))
  {
    if rows != [] {
      assert forall row :: row in rows[1..] ==> row.id != rows[0].id;
      FilterKeepsRows(rows[1..], keep);
    }
  }

  /** Whatever the next page repeats of the rows already shown, no row is shown twice. */
  lemma CombinedIsDistinct(previous: Read, request: Request, page: Read)
    requires DistinctRows(previous.rows) && DistinctRows(page.rows)
    ensures DistinctRows(Combined(Some(previous), request, page).rows)
  {
    var keep := (row: Row) => !exists p :: p in previous.rows && p.id == row.id;
    var added := Filter(page.rows, keep);
    FilterKeepsRows(page.rows, keep);
    FilterAgrees(page.rows, keep, (row: Row) => !exists p :: p in Some(previous).value.rows && p.id == row.id);
    var all := previous.rows + added;
    forall i, j | 0 <= i < j < |all|
      ensures all[i].id != all[j].id
    {
      if i < |previous.rows| <= j {
        assert all[j] == added[j - |previous.rows|] && added[j - |previous.rows|] in added;
        assert all[i] in previous.rows;
      }
    }
  }

  lemma FreshShows(log: Log, f: Filters, t: Moment)
    requires FixedLists(log)
    ensures ShowsPrefix(log, PageAt(log, f, t, 0), f, t)
  {
    var page := PageAt(log, f, t, 0);
    assert page.rows == log(f, t)[..|page.rows|];
    PrefixDistinct(log, f, t, |page.rows|);
  }

  lemma PageKeeps(log: Log, v: View, request: Request, page: Read)
    requires FixedLists(log) && Inv(log, v) && Served(log, request, page) && v.current == Some(request)
    ensures Inv(log, Ended(v, request, Page(page)))
  {
    if request.cursor.None? {
      var t :| page == PageAt(log, request.filters, t, 0);
      FreshShows(log, request.filters, t);
    } else {
      var d := v.data.value;
      OlderExtends(log, d, v.applied, d.moment, request);
    }
  }

  /** A fresh read whose page was parsed after its own timeout, over data already shown. */
  predicate LeavesStale(v: View, e: Event) {
    && e.End? && e.outcome.PageAfterTimeout? && v.current == Some(e.request)
    && e.request.cursor.None? && v.data.Some?
  }

  /** Every step keeps the invariant, with exactly one exception. */
  lemma StepKeepsIff(log: Log, v: View, e: Event)
    requires FixedLists(log) && Inv(log, v) && Possible(log, v, e)
    ensures Inv(log, Step(v, e)) <==> !LeavesStale(v, e)
  {
    if e.End? && e.outcome.Page? && v.current == Some(e.request) {
      PageKeeps(log, v, e.request, e.outcome.page);
    }
  }

  // ---------------------------------------------------------------- what a load comes to

  /** Idle, and showing without error the first `k` rows of the list for `f` at `t`, with a cursor just behind them. */
  ghost predicate Shows(log: Log, v: View, f: Filters, t: Moment, k: nat) {
    && v.current.None? && !v.busy && !v.failed && v.applied == f && v.snapshot == Some(t)
    && k <= |log(f, t)| && v.data.Some? && v.data.value.filters == f && v.data.value.moment == t
    && v.data.value.rows == log(f, t)[..k]
    && v.data.value.next == if k < |log(f, t)| then Some(Cursor(f, t, k)) else None
  }

  /** Idle, showing nothing, and saying so. */
  predicate Unavailable(v: View) {
    v.current.None? && !v.busy && v.failed && v.data.None? && v.snapshot.None?
  }

  /** `load` with filters shows their first page, of whatever snapshot the service chose. */
  lemma FreshPageIsShown(log: Log, v: View, f: Filters, t: Moment)
    requires FixedLists(log)
    ensures var started := Step(v, Fresh(f));
            && started.current.Some? && started.busy
            && Shows(log, Ended(started, started.current.value, Page(PageAt(log, f, t, 0))), f, t,
                     if |log(f, t)| < PAGE then |log(f, t)| else PAGE)
  {
  }

  /** "Load older messages" shows the next 25 rows of the same list behind those shown, or all that are left. */
  lemma OlderPageIsShown(log: Log, v: View, f: Filters, t: Moment, k: nat)
    requires FixedLists(log) && Shows(log, v, f, t, k) && k < |log(f, t)|
    ensures var started := Step(v, Older);
            && Possible(log, v, Older) && started.current.Some? && started.busy && started.data == v.data
            && Served(log, started.current.value, PageAt(log, f, t, k))
            && Shows(log, Ended(started, started.current.value, Page(PageAt(log, f, t, k))), f, t,
                     if k + PAGE < |log(f, t)| then k + PAGE else |log(f, t)|)
  {
    var d := v.data.value;
    PrefixDistinct(log, f, t, k);
    var started := Step(v, Older);
    OlderExtends(log, d, f, t, started.current.value);
  }

  /** A page for other filters, or of another snapshot than the one shown, is never shown: everything is cleared. */
  lemma OtherPageIsRefused(v: View, e: Event, page: Read)
    requires e.Fresh? || (e.Older? && v.data.Some? && v.data.value.next.Some?)
    requires page.filters != (if e.Fresh? then e.filters else v.applied) || (e.Older? && Some(page.moment) != v.snapshot)
    ensures var started := Step(v, e);
            started.current.Some? && Unavailable(Ended(started, started.current.value, Page(page)))
  {
  }

  lemma FailureIsShown(v: View, e: Event)
    requires e.Fresh? || (e.Older? && v.data.Some? && v.data.value.next.Some?)
    ensures var started := Step(v, e); started.current.Some? && Unavailable(Ended(started, started.current.value, Failure))
  {
  }

  lemma RunCons(v: View, e: Event, es: seq<Event>)
    ensures Run(v, [e] + es) == Run(Step(v, e), es)
  {
    assert ([e] + es)[1..] == es;
  }

  lemma PossibleCons(log: Log, v: View, e: Event, es: seq<Event>)
    requires Possible(log, v, e) && PossibleRun(log, Step(v, e), es)
    ensures PossibleRun(log, v, [e] + es)
  {
    assert ([e] + es)[1..] == es;
  }

  lemma {:induction false} OlderReachesEnd(log: Log, v: View, f: Filters, t: Moment, k: nat) returns (es: seq<Event>)
    requires FixedLists(log) && Shows(log, v, f, t, k)
    ensures PossibleRun(log, v, es) && Shows(log, Run(v, es), f, t, |log(f, t)|)
    decreases |log(f, t)| - k
  {
    if k == |log(f, t)| {
      es := [];
    } else {
      OlderPageIsShown(log, v, f, t, k);
      var v1 := Step(v, Older);
      var end := End(v1.current.value, Page(PageAt(log, f, t, k)));
      hide Shows, Step;
      var rest := OlderReachesEnd(log, Step(v1, end), f, t, if k + PAGE < |log(f, t)| then k + PAGE else |log(f, t)|);
      PossibleCons(log, v1, end, rest);
      PossibleCons(log, v, Older, [end] + rest);
      RunCons(v1, end, rest);
      RunCons(v, Older, [end] + rest);
      es := [Older] + ([end] + rest);
    }
  }

  /** Paging gets everywhere: from any state, some run of fresh and older loads shows the whole list of any filters. */
  lemma WholeListIsReached(log: Log, v: View, f: Filters, t: Moment) returns (es: seq<Event>)
    requires FixedLists(log)
    ensures PossibleRun(log, v, es) && Shows(log, Run(v, es), f, t, |log(f, t)|)
  {
    FreshPageIsShown(log, v, f, t);
    var v1 := Step(v, Fresh(f));
    var end := End(v1.current.value, Page(PageAt(log, f, t, 0)));
    assert Possible(log, v1, end);
    hide Shows, Step;
    var rest := OlderReachesEnd(log, Step(v1, end), f, t, if |log(f, t)| < PAGE then |log(f, t)| else PAGE);
    PossibleCons(log, v1, end, rest);
    PossibleCons(log, v, Fresh(f), [end] + rest);
    RunCons(v1, end, rest);
    RunCons(v, Fresh(f), [end] + rest);
    es := [Fresh(f)] + ([end] + rest);
  }

  /** The end of a request that is no longer the latest changes nothing at all. */
  lemma SupersededChangesNothing(v: View, filters: Filters, cursor: Option<Cursor>, request: Request, outcome: Outcome)
    requires request.id < v.issued
    ensures Ended(Started(v, filters, cursor), request, outcome) == Started(v, filters, cursor)
  {
  }

  function Run(v: View, es: seq<Event>): View
    decreases |es|
  {
    if es == [] then v else Run(Step(v, es[0]), es[1..])
  }

  ghost predicate PossibleRun(log: Log, v: View, es: seq<Event>)
    decreases |es|
  {
    es == [] || (Possible(log, v, es[0]) && PossibleRun(log, Step(v, es[0]), es[1..]))
  }

  predicate StaleIn(v: View, es: seq<Event>)
    decreases |es|
  {
    es != [] && (LeavesStale(v, es[0]) || StaleIn(Step(v, es[0]), es[1..]))
  }

  /** Whenever the page is idle it shows nothing, or a duplicate-free prefix of the list it is pinned to. */
  ghost predicate PrefixWhenIdle(log: Log, v: View) {
    v.current.None? && !v.busy && v.data.Some? ==>
      v.snapshot.Some? && ShowsPrefix(log, v.data.value, v.applied, v.snapshot.value)
  }

  ghost predicate PrefixThroughout(log: Log, v: View, es: seq<Event>)
    decreases |es|
  {
    PrefixWhenIdle(log, v) && (es != [] ==> PrefixThroughout(log, Step(v, es[0]), es[1..]))
  }

  lemma {:induction false} PrefixThroughoutIff(log: Log, v: View, es: seq<Event>)
    requires FixedLists(log) && Inv(log, v) && PossibleRun(log, v, es)
    ensures PrefixThroughout(log, v, es) <==> !StaleIn(v, es)
    decreases |es|
  {
    if es != [] {
      StepKeepsIff(log, v, es[0]);
      if !LeavesStale(v, es[0]) {
        PrefixThroughoutIff(log, Step(v, es[0]), es[1..]);
      } else {
        assert !PrefixWhenIdle(log, Step(v, es[0]));
      }
    }
  }

  /** Over any run the page shows a prefix of its pinned list whenever idle exactly when no read left stale rows. */
  lemma IdleShowsPrefix(log: Log, es: seq<Event>)
    requires FixedLists(log) && PossibleRun(log, Opened(), es)
    ensures PrefixThroughout(log, Opened(), es) <==> !StaleIn(Opened(), es)
  {
    PrefixThroughoutIff(log, Opened(), es);
  }

  /** The exception happens: the first page of filters `a` is still shown, idle, under filters `b`. */
  lemma StaleRowsShown(log: Log, a: Filters, b: Filters, t: Moment) returns (es: seq<Event>)
    ensures PossibleRun(log, Opened(), es) && StaleIn(Opened(), es)
    ensures var v := Run(Opened(), es);
            !v.busy && !v.failed && v.applied == b && v.snapshot.None? && v.data == Some(PageAt(log, a, t, 0))
  {
    var first, second := Request(0, a, None, None), Request(1, b, None, None);
    es := [Fresh(a), End(first, Page(PageAt(log, a, t, 0))), Fresh(b), End(second, PageAfterTimeout)];
    var v1 := Step(Opened(), es[0]);
    var v2 := Step(v1, es[1]);
    var v3 := Step(v2, es[2]);
    var v4 := Step(v3, es[3]);
    assert es[1..][0] == es[1] && es[1..][1..] == es[2..] && es[2..][1..] == es[3..] && es[3..][1..] == [];
    assert v2.data == Some(PageAt(log, a, t, 0)) && LeavesStale(v3, es[3]);
    assert Run(v3, es[3..]) == v4 && PossibleRun(log, v3, es[3..]) && StaleIn(v3, es[3..]);
    assert Run(v2, es[2..]) == v4 && PossibleRun(log, v2, es[2..]) && StaleIn(v2, es[2..]);
    assert Run(v1, es[1..]) == v4 && PossibleRun(log, v1, es[1..]) && StaleIn(v1, es[1..]);
  }
}
