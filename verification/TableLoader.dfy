// A table that reloads on every page, size or filter change, and must ignore the answers
// of requests that a newer one has superseded.
module TableLoader {
  import opened Prelude

  type Row = Json

  // A settled fetch: an answer whose parts may be missing, no answer at all, or a failure.
  datatype Answer =
    | Resolved(data: Option<seq<Row>>, total: Option<int>)
    | ResolvedNull
    | Rejected(isError: bool, unauthorised: bool)

  datatype Params = Params(page: int, pageSize: int, filters: map<string, Json>)

  // The composable's variables; `issued` lists the requests sent, the i-th being number i + 1.
  datatype State = State(
    loading: bool,
    rows: seq<Row>,
    total: int,
    page: int,
    pageSize: int,
    filters: map<string, Json>,
    requestId: nat,
    complaints: nat,
    issued: seq<Params>,
    open: set<nat>)

  const INITIAL := State(false, [], 0, 1, 20, map[], 0, 0, [], {})

  datatype Event =
    | Load(filters: map<string, Json>)
    | PageChange(page: int)
    | SizeChange(size: int)
    | Refresh
    | Settle(request: nat, answer: Answer)

  // What the table shows after an answer: rows, total, and whether an error is announced.
  function Shown(a: Answer): (seq<Row>, int, bool) {
    match a
    case Resolved(data, total) => (data.GetOr([]), total.GetOr(|data.GetOr([])|), false)
    case ResolvedNull => ([], 0, true)
    case Rejected(isError, unauthorised) => ([], 0, isError && !unauthorised)
  }

  function Begin(s: State, filters: map<string, Json>): State {
    s.(filters := filters, loading := true, requestId := s.requestId + 1,
       issued := s.issued + [Params(s.page, s.pageSize, filters)],
       open := s.open + {s.requestId + 1})
  }

  function Finish(s: State, request: nat, a: Answer): State {
    var closed := s.(open := s.open - {request});
    if request != s.requestId then closed
    else
      var (rows, total, complain) := Shown(a);
      closed.(rows := rows, total := total, loading := false, complaints := s.complaints + (if complain then 1 else 0))
  }

  function Step(s: State, e: Event): State {
    match e
    case Load(filters) => Begin(s, filters)
    case PageChange(page) => Begin(s.(page := page), s.filters)
    case SizeChange(size) => Begin(s.(pageSize := size, page := 1), s.filters)
    case Refresh => Begin(s, s.filters)
    case Settle(request, answer) => if request in s.open then Finish(s, request, answer) else s
  }

  function Run(s: State, events: seq<Event>): State {
    if events == [] then s else Step(Run(s, events[..|events| - 1]), events[|events| - 1])
  }

  // A request went out for this page, size and filters, which the table now holds; it is the
  // newest, it is open, and what the table shows has not changed.
  ghost predicate Sends(s: State, t: State, page: int, pageSize: int, filters: map<string, Json>) {
    && (t.page, t.pageSize, t.filters) == (page, pageSize, filters) && t.loading
    && t.requestId == s.requestId + 1 && t.open == s.open + {t.requestId}
    && t.issued == s.issued + [Params(page, pageSize, filters)]
    && (t.rows, t.total, t.complaints) == (s.rows, s.total, s.complaints)
  }

  // The answer shows: its rows, or none, and its total, or their number; after a failure
  // nothing, with a complaint unless it is no error or a missing login.
  ghost predicate Answers(s: State, t: State, a: Answer) {
    && !t.loading && (t.page, t.pageSize, t.filters, t.requestId, t.issued) == (s.page, s.pageSize, s.filters, s.requestId, s.issued)
    && (match a
        case Resolved(data, total) =>
          && t.rows == (if data.Some? then data.value else [])
          && t.total == (if total.Some? then total.value else |t.rows|) && t.complaints == s.complaints
        case ResolvedNull => t.rows == [] && t.total == 0 && t.complaints == s.complaints + 1
        case Rejected(isError, unauthorised) =>
          t.rows == [] && t.total == 0 && t.complaints == s.complaints + (if isError && !unauthorised then 1 else 0))
  }

  // The events of the runs below do just that.
  lemma StepTold(s: State, e: Event)
    ensures match e
            case Load(filters) => Sends(s, Step(s, e), s.page, s.pageSize, filters)
            case PageChange(page) => Sends(s, Step(s, e), page, s.pageSize, s.filters)
            case SizeChange(size) => Sends(s, Step(s, e), 1, size, s.filters)
            case Refresh => Sends(s, Step(s, e), s.page, s.pageSize, s.filters)
            case Settle(request, a) =>
              && (request in s.open && request == s.requestId ==> Answers(s, Step(s, e), a))
              && (request !in s.open || request != s.requestId ==> Step(s, e).(open := s.open) == s)
  {
  }

  class TableLoader {
    var loading: bool
    var tableData: seq<Row>
    var total: int
    var page: int
    var pageSize: int
    var currentFilters: map<string, Json>
    var requestId: nat
    var complaints: nat
    ghost var issued: seq<Params>
    ghost var open: set<nat>

    constructor ()
      ensures View() == INITIAL
    {
      loading, tableData, total, page, pageSize := false, [], 0, 1, 20;
      currentFilters, requestId, complaints := map[], 0, 0;
      issued, open := [], {};
    }

    ghost function View(): State
      reads this
    {
      State(loading, tableData, total, page, pageSize, currentFilters, requestId, complaints, issued, open)
    }

    // `loadData` up to the point where it waits for the fetch.
    method LoadData(extraParams: map<string, Json>) returns (thisRequest: nat)
      modifies this
      ensures View() == Begin(old(View()), extraParams) && thisRequest == requestId
      ensures Sends(old(View()), View(), page, pageSize, extraParams) && page == old(page) && pageSize == old(pageSize)
    {
      currentFilters := extraParams;
      loading := true;
      requestId := requestId + 1;
      thisRequest := requestId;
      issued := issued + [Params(page, pageSize, extraParams)];
      open := open + {thisRequest};
    }

    // `loadData` from there on, once its fetch has settled.
    method Resume(thisRequest: nat, answer: Answer)
      requires thisRequest in open
      modifies this
      ensures View() == Finish(old(View()), thisRequest, answer)
      ensures thisRequest != requestId ==> View().(open := old(open)) == old(View())
      ensures thisRequest == requestId ==> Answers(old(View()), View(), answer)
    {
      open := open - {thisRequest};
      var failed, isError, unauthorised := false, true, false;
      match answer {
        case Resolved(data, metaTotal) =>
          if thisRequest == requestId {
            tableData := data.GetOr([]);
            total := metaTotal.GetOr(|tableData|);
          }
        case ResolvedNull => failed := thisRequest == requestId;
        case Rejected(e, u) =>
          failed, isError, unauthorised := true, e, u;
      }
      if failed && thisRequest == requestId {
        tableData := [];
        total := 0;
        if isError && !unauthorised {
          complaints := complaints + 1;
        }
      }
      if thisRequest == requestId {
        loading := false;
      }
    }

    method HandlePageChange(newPage: int) returns (thisRequest: nat)
      modifies this
      ensures View() == Step(old(View()), PageChange(newPage)) && thisRequest == requestId
      ensures Sends(old(View()), View(), newPage, old(pageSize), old(currentFilters))
    {
      page := newPage;
      thisRequest := LoadData(currentFilters);
    }

    method HandleSizeChange(size: int) returns (thisRequest: nat)
      modifies this
      ensures View() == Step(old(View()), SizeChange(size)) && thisRequest == requestId
      ensures Sends(old(View()), View(), 1, size, old(currentFilters))
    {
      pageSize := size;
      page := 1;
      thisRequest := LoadData(currentFilters);
    }

    method RefreshTable() returns (thisRequest: nat)
      modifies this
      ensures View() == Step(old(View()), Refresh) && thisRequest == requestId
      ensures Sends(old(View()), View(), old(page), old(pageSize), old(currentFilters))
    {
      thisRequest := LoadData(currentFilters);
    }
  }

  // ---- Whole runs, in any order of settling ----

  ghost predicate Inv(s: State) {
    && (s.loading <==> s.requestId in s.open)
    && |s.issued| == s.requestId
    && (forall r <- s.open :: 0 < r <= s.requestId)
    && (s.requestId > 0 ==> s.issued[s.requestId - 1] == Params(s.page, s.pageSize, s.filters))
  }

  lemma {:induction false} RunKeepsInv(events: seq<Event>)
    ensures Inv(Run(INITIAL, events))
  {
    if events != [] { RunKeepsInv(events[..|events| - 1]); }
  }

  // The table is loading exactly while its newest request is unsettled, and that request
  // was sent with the page, size and filters the table now shows.
  lemma LoadingMeansNewestOpen(events: seq<Event>)
    ensures var s := Run(INITIAL, events);
            && (s.loading <==> s.requestId in s.open)
            && (s.requestId > 0 ==> |s.issued| == s.requestId && s.issued[s.requestId - 1] == Params(s.page, s.pageSize, s.filters))
  {
    RunKeepsInv(events);
  }

  // Settling a superseded request is seen by nobody.
  lemma SupersededChangesNothing(s: State, request: nat, a: Answer)
    requires request != s.requestId
    ensures Step(s, Settle(request, a)).(open := s.open) == s
  {
    assert s.(open := s.open) == s;
  }

  predicate Issues(e: Event) {
    !e.Settle?
  }

  // The answer to one request among later events, if it settled and was still open.
  function AnswerIn(events: seq<Event>, request: nat): Option<Answer> {
    if events == [] then None
    else if events[0].Settle? && events[0].request == request then Some(events[0].answer)
    else AnswerIn(events[1..], request)
  }

  lemma {:induction false} RunFront(s: State, e: Event, events: seq<Event>)
    ensures Run(s, [e] + events) == Run(Step(s, e), events)
  {
    var all := [e] + events;
    if events == [] {
      assert all[..0] == [] && Run(s, []) == s;
    } else {
      assert all[..|all| - 1] == [e] + events[..|events| - 1];
      RunFront(s, e, events[..|events| - 1]);
    }
  }

  // While no newer request is sent, the table shows the newest request's first answer, and
  // until then what it showed when that request was sent; nothing else plays a part.
  lemma {:induction false} OnlyNewestMatters(s: State, events: seq<Event>)
    requires Inv(s) && s.loading && forall e <- events :: !Issues(e)
    ensures var t, a := Run(s, events), AnswerIn(events, s.requestId);
            && t.requestId == s.requestId
            && (a.None? ==> (t.rows, t.total, t.complaints, t.loading) == (s.rows, s.total, s.complaints, true))
            && (a.Some? ==> var (rows, total, complains) := Shown(a.value);
                            (t.rows, t.total, t.complaints, t.loading)
                            == (rows, total, s.complaints + (if complains then 1 else 0), false))
    decreases |events|
  {
    if events != [] {
      var e, rest := events[0], events[1..];
      assert events == [e] + rest;
      RunFront(s, e, rest);
      assert e in events;
      var next := Step(s, e);
      if e.request == s.requestId {
        QuietOnceSettled(next, rest);
      } else {
        OnlyNewestMatters(next, rest);
      }
    }
  }

  lemma {:induction false} QuietOnceSettled(s: State, events: seq<Event>)
    requires Inv(s) && !s.loading && forall e <- events :: !Issues(e)
    ensures Run(s, events).(open := s.open) == s
    decreases |events|
  {
    if events != [] {
      var e, rest := events[0], events[1..];
      assert events == [e] + rest;
      RunFront(s, e, rest);
      assert e in events;
      var next := Step(s, e);
      assert next.(open := s.open) == s;
      QuietOnceSettled(next, rest);
    }
  }

  // Two schedules that agree on when the newest request was sent and how it was answered
  // end with the same table, in whatever order the older answers arrived.
  lemma OrderDoesNotMatter(s: State, a: seq<Event>, b: seq<Event>)
    requires Inv(s) && s.loading && (forall e <- a :: !Issues(e)) && (forall e <- b :: !Issues(e))
    requires AnswerIn(a, s.requestId) == AnswerIn(b, s.requestId)
    ensures var t, u := Run(s, a), Run(s, b); (t.rows, t.total, t.loading) == (u.rows, u.total, u.loading)
  {
    OnlyNewestMatters(s, a);
    OnlyNewestMatters(s, b);
  }
}
