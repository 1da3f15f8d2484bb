/**
 * The exchange-rate widget: its four pieces of component state, the
 * transitions of one fetch cycle (start, begin, succeed or fail, settle), the
 * mapping of a payload to display rows, and the two display decisions that
 * depend on state (the loading placeholder and the last-updated text).
 *
 * The transitions are given twice over, as they belong together: as
 * functions on a state value (WidgetState), about which the properties are
 * proved, and as methods of the class Widget, whose fields are the
 * component's state and whose every method is proved to move its state as
 * the matching function does.
 */
module ExchangeWidget {
  import opened Common

  /** Milliseconds since the epoch: what `new Date()` is read as. */
  type Timestamp = int

  const LoadError: string := "Failed to load rates"
  const NoDate: string := "—"

  datatype RateRow = RateRow(code: string, rateToGBP: real)

  /**
   * What the widget's `fetch("/api/rates")` comes back with. NetworkError:
   * `fetch` throws. NotOk: a non-2xx status. Ok: a 2xx status and the body
   * `res.json()` reads.
   */
  datatype Reply = NetworkError | NotOk(status: int) | Ok(body: JsonBody)

  /** The rate shown for one code: the payload value, or 0 when the table or the code is missing (exchange-widget.tsx:49). */
  function RateOrZero(rates: Option<RateTable>, code: string): real {
    if rates.Some? && code in rates.value then rates.value[code] else 0.0
  }

  /** One row per code, in the order of the codes, each carrying its shown rate (exchange-widget.tsx:47-50). */
  function MapRows(codes: seq<string>, rates: Option<RateTable>): (rows: seq<RateRow>)
    ensures |rows| == |codes|
    ensures forall i :: 0 <= i < |codes| ==> rows[i].code == codes[i]
    ensures forall i :: 0 <= i < |codes| ==>
      rows[i].rateToGBP == (if rates.Some? && codes[i] in rates.value then rates.value[codes[i]] else 0.0)
  {
    if |codes| == 0 then []
    else [RateRow(codes[0], RateOrZero(rates, codes[0]))] + MapRows(codes[1..], rates)
  }

  /** The rows a payload maps to: one per display currency, in display order. */
  function Rows(rates: Option<RateTable>): seq<RateRow> {
    MapRows(Currencies, rates)
  }

  /** Rows that are exactly the display currencies, in order, as a successful fetch leaves them. */
  predicate DisplayRows(rows: seq<RateRow>) {
    |rows| == |Currencies| && forall i :: 0 <= i < |rows| ==> rows[i].code == Currencies[i]
  }

  /**
   * The rows a completed request yields, or None when the request fails:
   * a thrown `fetch`, a non-2xx status, a body `res.json()` cannot parse,
   * or a `null` body (reading `data.rates` then throws).
   */
  function FetchedRows(reply: Reply): (r: Option<seq<RateRow>>)
    ensures r.Some? <==> reply.Ok? && reply.body.Object?
    ensures r.Some? ==> DisplayRows(r.value)
  {
    match reply
    case Ok(Object(rates)) => Some(Rows(rates))
    case _ => None
  }

  /** `formatTime`: the dash when there is no date; otherwise the locale's rendering, supplied by the caller. */
  function FormatTime(date: Option<Timestamp>, toLocaleDate: Timestamp -> string): (text: string)
    ensures date.None? ==> text == NoDate
    ensures date.Some? ==> text == toLocaleDate(date.value)
  {
    match date
    case None => NoDate
    case Some(d) => toLocaleDate(d)
  }

  // ---- The component state as a value, and its transitions ----

  datatype WidgetState = WidgetState(
    rates: seq<RateRow>,
    lastUpdated: Option<Timestamp>,
    refreshing: bool,
    error: Option<string>)

  /** The state `useState` gives on mount. */
  function Initial(): WidgetState {
    WidgetState([], None, false, None)
  }

  /** The loading placeholder shows when there are no rows and no error. */
  predicate ShowsPlaceholder(s: WidgetState) {
    s.rates == [] && s.error.None?
  }

  /** Refresh click or mount: `setRefreshing(true)`. */
  function AfterStart(s: WidgetState): WidgetState {
    s.(refreshing := true)
  }

  /** First step of `fetchRates`: `setError(null)`. */
  function AfterBegin(s: WidgetState): WidgetState {
    s.(error := None)
  }

  /** A fetch that produced rows: `setRates(mapped)` and `setLastUpdated(new Date())`. */
  function AfterSuccess(s: WidgetState, rows: seq<RateRow>, now: Timestamp): WidgetState {
    s.(rates := rows, lastUpdated := Some(now))
  }

  /** The `catch` of `fetchRates`: `setError("Failed to load rates")`. */
  function AfterFailure(s: WidgetState): WidgetState {
    s.(error := Some(LoadError))
  }

  /** The `finally` of `fetchRates`: `setRefreshing(false)`. */
  function AfterSettle(s: WidgetState): WidgetState {
    s.(refreshing := false)
  }

  /** One whole run of `fetchRates` against a reply received at time `now`. */
  function AfterFetch(s: WidgetState, reply: Reply, now: Timestamp): WidgetState {
    var begun := AfterBegin(s);
    var rows := FetchedRows(reply);
    AfterSettle(if rows.Some? then AfterSuccess(begun, rows.value, now) else AfterFailure(begun))
  }

  /** `handleRefreshClick`, and likewise the mount effect: start, then fetch. */
  function AfterRefresh(s: WidgetState, reply: Reply, now: Timestamp): WidgetState {
    AfterFetch(AfterStart(s), reply, now)
  }

  /**
   * The invariant every reachable state keeps: either nothing has been
   * loaded yet (no rows, no timestamp) or the last successful fetch left one
   * row per display currency and its time.
   */
  predicate Consistent(s: WidgetState) {
    (s.rates == [] && s.lastUpdated.None?) || (DisplayRows(s.rates) && s.lastUpdated.Some?)
  }

  // ---- Properties of the transitions ----

  /** Placeholder shown exactly for an empty row list without an error; the initial state shows it, is consistent, and has no date. */
  lemma InitialState(toLocaleDate: Timestamp -> string)
    ensures ShowsPlaceholder(Initial()) && Consistent(Initial()) && !Initial().refreshing
    ensures FormatTime(Initial().lastUpdated, toLocaleDate) == NoDate
  {
  }

  /** Starting a cycle marks it refreshing and beginning the fetch clears the error; nothing else changes. */
  lemma StartAndBegin(s: WidgetState)
    ensures AfterStart(s).refreshing && AfterStart(s).(refreshing := s.refreshing) == s
    ensures AfterBegin(s).error.None? && AfterBegin(s).(error := s.error) == s
  {
  }

  /**
   * A fetch whose reply parses replaces the rows wholesale by the five
   * display rows, each carrying the payload value or 0, stamps the time, and
   * clears the error.
   */
  lemma FetchSuccess(s: WidgetState, rates: Option<RateTable>, now: Timestamp)
    ensures AfterFetch(s, Ok(Object(rates)), now).rates == Rows(rates)
    ensures DisplayRows(AfterFetch(s, Ok(Object(rates)), now).rates)
    ensures forall i :: 0 <= i < |Currencies| ==>
      AfterFetch(s, Ok(Object(rates)), now).rates[i].rateToGBP == RateOrZero(rates, Currencies[i])
    ensures AfterFetch(s, Ok(Object(rates)), now).lastUpdated == Some(now)
    ensures AfterFetch(s, Ok(Object(rates)), now).error == None
  {
  }

  /** Any other reply sets the generic error and leaves the rows and the timestamp as they were. */
  lemma FetchFailure(s: WidgetState, reply: Reply, now: Timestamp)
    requires !(reply.Ok? && reply.body.Object?)
    ensures AfterFetch(s, reply, now).error == Some(LoadError)
    ensures AfterFetch(s, reply, now).rates == s.rates
    ensures AfterFetch(s, reply, now).lastUpdated == s.lastUpdated
  {
  }

  /** Whatever the reply, a settled fetch is no longer refreshing and no longer shows the placeholder. */
  lemma FetchSettles(s: WidgetState, reply: Reply, now: Timestamp)
    ensures !AfterFetch(s, reply, now).refreshing
    ensures !ShowsPlaceholder(AfterFetch(s, reply, now))
  {
    if FetchedRows(reply).Some? {
      assert |AfterFetch(s, reply, now).rates| == |Currencies|;
    }
  }

  /** A success with display rows leaves a consistent state, whatever the state before. */
  lemma SuccessKeepsConsistent(s: WidgetState, rows: seq<RateRow>, now: Timestamp)
    requires DisplayRows(rows)
    ensures Consistent(AfterSuccess(s, rows, now))
  {
  }

  /** Every other transition, and every whole fetch and refresh, keeps the state consistent. */
  lemma TransitionsKeepConsistent(s: WidgetState, reply: Reply, now: Timestamp)
    requires Consistent(s)
    ensures Consistent(AfterStart(s)) && Consistent(AfterBegin(s)) && Consistent(AfterFailure(s)) && Consistent(AfterSettle(s))
    ensures Consistent(AfterFetch(s, reply, now)) && Consistent(AfterRefresh(s, reply, now))
  {
  }

  /** The worked example: USD 1.27 and EUR 1.17 show as given; CHF, AUD and CAD show 0. */
  lemma PartialPayload()
    ensures Rows(Some(map["USD" := 1.27, "EUR" := 1.17])) ==
      [RateRow("USD", 1.27), RateRow("EUR", 1.17), RateRow("CHF", 0.0), RateRow("AUD", 0.0), RateRow("CAD", 0.0)]
  {
    var rows := Rows(Some(map["USD" := 1.27, "EUR" := 1.17]));
    assert rows[2].rateToGBP == 0.0;
  }

  // ---- The component ----

  /** The component's state hooks as fields; each method is one setter sequence of the source. */
  class Widget {
    var rates: seq<RateRow>
    var lastUpdated: Option<Timestamp>
    var refreshing: bool
    var error: Option<string>

    function State(): WidgetState
      reads this
    {
      WidgetState(rates, lastUpdated, refreshing, error)
    }

    /** Mount: empty rows, no date, not refreshing, no error. */
    constructor ()
      ensures State() == Initial()
      ensures ShowsPlaceholder(State())
    {
      rates := [];
      lastUpdated := None;
      refreshing := false;
      error := None;
    }

    method Start()
      modifies this
      ensures State() == AfterStart(old(State()))
      ensures refreshing
    {
      refreshing := true;
    }

    method BeginFetch()
      modifies this
      ensures State() == AfterBegin(old(State()))
      ensures error == None
    {
      error := None;
    }

    method Succeed(rows: seq<RateRow>, now: Timestamp)
      modifies this
      ensures State() == AfterSuccess(old(State()), rows, now)
    {
      rates := rows;
      lastUpdated := Some(now);
    }

    method Fail()
      modifies this
      ensures State() == AfterFailure(old(State()))
      ensures error == Some(LoadError)
    {
      error := Some(LoadError);
    }

    method Settle()
      modifies this
      ensures State() == AfterSettle(old(State()))
      ensures !refreshing
    {
      refreshing := false;
    }

    /** `fetchRates`: clear the error, then apply the outcome of the reply, then settle. */
    method FetchRates(reply: Reply, now: Timestamp)
      modifies this
      ensures State() == AfterFetch(old(State()), reply, now)
      ensures !refreshing
      ensures FetchedRows(reply).Some? ==> rates == FetchedRows(reply).value && lastUpdated == Some(now) && error == None
      ensures FetchedRows(reply).None? ==>
        rates == old(rates) && lastUpdated == old(lastUpdated) && error == Some(LoadError)
    {
      BeginFetch();
      var rows := FetchedRows(reply);
      if rows.Some? {
        Succeed(rows.value, now);
      } else {
        Fail();
      }
      Settle();
    }

    /** `handleRefreshClick`, and the mount effect's identical body: mark refreshing, then fetch. */
    method HandleRefreshClick(reply: Reply, now: Timestamp)
      modifies this
      ensures State() == AfterRefresh(old(State()), reply, now)
      ensures Consistent(old(State())) ==> Consistent(State())
    {
      ghost var before := State();
      Start();
      FetchRates(reply, now);
      if Consistent(before) {
        TransitionsKeepConsistent(before, reply, now);
      }
    }
  }
}
