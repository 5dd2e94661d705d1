/** The signal list hook: its `signals` / `loading` / `error` slots, the query it builds
    from the optional status filter, and how a fetch, a realtime change and a new filter
    move those slots. */
module UseSignals {

  import opened Outcomes
  import opened DatabaseTypes

  datatype Order = Order(column: string, ascending: bool)

  /** The query description handed to the store: table, ordering and optional equality
      filter on `status` (the columns are always `*`). */
  datatype SignalQuery = SignalQuery(table: string, order: Order, statusEquals: Option<string>)

  const SignalsTable: string := "trade_signals"
  const NewestFirst: Order := Order("created_at", false)

  /** The query of `fetchSignals`: always newest first; filtered on `status` only when the
      filter is truthy, so that both an absent filter and `""` mean every status. */
  function SignalsQuery(status: Option<string>): (q: SignalQuery)
    ensures q.table == SignalsTable && q.order == NewestFirst
    ensures q.statusEquals.Some? <==> TruthyString(status)
    ensures q.statusEquals.Some? ==> q.statusEquals == status
  {
    var query := SignalQuery(SignalsTable, NewestFirst, None);
    if TruthyString(status) then query.(statusEquals := status) else query
  }

  /** The rows an equality filter admits. */
  predicate Admits(q: SignalQuery, row: TradeSignal)
  {
    q.statusEquals.None? || q.statusEquals.value == StatusName(row.status)
  }

  /** Filtering on the name of a status admits exactly the rows with that status; an
      empty or absent filter admits every row. */
  lemma StatusFilterAdmits(status: Option<string>, st: SignalStatus, row: TradeSignal)
    ensures status == Some(StatusName(st)) ==> (Admits(SignalsQuery(status), row) <==> row.status == st)
    ensures !TruthyString(status) ==> Admits(SignalsQuery(status), row)
  {
  }

  /** What the awaited query produced: rows (`data`, possibly `null`), or a failure,
      whether the response carried an `error` or the call itself threw. */
  datatype FetchOutcome = Rows(data: Option<seq<TradeSignal>>) | Failed(thrown: Thrown)

  /** A realtime notification on `trade_signals`; its payload is never read. */
  datatype ChangeEvent = Inserted(row: TradeSignal) | Updated(row: TradeSignal) | Deleted(id: string)

  /** The state of one `useSignals(status)` instance. */
  class SignalsHook {
    var status: Option<string>
    var signals: seq<TradeSignal>
    var loading: bool
    var error: Option<string>

    /** `useState([])`, `useState(true)`, `useState(null)`. */
    constructor (status: Option<string>)
      ensures this.status == status
      ensures signals == [] && loading && error == None
    {
      this.status := status;
      signals := [];
      loading := true;
      error := None;
    }

    /** The start of `fetchSignals`: `loading` is set and the query for the current filter
        is issued; the list and the error stay as they are. */
    method BeginFetch() returns (q: SignalQuery)
      modifies this`loading
      ensures loading
      ensures q == SignalsQuery(status)
    {
      loading := true;
      q := SignalsQuery(status);
    }

    /** The end of `fetchSignals`: rows (or `[]` for `null`) replace the list and clear the
        error; a failure records its message and keeps the previous list; `loading` is
        cleared on both paths. */
    method CompleteFetch(outcome: FetchOutcome)
      modifies this`signals, this`error, this`loading
      ensures !loading
      ensures outcome.Rows? ==> signals == OrElse(outcome.data, []) && error == None
      ensures outcome.Failed? ==> signals == old(signals) && error == Some(CaughtMessage(outcome.thrown))
    {
      match outcome {
        case Rows(data) =>
          signals := OrElse(data, []);
          error := None;
        case Failed(thrown) =>
          error := Some(CaughtMessage(thrown));
      }
      loading := false;
    }

    /** A change notification of any kind triggers the same full fetch, never a patch of
        the list from the event. */
    method OnTableChange(event: ChangeEvent) returns (q: SignalQuery)
      modifies this`loading
      ensures loading
      ensures q == SignalsQuery(status)
    {
      q := BeginFetch();
    }

    /** A re-render with a different `status` re-runs the effect and fetches with the new
        filter; the same `status` does nothing. The list is not reset in between. */
    method SetStatus(newStatus: Option<string>) returns (q: Option<SignalQuery>)
      modifies this`status, this`loading
      ensures status == newStatus
      ensures q.Some? <==> newStatus != old(status)
      ensures q.Some? ==> loading && q.value == SignalsQuery(newStatus)
      ensures q.None? ==> loading == old(loading)
    {
      if newStatus == status {
        return None;
      }
      status := newStatus;
      var query := BeginFetch();
      q := Some(query);
    }
  }
}
