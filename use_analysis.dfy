/** The analysis trigger hook: its `analyzing` / `error` slots and the two calls
    `analyzePair` and `runMarketAnalysis`, each split at its await into a `Begin` step and
    a `Complete` step that receives the service's `{success, message}` envelope. */
module UseAnalysis {

  import opened Outcomes

  const DefaultTimeframes: seq<string> := ["30m", "4H", "1D"]
  const PairFallback: string := "Analysis failed"
  const MarketFallback: string := "Market analysis failed"

  datatype AnalyzePairRequest = AnalyzePairRequest(pair: string, timeframes: seq<string>, forceRefresh: bool)

  /** The service's reply; a missing `success` reads as false. */
  datatype Envelope = Envelope(success: bool, message: Option<string>)

  datatype CallOutcome = Responded(envelope: Envelope) | CallRejected(thrown: Thrown)

  /** How the hook's promise settles. */
  datatype CallResult = Returned(envelope: Envelope) | Threw(thrown: Thrown)

  /** The request of `analyzePair`: `timeframes || ['30m', '4H', '1D']`, where any array,
      even an empty one, is truthy; `forceRefresh` is always set. */
  function PairRequest(pair: string, timeframes: Option<seq<string>>): (r: AnalyzePairRequest)
    ensures r.pair == pair && r.forceRefresh
    ensures timeframes.Some? ==> r.timeframes == timeframes.value
    ensures timeframes.None? ==> r.timeframes == DefaultTimeframes
  {
    AnalyzePairRequest(pair, OrElse(timeframes, DefaultTimeframes), true)
  }

  /** How a call settles: a successful envelope is returned unchanged; an unsuccessful one
      throws an `Error` carrying its message, or `fallback` when the message is empty or
      missing; a rejected call rethrows what it threw. */
  function Settle(outcome: CallOutcome, fallback: string): (r: CallResult)
    ensures outcome.Responded? && outcome.envelope.success ==> r == Returned(outcome.envelope)
    ensures outcome.Responded? && !outcome.envelope.success ==>
              r.Threw? && r.thrown.ErrorInstance? &&
              r.thrown.message == StringOr(outcome.envelope.message, fallback)
    ensures outcome.CallRejected? ==> r == Threw(outcome.thrown)
  {
    match outcome
    case Responded(e) =>
      if e.success then Returned(e) else Threw(ErrorInstance(StringOr(e.message, fallback)))
    case CallRejected(t) => Threw(t)
  }

  /** An unsuccessful envelope always leaves a non-empty message in the error slot. */
  lemma UnsuccessfulEnvelopeHasMessage(e: Envelope)
    requires !e.success
    ensures CaughtMessage(Settle(Responded(e), PairFallback).thrown) != ""
    ensures CaughtMessage(Settle(Responded(e), MarketFallback).thrown) != ""
  {
  }

  class AnalysisHook {
    var analyzing: bool
    var error: Option<string>

    /** `useState(false)`, `useState(null)`. */
    constructor ()
      ensures !analyzing && error == None
    {
      analyzing := false;
      error := None;
    }

    /** The steps before either await: `analyzing` set, `error` cleared. */
    method Begin()
      modifies this
      ensures analyzing && error == None
    {
      analyzing := true;
      error := None;
    }

    /** The start of `analyzePair`: the request it sends. */
    method BeginAnalyzePair(pair: string, timeframes: Option<seq<string>>) returns (request: AnalyzePairRequest)
      modifies this
      ensures analyzing && error == None
      ensures request == PairRequest(pair, timeframes)
    {
      Begin();
      request := PairRequest(pair, timeframes);
    }

    /** The steps after either await: a success keeps `error` as `Begin` left it; a failure
        records its message; `analyzing` is cleared on every path. */
    method Complete(outcome: CallOutcome, fallback: string) returns (r: CallResult)
      modifies this
      ensures !analyzing
      ensures r == Settle(outcome, fallback)
      ensures r.Returned? ==> error == old(error)
      ensures r.Threw? ==> error == Some(CaughtMessage(r.thrown))
    {
      r := Settle(outcome, fallback);
      if r.Threw? {
        error := Some(CaughtMessage(r.thrown));
      }
      analyzing := false;
    }

    /** The end of `analyzePair`. */
    method CompleteAnalyzePair(outcome: CallOutcome) returns (r: CallResult)
      modifies this
      ensures !analyzing
      ensures r == Settle(outcome, PairFallback)
      ensures r.Returned? ==> error == old(error)
      ensures r.Threw? ==> error == Some(CaughtMessage(r.thrown))
    {
      r := Complete(outcome, PairFallback);
    }

    /** The end of `runMarketAnalysis`. */
    method CompleteMarketAnalysis(outcome: CallOutcome) returns (r: CallResult)
      modifies this
      ensures !analyzing
      ensures r == Settle(outcome, MarketFallback)
      ensures r.Returned? ==> error == old(error)
      ensures r.Threw? ==> error == Some(CaughtMessage(r.thrown))
    {
      r := Complete(outcome, MarketFallback);
    }
  }
}
