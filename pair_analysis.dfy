/** The pair-analysis screen: the structure counts it derives from one analysis payload
    (Fair Value Gaps per timeframe and liquidity zones), the status colour and icon maps
    of the step list, and the `loading` / `analysis` slots that `loadAnalysis` updates. */
module PairAnalysis {

  import opened Outcomes
  import opened DatabaseTypes

  datatype Fvg = Fvg(
    pair: string,
    timeframe: string,
    gapType: GapType,
    top: real,
    bottom: real,
    strength: real,
    isFilled: bool)

  datatype LiquidityZone = LiquidityZone(
    pair: string,
    timeframe: string,
    zoneType: ZoneType,
    level: real,
    touchCount: int,
    isSwept: bool)

  /** `status` is typed as a union but reaches the colour and icon maps as any string. */
  datatype AnalysisStep = AnalysisStep(
    stepNumber: int,
    title: string,
    status: string,
    details: seq<string>,
    icon: string)

  /** The three gap lists of `detected_fvgs`; the screen reads each one with `?.`, so each
      may be absent from the payload. */
  datatype DetectedFvgs = DetectedFvgs(
    h4: Option<seq<Fvg>>,
    daily: Option<seq<Fvg>>,
    m30: Option<seq<Fvg>>)

  datatype AnalysisData = AnalysisData(
    pair: string,
    currentPrice: real,
    recommendation: string,
    side: string,
    entryPrice: real,
    stopLoss: real,
    takeProfit: real,
    riskReward: real,
    confidence: real,
    setupsFound: int,
    analysisSteps: Option<seq<AnalysisStep>>,
    detectedFvgs: Option<DetectedFvgs>,
    detectedLiquidityZones: Option<seq<LiquidityZone>>)

  datatype Timeframe = H4 | Daily | M30

  // ---------------------------------------------------------------------------------
  // Array.prototype.filter

  /** The elements of `s` that `keep` accepts, each as often as it occurs in `s`. */
  function Filter<T(!new)>(s: seq<T>, keep: T -> bool): (r: seq<T>)
    ensures |r| <= |s|
    ensures forall x :: multiset(r)[x] == if keep(x) then multiset(s)[x] else 0
  {
    if s == [] then []
    else
      assert s == [s[0]] + s[1..];
      (if keep(s[0]) then [s[0]] else []) + Filter(s[1..], keep)
  }

  /** Filtering a concatenation filters each part. */
  lemma {:induction false} FilterAppend<T(!new)>(a: seq<T>, b: seq<T>, keep: T -> bool)
    ensures Filter(a + b, keep) == Filter(a, keep) + Filter(b, keep)
  {
    if a == [] {
      assert a + b == b;
    } else {
      assert (a + b)[1..] == a[1..] + b;
      FilterAppend(a[1..], b, keep);
    }
  }

  /** Two complementary filters split a sequence: their lengths add up to its length. */
  lemma {:induction false} FilterComplement<T(!new)>(s: seq<T>, keep: T -> bool, drop: T -> bool)
    requires forall x :: drop(x) == !keep(x)
    ensures |Filter(s, keep)| + |Filter(s, drop)| == |s|
  {
    if s != [] {
      FilterComplement(s[1..], keep, drop);
    }
  }

  // ---------------------------------------------------------------------------------
  // Fair Value Gap counts

  predicate IsBullish(f: Fvg) { f.gapType == Bullish }
  predicate IsBearish(f: Fvg) { f.gapType == Bearish }

  /** The list the payload holds for one timeframe, if any. */
  function TimeframeList(d: DetectedFvgs, tf: Timeframe): Option<seq<Fvg>>
  {
    match tf
    case H4 => d.h4
    case Daily => d.daily
    case M30 => d.m30
  }

  /** `analysis.detected_fvgs?.[tf] || []`: the gaps of one timeframe, empty when the
      payload has no `detected_fvgs` or no list for that timeframe. */
  function Gaps(a: AnalysisData, tf: Timeframe): (r: seq<Fvg>)
    ensures a.detectedFvgs.None? ==> r == []
    ensures a.detectedFvgs.Some? && TimeframeList(a.detectedFvgs.value, tf).None? ==> r == []
    ensures a.detectedFvgs.Some? && TimeframeList(a.detectedFvgs.value, tf).Some? ==>
              r == TimeframeList(a.detectedFvgs.value, tf).value
  {
    match a.detectedFvgs
    case None => []
    case Some(d) => OrElse(TimeframeList(d, tf), [])
  }

  /** The spread `[...4h, ...daily, ...30m]` from which bullish gaps are filtered: every
      gap of every timeframe is in it, and nothing else. */
  function AllGaps(a: AnalysisData): (r: seq<Fvg>)
    ensures |r| == |Gaps(a, H4)| + |Gaps(a, Daily)| + |Gaps(a, M30)|
    ensures forall tf, f :: f in Gaps(a, tf) ==> f in r
    ensures forall f :: f in r ==> f in Gaps(a, H4) || f in Gaps(a, Daily) || f in Gaps(a, M30)
  {
    Gaps(a, H4) + Gaps(a, Daily) + Gaps(a, M30)
  }

  /** `totalFVGs`: the sum of the three per-timeframe lengths, absent lists counting 0. */
  function TotalFvgs(a: AnalysisData): (r: nat)
    ensures r == |AllGaps(a)|
    ensures a.detectedFvgs.None? ==> r == 0
  {
    |Gaps(a, H4)| + |Gaps(a, Daily)| + |Gaps(a, M30)|
  }

  /** `bullishFVGs`: the bullish gaps of the spread list. */
  function BullishFvgs(a: AnalysisData): (r: nat)
    ensures r <= TotalFvgs(a)
  {
    |Filter(AllGaps(a), IsBullish)|
  }

  /** The per-timeframe card figures: the list length and its bullish and bearish parts. */
  function TimeframeCount(a: AnalysisData, tf: Timeframe): (r: nat)
    ensures r <= TotalFvgs(a)
    ensures a.detectedFvgs.None? ==> r == 0
  {
    |Gaps(a, tf)|
  }

  function TimeframeBullish(a: AnalysisData, tf: Timeframe): (r: nat)
    ensures r <= TimeframeCount(a, tf)
  {
    |Filter(Gaps(a, tf), IsBullish)|
  }

  function TimeframeBearish(a: AnalysisData, tf: Timeframe): (r: nat)
    ensures r <= TimeframeCount(a, tf)
  {
    |Filter(Gaps(a, tf), IsBearish)|
  }

  /** Because `gap_type` is closed, every timeframe card's bullish and bearish figures add
      up to its count. */
  lemma TimeframeSplit(a: AnalysisData, tf: Timeframe)
    ensures TimeframeBullish(a, tf) + TimeframeBearish(a, tf) == TimeframeCount(a, tf)
  {
    FilterComplement(Gaps(a, tf), IsBullish, IsBearish);
  }

  /** The headline bullish figure is the sum of the three cards' bullish figures, and the
      headline total is the sum of the three cards' counts. */
  lemma BullishByTimeframe(a: AnalysisData)
    ensures BullishFvgs(a) == TimeframeBullish(a, H4) + TimeframeBullish(a, Daily) + TimeframeBullish(a, M30)
    ensures TotalFvgs(a) == TimeframeCount(a, H4) + TimeframeCount(a, Daily) + TimeframeCount(a, M30)
  {
    FilterAppend(Gaps(a, H4) + Gaps(a, Daily), Gaps(a, M30), IsBullish);
    FilterAppend(Gaps(a, H4), Gaps(a, Daily), IsBullish);
  }

  /** `totalFVGs - bullishFVGs` is exactly the number of bearish gaps. */
  lemma NonBullishAreBearish(a: AnalysisData)
    ensures TotalFvgs(a) - BullishFvgs(a) == |Filter(AllGaps(a), IsBearish)|
  {
    FilterComplement(AllGaps(a), IsBullish, IsBearish);
  }

  // ---------------------------------------------------------------------------------
  // Liquidity zone counts

  predicate IsBuySide(z: LiquidityZone) { z.zoneType == BuySide }
  predicate IsSellSide(z: LiquidityZone) { z.zoneType == SellSide }

  /** `detected_liquidity_zones.length`, 0 when absent. */
  function TotalZones(a: AnalysisData): (r: nat)
    ensures a.detectedLiquidityZones.None? ==> r == 0
    ensures a.detectedLiquidityZones.Some? ==> r == |a.detectedLiquidityZones.value|
  {
    |OrElse(a.detectedLiquidityZones, [])|
  }

  /** `detected_liquidity_zones?.filter(buy_side).length || 0`. */
  function BuyLiqZones(a: AnalysisData): (r: nat)
    ensures r <= TotalZones(a)
    ensures a.detectedLiquidityZones.None? ==> r == 0
  {
    match a.detectedLiquidityZones
    case None => 0
    case Some(zs) => |Filter(zs, IsBuySide)|
  }

  /** `detected_liquidity_zones?.filter(sell_side).length || 0`. */
  function SellLiqZones(a: AnalysisData): (r: nat)
    ensures r <= TotalZones(a)
    ensures a.detectedLiquidityZones.None? ==> r == 0
  {
    match a.detectedLiquidityZones
    case None => 0
    case Some(zs) => |Filter(zs, IsSellSide)|
  }

  /** Because `zone_type` is closed, buy-side and sell-side zones partition the list. */
  lemma ZoneSplit(a: AnalysisData)
    ensures BuyLiqZones(a) + SellLiqZones(a) == TotalZones(a)
  {
    if a.detectedLiquidityZones.Some? {
      FilterComplement(a.detectedLiquidityZones.value, IsBuySide, IsSellSide);
    }
  }

  // ---------------------------------------------------------------------------------
  // Summary cards

  /** "Bullish Structures": bullish gaps plus buy-side zones. */
  function BullishStructures(a: AnalysisData): (r: nat)
    ensures r <= TotalFvgs(a) + TotalZones(a)
    ensures a.detectedFvgs.None? && a.detectedLiquidityZones.None? ==> r == 0
  {
    BullishFvgs(a) + BuyLiqZones(a)
  }

  /** "Bearish Structures": the gaps that are not bullish plus sell-side zones. */
  function BearishStructures(a: AnalysisData): (r: nat)
    ensures r <= TotalFvgs(a) + TotalZones(a)
    ensures a.detectedFvgs.None? && a.detectedLiquidityZones.None? ==> r == 0
  {
    (TotalFvgs(a) - BullishFvgs(a)) + SellLiqZones(a)
  }

  /** Every gap and every zone is counted in exactly one of the two summary cards, and the
      bearish card counts the bearish gaps. */
  lemma StructuresPartition(a: AnalysisData)
    ensures BullishStructures(a) + BearishStructures(a) == TotalFvgs(a) + TotalZones(a)
    ensures BearishStructures(a) == |Filter(AllGaps(a), IsBearish)| + SellLiqZones(a)
  {
    ZoneSplit(a);
    NonBullishAreBearish(a);
  }

  // ---------------------------------------------------------------------------------
  // Step status colour and icon

  const SuccessColor: string := "#10b981"
  const WarningColor: string := "#f59e0b"
  const ErrorColor: string := "#ef4444"
  const InfoColor: string := "#3b82f6"

  const SuccessIcon: string := "checkmark-circle"
  const WarningIcon: string := "warning"
  const ErrorIcon: string := "close-circle"
  const InfoIcon: string := "information-circle"

  /** The statuses with a colour and icon of their own; every other string is shown as info. */
  predicate KnownStatus(status: string)
  {
    status == "success" || status == "warning" || status == "error"
  }

  /** `getStatusColor`: total over strings, one of four colours, the info colour exactly
      for the strings that are not a known status. */
  function StatusColor(status: string): (c: string)
    ensures c in {SuccessColor, WarningColor, ErrorColor, InfoColor}
    ensures status == "success" ==> c == SuccessColor
    ensures status == "warning" ==> c == WarningColor
    ensures status == "error" ==> c == ErrorColor
    ensures c == InfoColor <==> !KnownStatus(status)
  {
    match status
    case "success" => SuccessColor
    case "warning" => WarningColor
    case "error" => ErrorColor
    case _ => InfoColor
  }

  /** `getStatusIcon`: total over strings, one of four icons, the info icon exactly for the
      strings that are not a known status. */
  function StatusIcon(status: string): (i: string)
    ensures i in {SuccessIcon, WarningIcon, ErrorIcon, InfoIcon}
    ensures status == "success" ==> i == SuccessIcon
    ensures status == "warning" ==> i == WarningIcon
    ensures status == "error" ==> i == ErrorIcon
    ensures i == InfoIcon <==> !KnownStatus(status)
  {
    match status
    case "success" => SuccessIcon
    case "warning" => WarningIcon
    case "error" => ErrorIcon
    case _ => InfoIcon
  }

  /** A step's border colour and its icon always agree: two statuses get the same colour
      exactly when they get the same icon. */
  lemma ColorAndIconAgree(s: string, t: string)
    ensures StatusColor(s) == StatusColor(t) <==> StatusIcon(s) == StatusIcon(t)
  {
  }

  // ---------------------------------------------------------------------------------
  // The screen's state slots

  /** What the awaited analysis call produced. */
  datatype LoadOutcome = Loaded(data: AnalysisData) | LoadFailed(thrown: Thrown)

  /** The screen's `loading` and `analysis` slots for the route parameter `pair`. */
  class PairAnalysisScreen {
    const pair: Option<string>
    var loading: bool
    var analysis: Option<AnalysisData>

    /** `useState(true)` and `useState(null)`. */
    constructor (pair: Option<string>)
      ensures this.pair == pair && loading && analysis == None
    {
      this.pair := pair;
      loading := true;
      analysis := None;
    }

    /** The part of `loadAnalysis` before the await: nothing at all without a pair (so the
        initial `loading` stays set), otherwise `loading` is set and the call is issued. */
    method BeginLoad() returns (issued: bool)
      modifies this
      ensures issued == TruthyString(pair)
      ensures loading == (issued || old(loading))
      ensures analysis == old(analysis)
    {
      if !TruthyString(pair) {
        return false;
      }
      loading := true;
      issued := true;
    }

    /** The part after the await: a result replaces `analysis`; a failure keeps the previous
        one and navigates back; `loading` ends false either way. */
    method CompleteLoad(outcome: LoadOutcome) returns (navigatedBack: bool)
      modifies this
      ensures !loading
      ensures outcome.Loaded? ==> analysis == Some(outcome.data)
      ensures outcome.LoadFailed? ==> analysis == old(analysis)
      ensures navigatedBack == outcome.LoadFailed?
    {
      navigatedBack := false;
      match outcome {
        case Loaded(data) =>
          analysis := Some(data);
        case LoadFailed(_) =>
          navigatedBack := true;
      }
      loading := false;
    }
  }
}
