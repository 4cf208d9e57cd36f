/** The workbench view over three upstream services: the PAS core snapshot that
    anchors the page, and the PA performance and DPM rebalance snapshots that may
    degrade. Every degradation is recorded in two caller-owned lists, the partial
    failures and the warnings, instead of failing the request. */
module Workbench {
  import opened Wrappers
  import opened Text
  import opened Json
  import Sorting

  /** One slot of `asyncio.gather(..., return_exceptions=True)`: an `Exception` (carried by
      its `str`), a `(status, payload)` pair, or any other object (carried by
      `str(type(result))`; a `BaseException` that is not an `Exception` lands here too). */
  datatype GatherResult = Raised(message: string) | Returned(status: int, payload: Json) | Unexpected(typeRepr: string)

  datatype PartialFailure = PartialFailure(sourceService: string, errorCode: string, detail: string)

  /** The period key and its `net_cumulative_return`, both as the payload holds them. */
  datatype PerformanceSnapshot = PerformanceSnapshot(period: Json, returnPct: Json)

  datatype RebalanceSnapshot = RebalanceSnapshot(status: string, lastRebalanceRunId: Option<string>, lastRunAtUtc: Option<string>)

  /** What a snapshot parser returns, and what it appends to the failures and the warnings. */
  datatype Parsed<T> = Parsed(value: Option<T>, failures: seq<PartialFailure>, warnings: seq<string>)

  const PaUnavailable := "PA_SNAPSHOT_UNAVAILABLE"
  const PaInvalid := "PA_SNAPSHOT_INVALID"
  const DpmUnavailable := "DPM_REBALANCE_UNAVAILABLE"
  const PolicyUnavailable := "DPM_POLICY_SIMULATION_UNAVAILABLE"

  predicate IsHttpCode(code: string)
  {
    |code| >= 5 && code[..5] == "HTTP_"
  }

  /** The four failure branches that open both `_parse_pa_snapshot` and
      `_parse_dpm_snapshot`: no failure exactly for a dict payload with a status below 400. */
  function ResultFailure(source: string, result: GatherResult): (f: Option<PartialFailure>)
    ensures f.None? <==> result.Returned? && result.payload.JDict? && result.status < 400
    ensures f.Some? ==> f.value.sourceService == source
    ensures f.Some? ==> (f.value.errorCode == "UPSTREAM_EXCEPTION" <==> result.Raised?)
    ensures f.Some? ==> (f.value.errorCode == "INVALID_UPSTREAM_RESPONSE" <==> result.Unexpected?)
    ensures f.Some? ==> (f.value.errorCode == "INVALID_UPSTREAM_PAYLOAD" <==> result.Returned? && !result.payload.JDict?)
    ensures f.Some? ==> (IsHttpCode(f.value.errorCode) <==> result.Returned? && result.payload.JDict?)
    ensures result.Raised? ==> f.value.detail == result.message
    ensures result.Unexpected? ==> f.value.detail == "unexpected result type: " + result.typeRepr
    ensures result.Returned? && !result.payload.JDict? ==>
              f.value.detail == "unexpected payload type: " + TypeRepr(result.payload)
    ensures result.Returned? && result.payload.JDict? && result.status >= 400 ==>
              f.value.errorCode == "HTTP_" + IntToDecimal(result.status) && f.value.detail == DetailText(result.payload.entries)
  {
    match result
    case Raised(m) =>
      assert !IsHttpCode("UPSTREAM_EXCEPTION") by { assert "UPSTREAM_EXCEPTION"[0] == 'U'; }
      Some(PartialFailure(source, "UPSTREAM_EXCEPTION", m))
    case Unexpected(t) =>
      assert !IsHttpCode("INVALID_UPSTREAM_RESPONSE") by { assert "INVALID_UPSTREAM_RESPONSE"[0] == 'I'; }
      Some(PartialFailure(source, "INVALID_UPSTREAM_RESPONSE", "unexpected result type: " + t))
    case Returned(s, p) =>
      if !p.JDict? then
        assert !IsHttpCode("INVALID_UPSTREAM_PAYLOAD") by { assert "INVALID_UPSTREAM_PAYLOAD"[0] == 'I'; }
        Some(PartialFailure(source, "INVALID_UPSTREAM_PAYLOAD", "unexpected payload type: " + TypeRepr(p)))
      else if s >= 400 then
        var code := "HTTP_" + IntToDecimal(s);
        assert code[..5] == "HTTP_" && code[0] == 'H';
        assert code != "UPSTREAM_EXCEPTION" && code != "INVALID_UPSTREAM_RESPONSE" && code != "INVALID_UPSTREAM_PAYLOAD" by {
          assert "UPSTREAM_EXCEPTION"[0] == 'U' && "INVALID_UPSTREAM_RESPONSE"[0] == 'I' && "INVALID_UPSTREAM_PAYLOAD"[0] == 'I';
        }
        Some(PartialFailure(source, code, DetailText(p.entries)))
      else None
  }

  /** The error code of a failure tells which branch produced it, and an `HTTP_` code
      gives back the upstream status. */
  lemma FailureCodeIdentifiesCause(source: string, a: GatherResult, b: GatherResult)
    requires ResultFailure(source, a).Some? && ResultFailure(source, b).Some?
    requires ResultFailure(source, a).value.errorCode == ResultFailure(source, b).value.errorCode
    ensures a.Raised? <==> b.Raised?
    ensures a.Unexpected? <==> b.Unexpected?
    ensures a.Returned? && a.payload.JDict? <==> b.Returned? && b.payload.JDict?
    ensures a.Returned? && a.payload.JDict? ==> a.status == b.status
  {
    if a.Returned? && a.payload.JDict? {
      var code := ResultFailure(source, a).value.errorCode;
      assert IntToDecimal(a.status) == code[5..] == IntToDecimal(b.status);
      IntToDecimalInjective(a.status, b.status);
    }
  }

  // ---------------------------------------------------------------------------
  // PA: performance snapshot

  /** `"YTD"` when it is a key, otherwise the first key in insertion order. */
  function PeriodKey(resultsByPeriod: seq<Entry>): (k: Option<Json>)
    ensures k.None? <==> resultsByPeriod == []
    ensures HasKey(resultsByPeriod, "YTD") ==> k == Some(JStr("YTD"))
    ensures !HasKey(resultsByPeriod, "YTD") && resultsByPeriod != [] ==> k == Some(resultsByPeriod[0].key)
  {
    if HasKey(resultsByPeriod, "YTD") then Some(JStr("YTD"))
    else if resultsByPeriod == [] then None
    else Some(resultsByPeriod[0].key)
  }

  /** The success path of `_parse_pa_snapshot` once `resultsByPeriod` is a dict: a
      snapshot exactly when the chosen key is not `None` and holds a dict. */
  function PeriodSnapshot(resultsByPeriod: seq<Entry>): (r: Option<PerformanceSnapshot>)
    ensures r.Some? <==>
              PeriodKey(resultsByPeriod).Some? && PeriodKey(resultsByPeriod).value != JNull &&
              Lookup(resultsByPeriod, PeriodKey(resultsByPeriod).value).value.JDict?
    ensures r.Some? ==> r.value.period == PeriodKey(resultsByPeriod).value
    ensures r.Some? ==>
              r.value.returnPct == Get(Lookup(resultsByPeriod, r.value.period).value.entries, "net_cumulative_return", JNull)
  {
    match PeriodKey(resultsByPeriod)
    case None => None
    case Some(key) =>
      if key == JNull then None
      else
        assert Lookup(resultsByPeriod, key).Some? by {
          if key != JStr("YTD") { assert resultsByPeriod[0].key == key; }
        }
        var periodPayload := Lookup(resultsByPeriod, key).GetOr(JDict([]));
        if periodPayload.JDict? then Some(PerformanceSnapshot(key, Get(periodPayload.entries, "net_cumulative_return", JNull)))
        else None
  }

  /** What `_parse_pa_snapshot` returns and appends. */
  function PaSnapshot(result: GatherResult): (r: Parsed<PerformanceSnapshot>)
    ensures |r.failures| <= 1 && |r.warnings| <= 1
    ensures r.failures == (if ResultFailure("pa", result).Some? then [ResultFailure("pa", result).value] else [])
    ensures r.failures != [] <==> r.warnings == [PaUnavailable]
    ensures r.failures != [] ==> r.value.None?
    ensures r.warnings == [PaInvalid] <==>
              r.failures == [] && !Get(result.payload.entries, "resultsByPeriod", JDict([])).JDict?
    ensures r.value.Some? ==> r.failures == [] && r.warnings == []
    ensures r.warnings == [] <==> r.failures == [] && Get(result.payload.entries, "resultsByPeriod", JDict([])).JDict?
    ensures r.failures == [] && r.warnings == [] ==>
              r.value == PeriodSnapshot(Get(result.payload.entries, "resultsByPeriod", JDict([])).entries)
  {
    var failure := ResultFailure("pa", result);
    if failure.Some? then Parsed(None, [failure.value], [PaUnavailable])
    else
      var resultsByPeriod := Get(result.payload.entries, "resultsByPeriod", JDict([]));
      if !resultsByPeriod.JDict? then Parsed(None, [], [PaInvalid])
      else Parsed(PeriodSnapshot(resultsByPeriod.entries), [], [])
  }

  // ---------------------------------------------------------------------------
  // DPM: rebalance snapshot

  const NotAvailable := RebalanceSnapshot("NOT_AVAILABLE", None, None)

  /** The run summary of the first listed run, or `NOT_AVAILABLE`. */
  function LatestRun(items: Json): (r: RebalanceSnapshot)
    ensures !items.JList? || items.items == [] || !items.items[0].JDict? ==> r == NotAvailable
    ensures items.JList? && items.items != [] && items.items[0].JDict? ==>
              var latest := items.items[0].entries;
              && r.status == StrOr(latest, "status", "UNKNOWN")
              && r.lastRebalanceRunId == OptionalStr(latest, "rebalance_run_id")
              && (r.lastRunAtUtc.Some? <==> Get(latest, "created_at", JNull).JStr?)
              && (r.lastRunAtUtc.Some? ==> r.lastRunAtUtc.value == Get(latest, "created_at", JNull).s)
  {
    if !items.JList? || items.items == [] then NotAvailable
    else
      var latest := items.items[0];
      if !latest.JDict? then NotAvailable
      else
        var createdAt := Get(latest.entries, "created_at", JNull);
        var lastRunAtUtc := if createdAt.JStr? then Some(createdAt.s) else None;
        RebalanceSnapshot(StrOr(latest.entries, "status", "UNKNOWN"), OptionalStr(latest.entries, "rebalance_run_id"), lastRunAtUtc)
  }

  /** What `_parse_dpm_snapshot` returns and appends. */
  function DpmSnapshot(result: GatherResult): (r: Parsed<RebalanceSnapshot>)
    ensures r.failures == (if ResultFailure("dpm", result).Some? then [ResultFailure("dpm", result).value] else [])
    ensures r.failures != [] <==> r.warnings == [DpmUnavailable]
    ensures r.failures == [] ==> r.warnings == []
    ensures r.failures != [] <==> r.value.None?
    ensures r.value.Some? ==> r.value.value == LatestRun(Get(result.payload.entries, "items", JList([])))
  {
    var failure := ResultFailure("dpm", result);
    if failure.Some? then Parsed(None, [failure.value], [DpmUnavailable])
    else Parsed(Some(LatestRun(Get(result.payload.entries, "items", JList([])))), [], [])
  }

  // ---------------------------------------------------------------------------
  // Policy feedback

  datatype ProjectedPosition = ProjectedPosition(securityId: string, instrumentName: string, proposedQuantity: real, deltaQuantity: real)

  /** One position of the simulated portfolio; the quantity is sent as text with four
      decimals, which the model does not render. */
  datatype SimulatedPosition = SimulatedPosition(instrumentId: string, quantity: real)

  datatype PolicyFeedback = PolicyFeedback(status: string, detail: Option<string>, raw: Option<Json>)

  function IdempotencyKey(sessionId: string, sessionVersion: int): string
  {
    "sandbox-" + sessionId + "-" + IntToDecimal(sessionVersion)
  }

  /** Two versions of one sandbox session never share an idempotency key. */
  lemma IdempotencyKeyInjective(sessionId: string, v1: int, v2: int)
    ensures IdempotencyKey(sessionId, v1) == IdempotencyKey(sessionId, v2) ==> v1 == v2
  {
    var prefix := "sandbox-" + sessionId + "-";
    if IdempotencyKey(sessionId, v1) == IdempotencyKey(sessionId, v2) {
      assert IdempotencyKey(sessionId, v1)[|prefix|..] == IntToDecimal(v1);
      assert IdempotencyKey(sessionId, v2)[|prefix|..] == IntToDecimal(v2);
      IntToDecimalInjective(v1, v2);
    }
  }

  /** The positions sent for simulation: the rows with a positive proposed quantity. */
  function SimulatedPositions(rows: seq<ProjectedPosition>): (r: seq<SimulatedPosition>)
    ensures |r| <= |rows|
    ensures forall i :: 0 <= i < |r| ==> r[i].quantity > 0.0
    ensures forall i :: 0 <= i < |rows| && rows[i].proposedQuantity > 0.0 ==>
              SimulatedPosition(rows[i].securityId, rows[i].proposedQuantity) in r
    ensures forall p :: p in r ==> exists i :: 0 <= i < |rows| && p == SimulatedPosition(rows[i].securityId, rows[i].proposedQuantity)
  {
    if rows == [] then []
    else
      var rest := SimulatedPositions(rows[1..]);
      assert forall i :: 1 <= i < |rows| ==> rows[i] == rows[1..][i - 1];
      if rows[0].proposedQuantity > 0.0 then [SimulatedPosition(rows[0].securityId, rows[0].proposedQuantity)] + rest
      else rest
  }

  const PolicyUnavailableFeedback := PolicyFeedback("UNAVAILABLE", Some("Policy simulation unavailable"), None)

  /** The feedback `_evaluate_policy_feedback` returns for the simulation's answer. */
  function FeedbackOf(dpmStatus: int, dpmPayload: seq<Entry>): (r: PolicyFeedback)
    ensures r.raw == Some(JDict(dpmPayload))
    ensures dpmStatus >= 400 ==> r.status == "UNAVAILABLE" && r.detail == Some("Policy simulation unavailable")
    ensures dpmStatus < 400 && Get(dpmPayload, "gate_decision", JNull).JDict? ==>
              var gate := Get(dpmPayload, "gate_decision", JNull).entries;
              && r.status == StrOr(gate, "status", "UNKNOWN")
              && (r.detail.None? <==> StrOr(gate, "reason_code", "") == "")
              && (r.detail.Some? ==> r.detail.value == StrOr(gate, "reason_code", ""))
    ensures dpmStatus < 400 && !Get(dpmPayload, "gate_decision", JNull).JDict? ==>
              r.status == StrOr(dpmPayload, "status", "AVAILABLE") && r.detail.None?
  {
    if dpmStatus >= 400 then PolicyUnavailableFeedback.(raw := Some(JDict(dpmPayload)))
    else
      var gate := Get(dpmPayload, "gate_decision", JNull);
      if gate.JDict? then
        var reason := StrOr(gate.entries, "reason_code", "");
        PolicyFeedback(StrOr(gate.entries, "status", "UNKNOWN"), if reason == "" then None else Some(reason), Some(JDict(dpmPayload)))
      else PolicyFeedback(StrOr(dpmPayload, "status", "AVAILABLE"), None, Some(JDict(dpmPayload)))
  }

  /** The caller-owned lists the snapshot parsers and the policy evaluation append to. */
  class Degradations {
    var partialFailures: seq<PartialFailure>
    var warnings: seq<string>

    constructor ()
      ensures partialFailures == [] && warnings == []
    {
      partialFailures, warnings := [], [];
    }

    /** `_parse_pa_snapshot`. */
    method ParsePaSnapshot(result: GatherResult) returns (snapshot: Option<PerformanceSnapshot>)
      modifies this
      ensures snapshot == PaSnapshot(result).value
      ensures partialFailures == old(partialFailures) + PaSnapshot(result).failures
      ensures warnings == old(warnings) + PaSnapshot(result).warnings
    {
      var failure := ResultFailure("pa", result);
      if failure.Some? {
        partialFailures := partialFailures + [failure.value];
        warnings := warnings + [PaUnavailable];
        return None;
      }
      var resultsByPeriod := Get(result.payload.entries, "resultsByPeriod", JDict([]));
      if !resultsByPeriod.JDict? {
        warnings := warnings + [PaInvalid];
        return None;
      }
      snapshot := PeriodSnapshot(resultsByPeriod.entries);
    }

    /** `_parse_dpm_snapshot`. */
    method ParseDpmSnapshot(result: GatherResult) returns (snapshot: Option<RebalanceSnapshot>)
      modifies this
      ensures snapshot == DpmSnapshot(result).value
      ensures partialFailures == old(partialFailures) + DpmSnapshot(result).failures
      ensures warnings == old(warnings) + DpmSnapshot(result).warnings
    {
      var failure := ResultFailure("dpm", result);
      if failure.Some? {
        partialFailures := partialFailures + [failure.value];
        warnings := warnings + [DpmUnavailable];
        return None;
      }
      snapshot := Some(LatestRun(Get(result.payload.entries, "items", JList([]))));
    }

    /** `_evaluate_policy_feedback`, from the projected rows to the simulation's answer
        `(dpmStatus, dpmPayload)`; it returns the idempotency key and the positions it
        sends along with the feedback. */
    method EvaluatePolicyFeedback(sessionId: string, sessionVersion: int, projected: seq<ProjectedPosition>,
                                  dpmStatus: int, dpmPayload: seq<Entry>)
      returns (idempotencyKey: string, positions: seq<SimulatedPosition>, feedback: PolicyFeedback)
      modifies this
      ensures idempotencyKey == IdempotencyKey(sessionId, sessionVersion)
      ensures positions == SimulatedPositions(projected)
      ensures feedback == FeedbackOf(dpmStatus, dpmPayload)
      ensures dpmStatus >= 400 ==>
                && warnings == old(warnings) + [PolicyUnavailable]
                && partialFailures == old(partialFailures) +
                     [PartialFailure("dpm", "HTTP_" + IntToDecimal(dpmStatus), DetailText(dpmPayload))]
      ensures dpmStatus < 400 ==> warnings == old(warnings) && partialFailures == old(partialFailures)
    {
      positions := SimulatedPositions(projected);
      idempotencyKey := IdempotencyKey(sessionId, sessionVersion);
      if dpmStatus >= 400 {
        warnings := warnings + [PolicyUnavailable];
        partialFailures := partialFailures + [PartialFailure("dpm", "HTTP_" + IntToDecimal(dpmStatus), DetailText(dpmPayload))];
        feedback := PolicyUnavailableFeedback.(raw := Some(JDict(dpmPayload)));
        return;
      }
      feedback := FeedbackOf(dpmStatus, dpmPayload);
    }
  }

  // ---------------------------------------------------------------------------
  // PAS core snapshot

  /** `_raise_for_pas_error`: a status of 400 or more becomes a 502 naming the upstream detail. */
  function PasError(upstreamStatus: int, payload: seq<Entry>): (e: Option<HttpError>)
    ensures e.None? <==> upstreamStatus < 400
    ensures e.Some? ==> e.value.status == 502
    ensures e.Some? ==> e.value.detail == "PAS core snapshot unavailable: " + DetailText(payload)
    ensures e.Some? && Lookup(payload, JStr("detail")) == Some(JStr(DetailText(payload))) ==>
              e.value.detail == "PAS core snapshot unavailable: " + Lookup(payload, JStr("detail")).value.s
  {
    if upstreamStatus < 400 then None
    else Some(HttpError(502, "PAS core snapshot unavailable: " + DetailText(payload)))
  }

  datatype PortfolioSummary = PortfolioSummary(portfolioId: string, clientId: Option<string>, baseCurrency: string, bookingCenterCode: Option<string>)

  /** The overview totals; payload numbers are coerced with `float()` and the cash weight
      is computed in exact real arithmetic. */
  datatype OverviewSummary = OverviewSummary(marketValueBase: real, cashWeightPct: real, positionCount: nat)

  datatype CoreSnapshot = CoreSnapshot(portfolio: PortfolioSummary, overview: OverviewSummary, asOfDate: string)

  const InvalidCoreSnapshot := HttpError(502, "Invalid PAS core snapshot payload structure.")

  /** What the application's catch-all handler answers when an exception escapes a
      service, such as a failed `float()` conversion. */
  const UnexpectedError := HttpError(500, "An unexpected error occurred.")

  /** `float(value)`: it fails on `None`, and otherwise as `toFloat`, which stands for
      Python's `float()` on the other JSON values, says. */
  function FloatOf(value: Json, toFloat: Json -> Option<real>): Option<real>
  {
    if value == JNull then None else toFloat(value)
  }

  /** `float(d.get(key, default))` for a float literal `default`, which needs no conversion. */
  function FloatOr(entries: seq<Entry>, key: string, default: real, toFloat: Json -> Option<real>): Option<real>
  {
    var v := Lookup(entries, JStr(key));
    if v.None? then Some(default) else FloatOf(v.value, toFloat)
  }

  /** `payload.get(name, {})` on a payload that may not be a dict, where a non-dict payload
      counts as `{}`. */
  function Section(payload: Json, name: string): Json
  {
    if payload.JDict? then Get(payload.entries, name, JDict([])) else JDict([])
  }

  /** The snapshot's `overview` dict, `{}` when it is missing or not a dict. */
  function OverviewOf(snapshot: seq<Entry>): seq<Entry>
  {
    var overview := Get(snapshot, "overview", JDict([]));
    if overview.JDict? then overview.entries else []
  }

  /** The asset-class groups of a snapshot: `holdings.holdingsByAssetClass` when both are
      dicts, and no group otherwise. */
  function AssetClassGroups(snapshot: seq<Entry>): seq<Entry>
  {
    var holdings := Get(snapshot, "holdings", JDict([]));
    if !holdings.JDict? then []
    else
      var byAssetClass := Get(holdings.entries, "holdingsByAssetClass", JDict([]));
      if byAssetClass.JDict? then byAssetClass.entries else []
  }

  /** The summed length of the list-valued groups. */
  function ListLengthSum(groups: seq<Entry>): nat
  {
    if groups == [] then 0
    else
      var n := |groups| - 1;
      ListLengthSum(groups[..n]) + (if groups[n].value.JList? then |groups[n].value.items| else 0)
  }

  /** The `position_count` loop of `_parse_pas_core_snapshot`. */
  method CountPositions(groups: seq<Entry>) returns (count: nat)
    ensures count == ListLengthSum(groups)
  {
    count := 0;
    for i := 0 to |groups|
      invariant count == ListLengthSum(groups[..i])
    {
      assert groups[..i + 1][..i] == groups[..i];
      if groups[i].value.JList? {
        count := count + |groups[i].value.items|;
      }
    }
    assert groups[..|groups|] == groups;
  }

  /** The cash weight: the cash share of the market value, never negative, and zero when
      the market value is not positive. */
  function CashWeight(marketValue: real, cash: real): (w: real)
    ensures w >= 0.0
    ensures marketValue <= 0.0 ==> w == 0.0
    ensures marketValue > 0.0 && cash >= 0.0 ==> w * marketValue == cash
    ensures marketValue > 0.0 && cash < 0.0 ==> w == 0.0
  {
    if marketValue > 0.0 then (if cash / marketValue > 0.0 then cash / marketValue else 0.0) else 0.0
  }

  /** The portfolio summary, as-of date and position count of a parsed core snapshot:
      the payload's values as strings, with fallbacks for the portfolio id, the base
      currency (`USD`) and the as-of date, and `None` for a missing or null optional id. */
  predicate CoreFields(core: CoreSnapshot, portfolio: seq<Entry>, snapshot: seq<Entry>,
                       fallbackPortfolioId: string, fallbackAsOfDate: string)
  {
    && core.portfolio.portfolioId == StrOr(portfolio, "portfolio_id", fallbackPortfolioId)
    && core.portfolio.clientId == OptionalStr(portfolio, "cif_id")
    && core.portfolio.baseCurrency == StrOr(portfolio, "base_currency", "USD")
    && core.portfolio.bookingCenterCode == OptionalStr(portfolio, "booking_center")
    && core.asOfDate == StrOr(snapshot, "as_of_date", fallbackAsOfDate)
    && core.overview.positionCount == ListLengthSum(AssetClassGroups(snapshot))
  }

  /** `_parse_pas_core_snapshot`; `toFloat` is `float()`. */
  method ParsePasCoreSnapshot(fallbackPortfolioId: string, payload: Json, fallbackAsOfDate: string,
                              toFloat: Json -> Option<real>)
    returns (r: Result<CoreSnapshot, HttpError>)
    ensures !Section(payload, "portfolio").JDict? || !Section(payload, "snapshot").JDict? ==> r == Err(InvalidCoreSnapshot)
    ensures Section(payload, "portfolio").JDict? && Section(payload, "snapshot").JDict? ==>
              var overview := OverviewOf(Section(payload, "snapshot").entries);
              var marketValue := FloatOr(overview, "total_market_value", 0.0, toFloat);
              var cash := FloatOr(overview, "total_cash", 0.0, toFloat);
              (r.Err? <==> marketValue.None? || cash.None?) &&
              (r.Err? ==> r.error == UnexpectedError) &&
              (r.Ok? ==> r.value.overview.marketValueBase == marketValue.value &&
                         r.value.overview.cashWeightPct == CashWeight(marketValue.value, cash.value))
    ensures r.Ok? ==> CoreFields(r.value, Section(payload, "portfolio").entries, Section(payload, "snapshot").entries,
                                 fallbackPortfolioId, fallbackAsOfDate)
  {
    var portfolioPayload := Section(payload, "portfolio");
    var snapshotPayload := Section(payload, "snapshot");
    if !portfolioPayload.JDict? || !snapshotPayload.JDict? {
      return Err(InvalidCoreSnapshot);
    }
    var overviewPayload := OverviewOf(snapshotPayload.entries);
    var holdingsByAssetClass := AssetClassGroups(snapshotPayload.entries);
    var totalMarketValue := FloatOr(overviewPayload, "total_market_value", 0.0, toFloat);
    var totalCash := FloatOr(overviewPayload, "total_cash", 0.0, toFloat);
    if totalMarketValue.None? || totalCash.None? {
      return Err(UnexpectedError);
    }
    var cashWeight := CashWeight(totalMarketValue.value, totalCash.value);
    var positionCount := CountPositions(holdingsByAssetClass);
    var asOfDate := StrOr(snapshotPayload.entries, "as_of_date", fallbackAsOfDate);
    var portfolio := PortfolioSummary(
      StrOr(portfolioPayload.entries, "portfolio_id", fallbackPortfolioId),
      OptionalStr(portfolioPayload.entries, "cif_id"),
      StrOr(portfolioPayload.entries, "base_currency", "USD"),
      OptionalStr(portfolioPayload.entries, "booking_center"));
    return Ok(CoreSnapshot(portfolio, OverviewSummary(totalMarketValue.value, cashWeight, positionCount), asOfDate));
  }

  // ---------------------------------------------------------------------------
  // Current positions

  /** A current position. */
  datatype PositionView = PositionView(securityId: string, instrumentName: string, assetClass: Option<string>,
                                       quantity: real, marketValueBase: Option<real>, weightPct: Option<real>)

  const ValuationKeys: seq<string> := ["market_value_base", "market_value", "current_value_base", "current_value"]
  const ItemValueKeys: seq<string> := ValuationKeys + ["valuation_base", "value_base"]

  /** `float(d[key])` succeeds on a value that is not `None`; `toFloat` is `float()`. */
  predicate Usable(entries: seq<Entry>, key: string, toFloat: Json -> Option<real>)
  {
    Get(entries, key, JNull) != JNull && toFloat(Get(entries, key, JNull)).Some?
  }

  /** The index of the first usable key, or `|keys|` when none is usable. */
  function FirstUsable(entries: seq<Entry>, keys: seq<string>, toFloat: Json -> Option<real>): (i: nat)
    ensures i <= |keys|
    ensures forall j :: 0 <= j < i ==> !Usable(entries, keys[j], toFloat)
    ensures i < |keys| ==> Usable(entries, keys[i], toFloat)
  {
    if keys == [] then 0
    else if Usable(entries, keys[0], toFloat) then 0
    else
      assert forall j :: 1 <= j < |keys| ==> keys[j] == keys[1..][j - 1];
      1 + FirstUsable(entries, keys[1..], toFloat)
  }

  /** The value of the first usable key, in the order given. */
  function FirstValue(entries: seq<Entry>, keys: seq<string>, toFloat: Json -> Option<real>): (r: Option<real>)
    ensures r.None? <==> forall i :: 0 <= i < |keys| ==> !Usable(entries, keys[i], toFloat)
    ensures r.Some? ==> r == toFloat(Get(entries, keys[FirstUsable(entries, keys, toFloat)], JNull))
  {
    var i := FirstUsable(entries, keys, toFloat);
    if i == |keys| then None else toFloat(Get(entries, keys[i], JNull))
  }

  /** `_parse_position_market_value`: the nested `valuation` dict is searched first. */
  function PositionMarketValue(item: seq<Entry>, toFloat: Json -> Option<real>): (r: Option<real>)
    ensures var valuation := Get(item, "valuation", JNull);
      && (valuation.JDict? && FirstValue(valuation.entries, ValuationKeys, toFloat).Some? ==>
            r == FirstValue(valuation.entries, ValuationKeys, toFloat))
      && (!(valuation.JDict? && FirstValue(valuation.entries, ValuationKeys, toFloat).Some?) ==>
            r == FirstValue(item, ItemValueKeys, toFloat))
  {
    var valuation := Get(item, "valuation", JNull);
    var fromValuation := if valuation.JDict? then FirstValue(valuation.entries, ValuationKeys, toFloat) else None;
    if fromValuation.Some? then fromValuation else FirstValue(item, ItemValueKeys, toFloat)
  }

  /** A usable `market_value_base` wins over every other source of the value. */
  lemma MarketValueBaseFirst(item: seq<Entry>, toFloat: Json -> Option<real>)
    ensures Get(item, "valuation", JNull).JDict? && Usable(Get(item, "valuation", JNull).entries, "market_value_base", toFloat) ==>
              PositionMarketValue(item, toFloat) == toFloat(Get(Get(item, "valuation", JNull).entries, "market_value_base", JNull))
    ensures !Get(item, "valuation", JNull).JDict? && Usable(item, "market_value_base", toFloat) ==>
              PositionMarketValue(item, toFloat) == toFloat(Get(item, "market_value_base", JNull))
  {
    assert ValuationKeys[0] == "market_value_base" && ItemValueKeys[0] == "market_value_base";
  }

  /** The `weight_pct` derived when the item gives none: the position's percentage of the
      overview's market value, when both are known and that value is positive. */
  function DerivedWeight(marketValue: Option<real>, totalMarketValue: real): (w: Option<real>)
    ensures w.Some? <==> marketValue.Some? && totalMarketValue > 0.0
    ensures w.Some? ==> w.value * totalMarketValue == marketValue.value * 100.0
  {
    if marketValue.Some? && totalMarketValue > 0.0 then Some((marketValue.value / totalMarketValue) * 100.0) else None
  }

  /** The row `_extract_current_positions` builds for one dict item of a group, given the
      overview's market value; `None` when a `float()` conversion raises. */
  function RowOf(assetClass: Json, item: seq<Entry>, totalMarketValue: real, toFloat: Json -> Option<real>): (r: Option<PositionView>)
    ensures r.None? <==> FloatOr(item, "quantity", 0.0, toFloat).None? ||
                         (Get(item, "weight_pct", JNull) != JNull && toFloat(Get(item, "weight_pct", JNull)).None?)
    ensures r.Some? ==> r.value.quantity == FloatOr(item, "quantity", 0.0, toFloat).value
    ensures r.Some? ==> r.value.marketValueBase == PositionMarketValue(item, toFloat)
    ensures r.Some? ==> r.value.weightPct == if Get(item, "weight_pct", JNull) != JNull then toFloat(Get(item, "weight_pct", JNull))
                                             else DerivedWeight(r.value.marketValueBase, totalMarketValue)
  {
    var rawWeight := Get(item, "weight_pct", JNull);
    var quantity := FloatOr(item, "quantity", 0.0, toFloat);
    if quantity.None? || (rawWeight != JNull && toFloat(rawWeight).None?) then None
    else
      var marketValue := PositionMarketValue(item, toFloat);
      var weight := if rawWeight != JNull then toFloat(rawWeight) else DerivedWeight(marketValue, totalMarketValue);
      Some(PositionView(
        Str(Get(item, "instrument_id", Get(item, "security_id", JStr("UNKNOWN")))),
        Str(Get(item, "instrument_name", Get(item, "instrument_id", JStr("UNKNOWN")))),
        if assetClass != JNull then Some(Str(assetClass)) else None,
        quantity.value, marketValue, weight))
  }

  /** The rows of the dict items of one group, in order; `None` once a row fails. */
  function ItemRows(assetClass: Json, items: seq<Json>, total: real, toFloat: Json -> Option<real>): Option<seq<PositionView>>
  {
    if items == [] then Some([])
    else
      var n := |items| - 1;
      var prefix := ItemRows(assetClass, items[..n], total, toFloat);
      if prefix.None? || !items[n].JDict? then prefix
      else
        var row := RowOf(assetClass, items[n].entries, total, toFloat);
        if row.None? then None else Some(prefix.value + [row.value])
  }

  /** The rows of the list-valued groups, group by group, before sorting; `None` once a
      row fails. */
  function GroupRows(groups: seq<Entry>, total: real, toFloat: Json -> Option<real>): Option<seq<PositionView>>
  {
    if groups == [] then Some([])
    else
      var n := |groups| - 1;
      var prefix := GroupRows(groups[..n], total, toFloat);
      if prefix.None? || !groups[n].value.JList? then prefix
      else
        var rows := ItemRows(groups[n].key, groups[n].value.items, total, toFloat);
        if rows.None? then None else Some(prefix.value + rows.value)
  }

  /** A conversion that raises on one item aborts the whole group. */
  lemma {:induction false} ItemRowsFailureSticks(assetClass: Json, items: seq<Json>, total: real, toFloat: Json -> Option<real>, j: nat)
    requires j <= |items| && ItemRows(assetClass, items[..j], total, toFloat).None?
    ensures ItemRows(assetClass, items, total, toFloat).None?
  {
    if j == |items| {
      assert items[..j] == items;
    } else {
      var n := |items| - 1;
      assert items[..n][..j] == items[..j];
      ItemRowsFailureSticks(assetClass, items[..n], total, toFloat, j);
    }
  }

  /** A conversion that raises in one group aborts the whole extraction. */
  lemma {:induction false} GroupRowsFailureSticks(groups: seq<Entry>, total: real, toFloat: Json -> Option<real>, j: nat)
    requires j <= |groups| && GroupRows(groups[..j], total, toFloat).None?
    ensures GroupRows(groups, total, toFloat).None?
  {
    if j == |groups| {
      assert groups[..j] == groups;
    } else {
      var n := |groups| - 1;
      assert groups[..n][..j] == groups[..j];
      GroupRowsFailureSticks(groups[..n], total, toFloat, j);
    }
  }

  /** One more item: a non-dict item adds nothing, a dict item adds its row or fails. */
  lemma ItemRowsStep(assetClass: Json, items: seq<Json>, total: real, toFloat: Json -> Option<real>, j: nat)
    requires j < |items| && ItemRows(assetClass, items[..j], total, toFloat).Some?
    ensures !items[j].JDict? ==> ItemRows(assetClass, items[..j + 1], total, toFloat) == ItemRows(assetClass, items[..j], total, toFloat)
    ensures items[j].JDict? ==>
              var row := RowOf(assetClass, items[j].entries, total, toFloat);
              ItemRows(assetClass, items[..j + 1], total, toFloat) ==
                if row.None? then None else Some(ItemRows(assetClass, items[..j], total, toFloat).value + [row.value])
  {
    assert items[..j + 1][..j] == items[..j];
  }

  predicate BySecurityId(a: PositionView, b: PositionView)
  {
    StrLe(a.securityId, b.securityId)
  }

  lemma BySecurityIdTotal()
    ensures Sorting.TotalPreorder(BySecurityId)
  {
    forall a: PositionView, b: PositionView ensures BySecurityId(a, b) || BySecurityId(b, a) {
      StrLeTotal(a.securityId, b.securityId);
    }
    forall a: PositionView, b: PositionView, c: PositionView | BySecurityId(a, b) && BySecurityId(b, c)
      ensures BySecurityId(a, c)
    {
      StrLeTransitive(a.securityId, b.securityId, c.securityId);
    }
  }

  /** The inner loop of `_extract_current_positions`, over the items of one group; it
      stops at the first row whose conversion raises. */
  method AppendItemRows(rows: seq<PositionView>, assetClass: Json, items: seq<Json>, total: real,
                        toFloat: Json -> Option<real>)
    returns (r: Option<seq<PositionView>>)
    ensures var group := ItemRows(assetClass, items, total, toFloat);
      (r.None? <==> group.None?) && (r.Some? ==> r.value == rows + group.value)
  {
    var acc := rows;
    for j := 0 to |items|
      invariant ItemRows(assetClass, items[..j], total, toFloat).Some?
      invariant acc == rows + ItemRows(assetClass, items[..j], total, toFloat).value
    {
      ghost var done := ItemRows(assetClass, items[..j], total, toFloat).value;
      ItemRowsStep(assetClass, items, total, toFloat, j);
      if items[j].JDict? {
        var row := RowOf(assetClass, items[j].entries, total, toFloat);
        if row.None? {
          ItemRowsFailureSticks(assetClass, items, total, toFloat, j + 1);
          return None;
        }
        assert ItemRows(assetClass, items[..j + 1], total, toFloat) == Some(done + [row.value]);
        acc := acc + [row.value];
        assert acc == rows + (done + [row.value]);
      }
    }
    assert items[..|items|] == items;
    r := Some(acc);
  }

  /** The overview's `total_market_value`, which `_extract_current_positions` converts only
      when the overview is a dict. */
  function MarketValueOf(snapshot: seq<Entry>, toFloat: Json -> Option<real>): Option<real>
  {
    FloatOr(OverviewOf(snapshot), "total_market_value", 0.0, toFloat)
  }

  /** `_extract_current_positions`: the rows of every dict item in a list-valued group,
      sorted by security id, or the catch-all error when a `float()` conversion raises. */
  method ExtractCurrentPositions(snapshot: seq<Entry>, toFloat: Json -> Option<real>)
    returns (r: Result<seq<PositionView>, HttpError>)
    ensures MarketValueOf(snapshot, toFloat).None? ==> r == Err(UnexpectedError)
    ensures MarketValueOf(snapshot, toFloat).Some? ==>
              var rows := GroupRows(AssetClassGroups(snapshot), MarketValueOf(snapshot, toFloat).value, toFloat);
              && (r.Err? <==> rows.None?)
              && (r.Err? ==> r.error == UnexpectedError)
              && (r.Ok? ==> multiset(r.value) == multiset(rows.value) && Sorting.SortedBy(r.value, BySecurityId))
              && (r.Ok? ==> forall y :: Sorting.Level(r.value, y, BySecurityId) == Sorting.Level(rows.value, y, BySecurityId))
    ensures MarketValueOf(snapshot, toFloat).Some? && AssetClassGroups(snapshot) == [] ==> r == Ok([])
  {
    var total := MarketValueOf(snapshot, toFloat);
    if total.None? {
      return Err(UnexpectedError);
    }
    var groups := AssetClassGroups(snapshot);
    var rows := [];
    for g := 0 to |groups|
      invariant GroupRows(groups[..g], total.value, toFloat).Some?
      invariant rows == GroupRows(groups[..g], total.value, toFloat).value
    {
      assert groups[..g + 1][..g] == groups[..g];
      if groups[g].value.JList? {
        var extended := AppendItemRows(rows, groups[g].key, groups[g].value.items, total.value, toFloat);
        if extended.None? {
          GroupRowsFailureSticks(groups, total.value, toFloat, g + 1);
          return Err(UnexpectedError);
        }
        rows := extended.value;
      }
    }
    assert groups[..|groups|] == groups;
    BySecurityIdTotal();
    forall y ensures Sorting.Level(Sorting.Sort(rows, BySecurityId), y, BySecurityId) == Sorting.Level(rows, y, BySecurityId) {
      Sorting.SortStable(rows, y, BySecurityId);
    }
    r := Ok(Sorting.Sort(rows, BySecurityId));
  }

  lemma {:induction false} ItemRowsBound(assetClass: Json, items: seq<Json>, total: real, toFloat: Json -> Option<real>)
    ensures ItemRows(assetClass, items, total, toFloat).Some? ==> |ItemRows(assetClass, items, total, toFloat).value| <= |items|
    ensures ItemRows(assetClass, items, total, toFloat).Some? && (forall i :: 0 <= i < |items| ==> items[i].JDict?) ==>
              |ItemRows(assetClass, items, total, toFloat).value| == |items|
  {
    if items != [] {
      var n := |items| - 1;
      ItemRowsBound(assetClass, items[..n], total, toFloat);
      assert forall i :: 0 <= i < n ==> items[..n][i] == items[i];
      if ItemRows(assetClass, items[..n], total, toFloat).Some? {
        ItemRowsStep(assetClass, items, total, toFloat, n);
        assert items[..n + 1] == items;
      }
    }
  }

  /** There are never more current positions than the overview's `position_count`, and
      exactly as many when every item is a dict. */
  lemma {:induction false} PositionsWithinCount(groups: seq<Entry>, total: real, toFloat: Json -> Option<real>)
    ensures GroupRows(groups, total, toFloat).Some? ==> |GroupRows(groups, total, toFloat).value| <= ListLengthSum(groups)
    ensures GroupRows(groups, total, toFloat).Some? &&
            (forall g, i :: 0 <= g < |groups| && groups[g].value.JList? && 0 <= i < |groups[g].value.items| ==>
               groups[g].value.items[i].JDict?) ==>
              |GroupRows(groups, total, toFloat).value| == ListLengthSum(groups)
  {
    if groups != [] {
      var n := |groups| - 1;
      PositionsWithinCount(groups[..n], total, toFloat);
      if groups[n].value.JList? {
        ItemRowsBound(groups[n].key, groups[n].value.items, total, toFloat);
      }
    }
  }

  // ---------------------------------------------------------------------------
  // Top changes

  datatype TopChange = TopChange(securityId: string, instrumentName: string, deltaQuantity: real, direction: string)

  function Abs(x: real): real
  {
    if x < 0.0 then -x else x
  }

  /** The key of `sorted(..., key=abs(delta), reverse=True)`. */
  predicate ByMagnitudeDesc(a: ProjectedPosition, b: ProjectedPosition)
  {
    Abs(a.deltaQuantity) >= Abs(b.deltaQuantity)
  }

  lemma ByMagnitudeDescTotal()
    ensures Sorting.TotalPreorder(ByMagnitudeDesc)
  {
  }

  function Ranked(rows: seq<ProjectedPosition>): seq<ProjectedPosition>
  {
    Sorting.Sort(rows, ByMagnitudeDesc)
  }

  function ChangeOf(p: ProjectedPosition): (c: TopChange)
    ensures c.securityId == p.securityId && c.instrumentName == p.instrumentName && c.deltaQuantity == p.deltaQuantity
    ensures c.direction == "INCREASE" <==> p.deltaQuantity >= 0.0
    ensures c.direction == "DECREASE" <==> p.deltaQuantity < 0.0
  {
    TopChange(p.securityId, p.instrumentName, p.deltaQuantity, if p.deltaQuantity >= 0.0 then "INCREASE" else "DECREASE")
  }

  /** The ranking keeps the rows and orders them by non-increasing absolute delta. */
  lemma RankedProperties(rows: seq<ProjectedPosition>)
    ensures |Ranked(rows)| == |rows|
    ensures forall i :: 0 <= i < |rows| ==> Ranked(rows)[i] in rows
    ensures forall i, j :: 0 <= i < j < |rows| ==> Abs(Ranked(rows)[i].deltaQuantity) >= Abs(Ranked(rows)[j].deltaQuantity)
  {
    var ranked := Ranked(rows);
    ByMagnitudeDescTotal();
    forall i | 0 <= i < |rows| ensures ranked[i] in rows {
      assert ranked[i] in multiset(ranked);
    }
    forall i, j | 0 <= i < j < |rows| ensures Abs(ranked[i].deltaQuantity) >= Abs(ranked[j].deltaQuantity) {
      assert ByMagnitudeDesc(ranked[i], ranked[j]);
    }
  }

  /** `sorted(..., reverse=True)` is stable, so rows of equal absolute delta keep their
      input order in the ranking. */
  lemma RankedStable(rows: seq<ProjectedPosition>, y: ProjectedPosition)
    ensures Sorting.Level(Ranked(rows), y, ByMagnitudeDesc) == Sorting.Level(rows, y, ByMagnitudeDesc)
  {
    ByMagnitudeDescTotal();
    Sorting.SortStable(rows, y, ByMagnitudeDesc);
  }

  /** `_top_changes`: at most ten rows, largest absolute delta first. */
  function TopChanges(rows: seq<ProjectedPosition>): (r: seq<TopChange>)
    ensures |r| == if |rows| < 10 then |rows| else 10
    ensures forall i :: 0 <= i < |r| ==> Ranked(rows)[i] in rows && r[i] == ChangeOf(Ranked(rows)[i])
    ensures forall i, j :: 0 <= i < j < |r| ==> Abs(r[i].deltaQuantity) >= Abs(r[j].deltaQuantity)
  {
    RankedProperties(rows);
    var k := if |rows| < 10 then |rows| else 10;
    seq(k, i requires 0 <= i < k => ChangeOf(Ranked(rows)[i]))
  }

  /** Nothing left out of the top changes has a larger absolute delta than one kept. */
  lemma TopChangesAreLargest(rows: seq<ProjectedPosition>)
    ensures forall i, y :: 0 <= i < |TopChanges(rows)| && y in multiset(rows) - multiset(Ranked(rows)[..|TopChanges(rows)|]) ==>
              Abs(y.deltaQuantity) <= Abs(TopChanges(rows)[i].deltaQuantity)
  {
    var ranked, r := Ranked(rows), TopChanges(rows);
    var k := |r|;
    ByMagnitudeDescTotal();
    assert ranked == ranked[..k] + ranked[k..];
    assert multiset(rows) - multiset(ranked[..k]) == multiset(ranked[k..]);
    SuffixNoLarger(ranked, k);
    assert forall i :: 0 <= i < k ==> r[i].deltaQuantity == ranked[i].deltaQuantity;
  }

  /** In a ranking by non-increasing magnitude, no row after the first `k` outranks one of them. */
  lemma SuffixNoLarger(ranked: seq<ProjectedPosition>, k: nat)
    requires k <= |ranked| && Sorting.SortedBy(ranked, ByMagnitudeDesc)
    ensures forall i, y :: 0 <= i < k && y in multiset(ranked[k..]) ==> Abs(y.deltaQuantity) <= Abs(ranked[i].deltaQuantity)
  {
    forall i, y | 0 <= i < k && y in multiset(ranked[k..])
      ensures Abs(y.deltaQuantity) <= Abs(ranked[i].deltaQuantity)
    {
      assert y in ranked[k..];
      var j :| 0 <= j < |ranked[k..]| && ranked[k..][j] == y;
      assert ranked[k + j] == y;
      assert ByMagnitudeDesc(ranked[i], ranked[k + j]);
    }
  }

  // ---------------------------------------------------------------------------
  // Overview

  datatype WorkbenchOverview = WorkbenchOverview(
    correlationId: string,
    contractVersion: string,
    asOfDate: string,
    portfolio: PortfolioSummary,
    overview: OverviewSummary,
    performanceSnapshot: Option<PerformanceSnapshot>,
    rebalanceSnapshot: Option<RebalanceSnapshot>,
    warnings: seq<string>,
    partialFailures: seq<PartialFailure>)

  /** The degradable half of `get_workbench_overview`: both snapshot parsers append, PA
      first, to two lists that start empty. */
  method ComposeOverview(correlationId: string, contractVersion: string, core: CoreSnapshot,
                         paResult: GatherResult, dpmResult: GatherResult)
    returns (r: WorkbenchOverview)
    ensures r.correlationId == correlationId && r.contractVersion == contractVersion
    ensures r.asOfDate == core.asOfDate && r.portfolio == core.portfolio && r.overview == core.overview
    ensures r.performanceSnapshot == PaSnapshot(paResult).value
    ensures r.rebalanceSnapshot == DpmSnapshot(dpmResult).value
    ensures r.warnings == PaSnapshot(paResult).warnings + DpmSnapshot(dpmResult).warnings
    ensures r.partialFailures == PaSnapshot(paResult).failures + DpmSnapshot(dpmResult).failures
    ensures |r.partialFailures| <= 2
  {
    var degradations := new Degradations();
    var performanceSnapshot := degradations.ParsePaSnapshot(paResult);
    var rebalanceSnapshot := degradations.ParseDpmSnapshot(dpmResult);
    r := WorkbenchOverview(correlationId, contractVersion, core.asOfDate, core.portfolio, core.overview,
                           performanceSnapshot, rebalanceSnapshot, degradations.warnings, degradations.partialFailures);
  }

  /** `get_workbench_overview`, from the PAS answer and the gathered PA and DPM results;
      `today` is `date.today().isoformat()` and `toFloat` is `float()`. */
  method GetWorkbenchOverview(portfolioId: string, correlationId: string, contractVersion: string, today: string,
                              pasStatus: int, pasPayload: seq<Entry>, paResult: GatherResult, dpmResult: GatherResult,
                              toFloat: Json -> Option<real>)
    returns (r: Result<WorkbenchOverview, HttpError>)
    ensures pasStatus >= 400 ==> r == Err(PasError(pasStatus, pasPayload).value)
    ensures pasStatus < 400 && !(Get(pasPayload, "portfolio", JDict([])).JDict? && Get(pasPayload, "snapshot", JDict([])).JDict?) ==>
              r == Err(InvalidCoreSnapshot)
    ensures pasStatus < 400 && Get(pasPayload, "portfolio", JDict([])).JDict? && Get(pasPayload, "snapshot", JDict([])).JDict? ==>
              var portfolio := Get(pasPayload, "portfolio", JDict([])).entries;
              var snapshot := Get(pasPayload, "snapshot", JDict([])).entries;
              var marketValue := FloatOr(OverviewOf(snapshot), "total_market_value", 0.0, toFloat);
              var cash := FloatOr(OverviewOf(snapshot), "total_cash", 0.0, toFloat);
              && (r.Err? <==> marketValue.None? || cash.None?)
              && (r.Err? ==> r.error == UnexpectedError)
              && (r.Ok? ==>
                    && r.value.correlationId == correlationId && r.value.contractVersion == contractVersion
                    && CoreFields(CoreSnapshot(r.value.portfolio, r.value.overview, r.value.asOfDate),
                                  portfolio, snapshot, portfolioId, today)
                    && r.value.overview.marketValueBase == marketValue.value
                    && r.value.overview.cashWeightPct == CashWeight(marketValue.value, cash.value)
                    && r.value.performanceSnapshot == PaSnapshot(paResult).value
                    && r.value.rebalanceSnapshot == DpmSnapshot(dpmResult).value
                    && r.value.warnings == PaSnapshot(paResult).warnings + DpmSnapshot(dpmResult).warnings
                    && r.value.partialFailures == PaSnapshot(paResult).failures + DpmSnapshot(dpmResult).failures)
  {
    var pasError := PasError(pasStatus, pasPayload);
    if pasError.Some? {
      return Err(pasError.value);
    }
    var core := ParsePasCoreSnapshot(portfolioId, JDict(pasPayload), today, toFloat);
    if core.Err? {
      return Err(core.error);
    }
    var overview := ComposeOverview(correlationId, contractVersion, core.value, paResult, dpmResult);
    return Ok(overview);
  }

  /** The PAS answer of the service's unit tests: an empty portfolio and an empty snapshot. */
  const EmptyCorePayload := [Entry(JStr("portfolio"), JDict([])), Entry(JStr("snapshot"), JDict([]))]

  lemma EmptyCorePayloadShape()
    ensures Get(EmptyCorePayload, "portfolio", JDict([])) == JDict([])
    ensures Get(EmptyCorePayload, "snapshot", JDict([])) == JDict([])
  {
    assert EmptyCorePayload[0].key == JStr("portfolio");
    assert EmptyCorePayload[1..][0].key == JStr("snapshot");
  }

  /** An HTTP error from PA or DPM hides that snapshot and records exactly one failure,
      attributed to that service. */
  lemma UnavailableSnapshots(pa: GatherResult, dpm: GatherResult)
    requires pa.Returned? && pa.payload.JDict? && pa.status >= 400
    requires dpm.Returned? && dpm.payload.JDict? && dpm.status >= 400
    ensures PaSnapshot(pa).value.None? && PaSnapshot(pa).warnings == [PaUnavailable]
    ensures |PaSnapshot(pa).failures| == 1 && PaSnapshot(pa).failures[0].sourceService == "pa"
    ensures DpmSnapshot(dpm).value.None? && DpmSnapshot(dpm).warnings == [DpmUnavailable]
    ensures |DpmSnapshot(dpm).failures| == 1 && DpmSnapshot(dpm).failures[0].sourceService == "dpm"
    ensures PaSnapshot(pa).warnings + DpmSnapshot(dpm).warnings == [PaUnavailable, DpmUnavailable]
    ensures var failures := PaSnapshot(pa).failures + DpmSnapshot(dpm).failures;
      |failures| == 2 && failures[0].sourceService == "pa" && failures[1].sourceService == "dpm"
  {
  }

  /** A snapshot without an overview converts nothing: both totals default to zero. */
  lemma EmptySnapshotConverts(toFloat: Json -> Option<real>)
    ensures FloatOr(OverviewOf([]), "total_market_value", 0.0, toFloat) == Some(0.0)
    ensures FloatOr(OverviewOf([]), "total_cash", 0.0, toFloat) == Some(0.0)
  {
  }

  /** The partial-failure scenario of the service's unit tests: PA answers 503 and DPM 500,
      so neither snapshot is shown, two failures are recorded and the warnings list PA first. */
  method BothSnapshotsUnavailable() returns (r: Result<WorkbenchOverview, HttpError>)
    ensures r.Ok?
    ensures r.value.performanceSnapshot.None? && r.value.rebalanceSnapshot.None?
    ensures |r.value.partialFailures| == 2
    ensures r.value.warnings == [PaUnavailable, DpmUnavailable]
    ensures r.value.partialFailures[0].sourceService == "pa" && r.value.partialFailures[1].sourceService == "dpm"
  {
    var pa, dpm := Returned(503, DetailDict(JStr("pa unavailable"))), Returned(500, DetailDict(JStr("dpm unavailable")));
    var toFloat: Json -> Option<real> := _ => None;
    EmptyCorePayloadShape();
    EmptySnapshotConverts(toFloat);
    UnavailableSnapshots(pa, dpm);
    r := GetWorkbenchOverview("PF_1001", "corr-2", "v1", "2026-02-23", 200, EmptyCorePayload, pa, dpm, toFloat);
  }
}
