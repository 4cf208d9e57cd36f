/** The platform-capabilities aggregation: three capability calls (`pas`, `pa`, `dpm`)
    fanned out together, each outcome classified into a source or an error, and a
    normalised, presentation-ready view derived from the sources that answered. The
    concurrent gather is its ordered result list. */
module Capabilities {
  import opened Wrappers
  import opened Json

  /** What `asyncio.gather(..., return_exceptions=True)` yields for one call. */
  datatype UpstreamResult = Raised(message: string) | Returned(status: int, payload: Json)

  datatype CapabilityError = CapabilityError(service: string, statusCode: int, detail: string)

  datatype Navigation = Navigation(
    commandCenter: bool,
    portfolioIntake: bool,
    analyticsStudio: bool,
    advisoryPipeline: bool,
    scenarioBuilder: bool,
    decisionConsole: bool)

  datatype WorkflowFlags = WorkflowFlags(
    proposalLifecycle: bool,
    proposalApprovalFlow: bool,
    portfolioBulkOnboarding: bool,
    performanceSnapshot: bool)

  /** The five feature lookups the navigation flags are built from. */
  datatype Features = Features(
    pasCoreSnapshot: bool,
    pasIntake: bool,
    paAnalytics: bool,
    dpmLifecycle: bool,
    dpmSupport: bool)

  datatype Normalized = Normalized(
    navigation: Navigation,
    workflowFlags: WorkflowFlags,
    inputModesBySource: seq<(string, seq<string>)>,
    inputModesUnion: seq<string>,
    moduleHealth: map<string, string>)

  datatype CapabilitiesData = CapabilitiesData(
    consumerSystem: string,
    tenantId: string,
    contractVersion: string,
    sources: seq<(string, Json)>,
    partialFailure: bool,
    errors: seq<CapabilityError>,
    normalized: Normalized)

  /** The declared order of the fan-out. */
  const ServiceNames: seq<string> := ["pas", "pa", "dpm"]

  /** Every returned payload is a dict, as the clients' executor guarantees. */
  predicate PayloadsAreDicts(results: seq<UpstreamResult>)
  {
    forall i :: 0 <= i < |results| && results[i].Returned? ==> results[i].payload.JDict?
  }

  predicate Distinct(names: seq<string>)
  {
    forall i, j :: 0 <= i < j < |names| ==> names[i] != names[j]
  }

  predicate Succeeded(r: UpstreamResult)
  {
    r.Returned? && r.status < 400
  }

  /** The error recorded for a call that raised or answered with a status of 400 or more. */
  function ErrorFor(service: string, r: UpstreamResult): (e: CapabilityError)
    requires r.Returned? ==> r.payload.JDict?
    ensures e.service == service
    ensures r.Raised? ==> e.statusCode == 500 && e.detail == "upstream_exception: " + r.message
    ensures r.Returned? ==> e.statusCode == r.status && e.detail == DetailText(r.payload.entries)
  {
    match r
    case Raised(m) => CapabilityError(service, 500, "upstream_exception: " + m)
    case Returned(s, p) => CapabilityError(service, s, DetailText(p.entries))
  }

  /** The sources the classification loop has registered after the given results. */
  function SourcesOf(names: seq<string>, results: seq<UpstreamResult>): seq<(string, Json)>
    requires |names| == |results|
  {
    if results == [] then []
    else
      var n := |results| - 1;
      var init := SourcesOf(names[..n], results[..n]);
      init + (if Succeeded(results[n]) then [(names[n], results[n].payload)] else [])
  }

  /** The errors the classification loop has appended after the given results. */
  function ErrorsOf(names: seq<string>, results: seq<UpstreamResult>): seq<CapabilityError>
    requires |names| == |results| && PayloadsAreDicts(results)
  {
    if results == [] then []
    else
      var n := |results| - 1;
      var init := ErrorsOf(names[..n], results[..n]);
      init + (if Succeeded(results[n]) then [] else [ErrorFor(names[n], results[n])])
  }

  predicate HasSource(sources: seq<(string, Json)>, name: string)
  {
    exists i :: 0 <= i < |sources| && sources[i].0 == name
  }

  predicate HasError(errors: seq<CapabilityError>, name: string)
  {
    exists i :: 0 <= i < |errors| && errors[i].service == name
  }

  /** The index of `name` in the declared order. */
  function Position(names: seq<string>, name: string): (k: nat)
    requires name in names
    ensures k < |names| && names[k] == name
    ensures forall j :: 0 <= j < k ==> names[j] != name
  {
    if names[0] == name then 0 else 1 + Position(names[1..], name)
  }

  /** The classification loop of `get_platform_capabilities`. */
  method CollectResults(results: seq<UpstreamResult>) returns (sources: seq<(string, Json)>, errors: seq<CapabilityError>)
    requires |results| == |ServiceNames| && PayloadsAreDicts(results)
    ensures sources == SourcesOf(ServiceNames, results)
    ensures errors == ErrorsOf(ServiceNames, results)
  {
    sources, errors := [], [];
    var i := 0;
    while i < |results|
      invariant 0 <= i <= |results|
      invariant sources == SourcesOf(ServiceNames[..i], results[..i])
      invariant errors == ErrorsOf(ServiceNames[..i], results[..i])
    {
      var name, result := ServiceNames[i], results[i];
      assert ServiceNames[..i + 1][..i] == ServiceNames[..i] && results[..i + 1][..i] == results[..i];
      if result.Raised? {
        errors := errors + [CapabilityError(name, 500, "upstream_exception: " + result.message)];
        i := i + 1;
        continue;
      }
      if result.status >= 400 {
        errors := errors + [CapabilityError(name, result.status, DetailText(result.payload.entries))];
        i := i + 1;
        continue;
      }
      sources := sources + [(name, result.payload)];
      i := i + 1;
    }
    assert ServiceNames[..i] == ServiceNames && results[..i] == results;
  }

  /** Every declared call ends up in exactly one bucket. */
  lemma {:induction false} FanOutPartition(names: seq<string>, results: seq<UpstreamResult>)
    requires |names| == |results| && PayloadsAreDicts(results)
    ensures |SourcesOf(names, results)| + |ErrorsOf(names, results)| == |names|
  {
    if results != [] {
      var n := |results| - 1;
      FanOutPartition(names[..n], results[..n]);
    }
  }

  /** A name is among the sources exactly when one of its calls answered below 400. */
  lemma {:induction false} SourceMembership(names: seq<string>, results: seq<UpstreamResult>, x: string)
    requires |names| == |results|
    ensures HasSource(SourcesOf(names, results), x) <==>
              exists k :: 0 <= k < |names| && names[k] == x && Succeeded(results[k])
  {
    if results != [] {
      var n := |results| - 1;
      SourceMembership(names[..n], results[..n], x);
      var sources, sources' := SourcesOf(names, results), SourcesOf(names[..n], results[..n]);
      if HasSource(sources, x) {
        var i :| 0 <= i < |sources| && sources[i].0 == x;
        if i < |sources'| {
          assert sources'[i].0 == x;
          var k :| 0 <= k < n && names[..n][k] == x && Succeeded(results[..n][k]);
          assert names[k] == x && Succeeded(results[k]);
        } else {
          assert names[n] == x && Succeeded(results[n]);
        }
      }
      if exists k :: 0 <= k < |names| && names[k] == x && Succeeded(results[k]) {
        var k :| 0 <= k < |names| && names[k] == x && Succeeded(results[k]);
        if k < n {
          assert names[..n][k] == x && results[..n][k] == results[k];
          var i :| 0 <= i < |sources'| && sources'[i].0 == x;
          assert sources[i].0 == x;
        } else {
          assert sources[|sources'|].0 == x;
        }
      }
    }
  }

  /** A name is among the errors exactly when one of its calls raised or answered with a
      status of 400 or more. */
  lemma {:induction false} ErrorMembership(names: seq<string>, results: seq<UpstreamResult>, x: string)
    requires |names| == |results| && PayloadsAreDicts(results)
    ensures HasError(ErrorsOf(names, results), x) <==>
              exists k :: 0 <= k < |names| && names[k] == x && !Succeeded(results[k])
  {
    if results != [] {
      var n := |results| - 1;
      ErrorMembership(names[..n], results[..n], x);
      var tail := if Succeeded(results[n]) then [] else [ErrorFor(names[n], results[n])];
      HasErrorAppend(ErrorsOf(names[..n], results[..n]), tail, x);
      assert HasError(tail, x) <==> names[n] == x && !Succeeded(results[n]) by {
        if !Succeeded(results[n]) { assert tail[0].service == names[n]; }
      }
      assert forall k :: 0 <= k < n ==> names[..n][k] == names[k] && results[..n][k] == results[k];
    }
  }

  lemma HasErrorAppend(a: seq<CapabilityError>, b: seq<CapabilityError>, x: string)
    ensures HasError(a + b, x) <==> HasError(a, x) || HasError(b, x)
  {
    if HasError(a + b, x) {
      var i :| 0 <= i < |a + b| && (a + b)[i].service == x;
      if i >= |a| { assert b[i - |a|].service == x; }
    }
    if HasError(a, x) {
      var i :| 0 <= i < |a| && a[i].service == x;
      assert (a + b)[i].service == x;
    }
    if HasError(b, x) {
      var i :| 0 <= i < |b| && b[i].service == x;
      assert (a + b)[|a| + i].service == x;
    }
  }

  /** With distinct names, each declared service lands in exactly one bucket: a source
      holding its payload when its call answered below 400, an error otherwise. */
  lemma FanOutPlacement(names: seq<string>, results: seq<UpstreamResult>, k: nat)
    requires |names| == |results| && PayloadsAreDicts(results) && Distinct(names) && k < |names|
    ensures HasSource(SourcesOf(names, results), names[k]) <==> Succeeded(results[k])
    ensures HasError(ErrorsOf(names, results), names[k]) <==> !Succeeded(results[k])
  {
    SourceMembership(names, results, names[k]);
    ErrorMembership(names, results, names[k]);
  }

  /** A successful call's payload is stored unchanged and a failed call's error is the
      one `ErrorFor` builds. */
  lemma {:induction false} BucketContents(names: seq<string>, results: seq<UpstreamResult>, k: nat)
    requires |names| == |results| && PayloadsAreDicts(results) && k < |names|
    ensures Succeeded(results[k]) ==> (names[k], results[k].payload) in SourcesOf(names, results)
    ensures !Succeeded(results[k]) ==> ErrorFor(names[k], results[k]) in ErrorsOf(names, results)
  {
    var n := |results| - 1;
    if k < n {
      BucketContents(names[..n], results[..n], k);
      assert names[..n][k] == names[k] && results[..n][k] == results[k];
    }
  }

  /** The positions of the calls that did not succeed, in declared order. */
  function FailedCalls(results: seq<UpstreamResult>): (r: seq<nat>)
    ensures forall i :: 0 <= i < |r| ==> r[i] < |results| && !Succeeded(results[r[i]])
    ensures forall i, j :: 0 <= i < j < |r| ==> r[i] < r[j]
    ensures forall k :: 0 <= k < |results| && !Succeeded(results[k]) ==> k in r
  {
    if results == [] then []
    else
      var n := |results| - 1;
      var init := FailedCalls(results[..n]);
      assert forall k :: 0 <= k < n ==> results[..n][k] == results[k];
      init + (if Succeeded(results[n]) then [] else [n])
  }

  /** The i-th error is the one built for the i-th failed call, so errors follow the
      declared order of the fan-out. */
  lemma {:induction false} ErrorsInDeclaredOrder(names: seq<string>, results: seq<UpstreamResult>)
    requires |names| == |results| && PayloadsAreDicts(results)
    ensures |ErrorsOf(names, results)| == |FailedCalls(results)|
    ensures forall i :: 0 <= i < |FailedCalls(results)| ==>
              ErrorsOf(names, results)[i] == ErrorFor(names[FailedCalls(results)[i]], results[FailedCalls(results)[i]])
  {
    if results != [] {
      var n := |results| - 1;
      ErrorsInDeclaredOrder(names[..n], results[..n]);
      var failed, failed' := FailedCalls(results), FailedCalls(results[..n]);
      forall i | 0 <= i < |failed'|
        ensures names[..n][failed'[i]] == names[failed[i]] && results[..n][failed'[i]] == results[failed[i]]
      {
      }
    }
  }

  // ---------------------------------------------------------------------------
  // Normalisation

  /** `sources.get(name, {})`; every stored payload is a dict. */
  function SourcePayload(sources: seq<(string, Json)>, name: string): seq<Entry>
  {
    if sources == [] then []
    else if sources[0].0 == name then (if sources[0].1.JDict? then sources[0].1.entries else [])
    else SourcePayload(sources[1..], name)
  }

  /** A list entry that is a dict whose `str(entry.get(keyField))` is `key`. */
  predicate Matches(entry: Json, keyField: string, key: string)
  {
    entry.JDict? && Str(Get(entry.entries, keyField, JNull)) == key
  }

  predicate FirstMatchAt(list: seq<Json>, keyField: string, key: string, i: int)
  {
    && 0 <= i < |list|
    && Matches(list[i], keyField, key)
    && forall j :: 0 <= j < i ==> !Matches(list[j], keyField, key)
  }

  /** The early-return search shared by `_feature_enabled` and `_workflow_enabled`:
      non-dict entries are skipped and the first matching entry decides, through the
      truthiness of its `enabled`. */
  function FlagIn(list: seq<Json>, keyField: string, key: string): (r: bool)
    ensures r <==> exists i :: FirstMatchAt(list, keyField, key, i) && Truthy(Get(list[i].entries, "enabled", JNull))
  {
    if list == [] then false
    else if !list[0].JDict? then
      var r := FlagIn(list[1..], keyField, key);
      assert forall i :: FirstMatchAt(list[1..], keyField, key, i) <==> FirstMatchAt(list, keyField, key, i + 1);
      assert forall i :: FirstMatchAt(list, keyField, key, i) ==> i > 0;
      r
    else if Str(Get(list[0].entries, keyField, JNull)) == key then
      assert FirstMatchAt(list, keyField, key, 0);
      assert forall i :: FirstMatchAt(list, keyField, key, i) ==> i == 0;
      Truthy(Get(list[0].entries, "enabled", JNull))
    else
      var r := FlagIn(list[1..], keyField, key);
      assert forall i :: FirstMatchAt(list[1..], keyField, key, i) <==> FirstMatchAt(list, keyField, key, i + 1);
      assert forall i :: FirstMatchAt(list, keyField, key, i) ==> i > 0;
      r
  }

  /** The lookup both `_feature_enabled` and `_workflow_enabled` perform on one source. */
  function SourceFlag(sources: seq<(string, Json)>, sourceName: string, listField: string, keyField: string, key: string): bool
  {
    var list := Get(SourcePayload(sources, sourceName), listField, JList([]));
    list.JList? && FlagIn(list.items, keyField, key)
  }

  function FeatureEnabled(sources: seq<(string, Json)>, sourceName: string, featureKey: string): bool
  {
    SourceFlag(sources, sourceName, "features", "key", featureKey)
  }

  function WorkflowEnabled(sources: seq<(string, Json)>, sourceName: string, workflowKey: string): bool
  {
    SourceFlag(sources, sourceName, "workflows", "workflow_key", workflowKey)
  }

  /** A lookup is true only when the source answered, its list field is a list, and the
      first dict entry with the key carries a truthy `enabled`. */
  lemma SourceFlagMeaning(sources: seq<(string, Json)>, sourceName: string, listField: string, keyField: string, key: string)
    ensures SourceFlag(sources, sourceName, listField, keyField, key) <==>
              var list := Get(SourcePayload(sources, sourceName), listField, JList([]));
              list.JList? &&
              exists i :: FirstMatchAt(list.items, keyField, key, i) && Truthy(Get(list.items[i].entries, "enabled", JNull))
    ensures SourceFlag(sources, sourceName, listField, keyField, key) ==> HasSource(sources, sourceName)
  {
    if SourceFlag(sources, sourceName, listField, keyField, key) {
      SourcePayloadPresent(sources, sourceName);
    }
  }

  lemma {:induction false} SourcePayloadPresent(sources: seq<(string, Json)>, name: string)
    ensures SourcePayload(sources, name) != [] ==> HasSource(sources, name)
  {
    if sources != [] && sources[0].0 != name {
      SourcePayloadPresent(sources[1..], name);
      if SourcePayload(sources, name) != [] {
        var i :| 0 <= i < |sources[1..]| && sources[1..][i].0 == name;
        assert sources[i + 1].0 == name;
      }
    }
  }

  function FeaturesOf(sources: seq<(string, Json)>): Features
  {
    Features(
      pasCoreSnapshot := FeatureEnabled(sources, "pas", "pas.integration.core_snapshot"),
      pasIntake := FeatureEnabled(sources, "pas", "pas.ingestion.bulk_upload"),
      paAnalytics :=
        || FeatureEnabled(sources, "pa", "pa.analytics.twr")
        || FeatureEnabled(sources, "pa", "pa.analytics.mwr")
        || FeatureEnabled(sources, "pa", "pa.analytics.contribution")
        || FeatureEnabled(sources, "pa", "pa.analytics.attribution"),
      dpmLifecycle := FeatureEnabled(sources, "dpm", "dpm.proposals.lifecycle"),
      dpmSupport := FeatureEnabled(sources, "dpm", "dpm.support.run_apis"))
  }

  function NavigationOf(f: Features): Navigation
  {
    Navigation(
      commandCenter := true,
      portfolioIntake := f.pasIntake || f.pasCoreSnapshot,
      analyticsStudio := f.paAnalytics,
      advisoryPipeline := f.dpmLifecycle,
      scenarioBuilder := f.dpmLifecycle,
      decisionConsole := f.pasCoreSnapshot && (f.dpmLifecycle || f.dpmSupport))
  }

  function WorkflowFlagsOf(sources: seq<(string, Json)>): WorkflowFlags
  {
    WorkflowFlags(
      proposalLifecycle := WorkflowEnabled(sources, "dpm", "proposal_lifecycle"),
      proposalApprovalFlow := WorkflowEnabled(sources, "dpm", "proposal_approval_flow"),
      portfolioBulkOnboarding := WorkflowEnabled(sources, "pas", "portfolio_bulk_onboarding"),
      performanceSnapshot := WorkflowEnabled(sources, "pa", "performance_snapshot"))
  }

  /** Which UI sections each source gates: the decision console needs both `pas` and
      `dpm`, analytics needs `pa`, the pipeline needs `dpm`; the command centre is always on. */
  lemma NavigationNeedsSources(sources: seq<(string, Json)>)
    ensures NavigationOf(FeaturesOf(sources)).commandCenter
    ensures NavigationOf(FeaturesOf(sources)).decisionConsole ==>
              HasSource(sources, "pas") && HasSource(sources, "dpm") && NavigationOf(FeaturesOf(sources)).portfolioIntake
    ensures NavigationOf(FeaturesOf(sources)).portfolioIntake ==> HasSource(sources, "pas")
    ensures NavigationOf(FeaturesOf(sources)).analyticsStudio ==> HasSource(sources, "pa")
    ensures NavigationOf(FeaturesOf(sources)).advisoryPipeline == NavigationOf(FeaturesOf(sources)).scenarioBuilder
    ensures NavigationOf(FeaturesOf(sources)).advisoryPipeline ==> HasSource(sources, "dpm")
  {
    SourceFlagMeaning(sources, "pas", "features", "key", "pas.integration.core_snapshot");
    SourceFlagMeaning(sources, "pas", "features", "key", "pas.ingestion.bulk_upload");
    SourceFlagMeaning(sources, "pa", "features", "key", "pa.analytics.twr");
    SourceFlagMeaning(sources, "pa", "features", "key", "pa.analytics.mwr");
    SourceFlagMeaning(sources, "pa", "features", "key", "pa.analytics.contribution");
    SourceFlagMeaning(sources, "pa", "features", "key", "pa.analytics.attribution");
    SourceFlagMeaning(sources, "dpm", "features", "key", "dpm.proposals.lifecycle");
    SourceFlagMeaning(sources, "dpm", "features", "key", "dpm.support.run_apis");
  }

  /** A source whose `features` (or `workflows`) field is not a list enables nothing. */
  lemma MalformedListEnablesNothing(sources: seq<(string, Json)>, sourceName: string, listField: string, keyField: string, key: string)
    requires !Get(SourcePayload(sources, sourceName), listField, JList([])).JList?
    ensures !SourceFlag(sources, sourceName, listField, keyField, key)
  {
  }

  /** `[str(mode) for mode in payload.get("supportedInputModes", [])]`, or `[]` when that
      field is not a list. */
  function ModesOf(payload: Json): seq<string>
  {
    var modes := if payload.JDict? then Get(payload.entries, "supportedInputModes", JList([])) else JList([]);
    if modes.JList? then seq(|modes.items|, k requires 0 <= k < |modes.items| => Str(modes.items[k])) else []
  }

  /** The elements of `s`, each kept at its first occurrence. */
  function Dedup(s: seq<string>): seq<string>
  {
    if s == [] then []
    else
      var d := Dedup(s[..|s| - 1]);
      if s[|s| - 1] in d then d else d + [s[|s| - 1]]
  }

  predicate NoDuplicates(s: seq<string>)
  {
    forall i, j :: 0 <= i < j < |s| ==> s[i] != s[j]
  }

  function FirstIndex(s: seq<string>, x: string): (k: nat)
    requires x in s
    ensures k < |s| && s[k] == x && x !in s[..k]
  {
    if s[0] == x then 0 else 1 + FirstIndex(s[1..], x)
  }

  /** The union keeps every mode once, nothing else, in first-seen order. */
  lemma {:induction false} DedupIsFirstSeenUnion(s: seq<string>)
    ensures NoDuplicates(Dedup(s))
    ensures forall x :: x in Dedup(s) <==> x in s
    ensures forall i, j :: 0 <= i < j < |Dedup(s)| ==> FirstIndex(s, Dedup(s)[i]) < FirstIndex(s, Dedup(s)[j])
  {
    if s != [] {
      var init, x := s[..|s| - 1], s[|s| - 1];
      assert s == init + [x];
      DedupIsFirstSeenUnion(init);
      var d, d' := Dedup(s), Dedup(init);
      forall y | y in init ensures FirstIndex(s, y) == FirstIndex(init, y) {
        FirstIndexPrefix(init, [x], y);
      }
      if x !in d' {
        assert FirstIndex(s, x) == |init| by {
          FirstIndexPrefix(init, [x], x);
        }
        forall i | 0 <= i < |d'| ensures FirstIndex(s, d[i]) < FirstIndex(s, x) {
          assert d[i] == d'[i] && d'[i] in init;
        }
      }
    }
  }

  lemma {:induction false} FirstIndexPrefix(a: seq<string>, b: seq<string>, x: string)
    requires x in a + b
    ensures x in a ==> FirstIndex(a + b, x) == FirstIndex(a, x)
    ensures x !in a ==> FirstIndex(a + b, x) == |a| + FirstIndex(b, x)
  {
    if a != [] {
      if a[0] != x {
        assert (a + b)[1..] == a[1..] + b;
        FirstIndexPrefix(a[1..], b, x);
      }
    } else {
      assert a + b == b;
    }
  }

  /** All modes listed in `bySource`, in order. */
  function AllModes(bySource: seq<(string, seq<string>)>): seq<string>
  {
    if bySource == [] then [] else AllModes(bySource[..|bySource| - 1]) + bySource[|bySource| - 1].1
  }

  /** Adds the modes of one source to the running union. */
  method MergeModes(union: seq<string>, ghost seen: seq<string>, modes: seq<string>) returns (r: seq<string>)
    requires union == Dedup(seen)
    ensures r == Dedup(seen + modes)
  {
    r := union;
    var j := 0;
    assert seen + modes[..0] == seen;
    while j < |modes|
      invariant 0 <= j <= |modes|
      invariant r == Dedup(seen + modes[..j])
    {
      assert seen + modes[..j + 1] == (seen + modes[..j]) + [modes[j]];
      if modes[j] !in r {
        r := r + [modes[j]];
      }
      j := j + 1;
    }
    assert modes[..j] == modes;
  }

  /** Each source's name with the modes its payload lists, in source order. */
  function ModesBySource(sources: seq<(string, Json)>): (r: seq<(string, seq<string>)>)
    ensures |r| == |sources|
    ensures forall i :: 0 <= i < |sources| ==> r[i] == (sources[i].0, ModesOf(sources[i].1))
  {
    if sources == [] then []
    else
      var n := |sources| - 1;
      ModesBySource(sources[..n]) + [(sources[n].0, ModesOf(sources[n].1))]
  }

  /** The input-mode loops of `_build_normalized_capabilities`. */
  method InputModes(sources: seq<(string, Json)>) returns (bySource: seq<(string, seq<string>)>, union: seq<string>)
    ensures |bySource| == |sources|
    ensures forall i :: 0 <= i < |sources| ==> bySource[i] == (sources[i].0, ModesOf(sources[i].1))
    ensures union == Dedup(AllModes(bySource))
    ensures NoDuplicates(union)
    ensures forall m :: m in union <==> exists i :: 0 <= i < |bySource| && m in bySource[i].1
  {
    bySource, union := [], [];
    var i := 0;
    while i < |sources|
      invariant 0 <= i <= |sources|
      invariant bySource == ModesBySource(sources[..i])
      invariant union == Dedup(AllModes(bySource))
    {
      var modes := ModesOf(sources[i].1);
      union := MergeModes(union, AllModes(bySource), modes);
      AllModesSnoc(bySource, (sources[i].0, modes));
      assert sources[..i + 1][..i] == sources[..i];
      bySource := bySource + [(sources[i].0, modes)];
      i := i + 1;
    }
    assert sources[..i] == sources;
    DedupIsFirstSeenUnion(AllModes(bySource));
    AllModesMembers(bySource);
  }

  lemma AllModesSnoc(bySource: seq<(string, seq<string>)>, p: (string, seq<string>))
    ensures AllModes(bySource + [p]) == AllModes(bySource) + p.1
  {
    assert (bySource + [p])[..|bySource|] == bySource;
  }

  lemma {:induction false} AllModesMembers(bySource: seq<(string, seq<string>)>)
    ensures forall m :: m in AllModes(bySource) <==> exists i :: 0 <= i < |bySource| && m in bySource[i].1
  {
    if bySource != [] {
      var n := |bySource| - 1;
      AllModesMembers(bySource[..n]);
      forall m ensures m in AllModes(bySource) <==> exists i :: 0 <= i < |bySource| && m in bySource[i].1 {
        if exists i :: 0 <= i < n && m in bySource[..n][i].1 {
          var i :| 0 <= i < n && m in bySource[..n][i].1;
          assert m in bySource[i].1;
        }
        if exists i :: 0 <= i < |bySource| && m in bySource[i].1 {
          var i :| 0 <= i < |bySource| && m in bySource[i].1;
          if i < n { assert bySource[..n][i] == bySource[i]; }
        }
      }
    }
  }

  /** `_module_health`. */
  method ModuleHealth(sources: seq<(string, Json)>, errors: seq<CapabilityError>) returns (health: map<string, string>)
    ensures health.Keys == {"pas", "pa", "dpm"}
    ensures forall n :: n in health ==> (health[n] == "available" <==> HasSource(sources, n))
    ensures forall n :: n in health ==> (health[n] == "unavailable" <==> !HasSource(sources, n) && HasError(errors, n))
    ensures forall n :: n in health ==> (health[n] == "unknown" <==> !HasSource(sources, n) && !HasError(errors, n))
  {
    var errored := set e | e in errors :: e.service;
    assert forall n :: n in errored <==> HasError(errors, n) by {
      forall n ensures n in errored <==> HasError(errors, n) {
        if n in errored {
          var e :| e in errors && e.service == n;
          var i :| 0 <= i < |errors| && errors[i] == e;
        }
      }
    }
    health := map[];
    var names := ["pas", "pa", "dpm"];
    for k := 0 to |names|
      invariant health.Keys == set j | 0 <= j < k :: names[j]
      invariant forall n :: n in health ==> (health[n] == "available" <==> HasSource(sources, n))
      invariant forall n :: n in health ==> (health[n] == "unavailable" <==> !HasSource(sources, n) && HasError(errors, n))
      invariant forall n :: n in health ==> (health[n] == "unknown" <==> !HasSource(sources, n) && !HasError(errors, n))
    {
      var name := names[k];
      if HasSource(sources, name) {
        health := health[name := "available"];
      } else if name in errored {
        health := health[name := "unavailable"];
      } else {
        health := health[name := "unknown"];
      }
    }
    assert health.Keys == {names[0], names[1], names[2]};
  }

  /** `_build_normalized_capabilities`. */
  method BuildNormalized(sources: seq<(string, Json)>, errors: seq<CapabilityError>) returns (normalized: Normalized)
    ensures normalized.navigation == NavigationOf(FeaturesOf(sources))
    ensures normalized.workflowFlags == WorkflowFlagsOf(sources)
    ensures |normalized.inputModesBySource| == |sources|
    ensures forall i :: 0 <= i < |sources| ==> normalized.inputModesBySource[i] == (sources[i].0, ModesOf(sources[i].1))
    ensures normalized.inputModesUnion == Dedup(AllModes(normalized.inputModesBySource))
    ensures NoDuplicates(normalized.inputModesUnion)
    ensures forall m :: m in normalized.inputModesUnion <==>
              exists i :: 0 <= i < |sources| && m in normalized.inputModesBySource[i].1
    ensures normalized.moduleHealth.Keys == {"pas", "pa", "dpm"}
    ensures forall n :: n in normalized.moduleHealth ==>
              (normalized.moduleHealth[n] == "available" <==> HasSource(sources, n)) &&
              (normalized.moduleHealth[n] == "unavailable" <==> !HasSource(sources, n) && HasError(errors, n)) &&
              (normalized.moduleHealth[n] == "unknown" <==> !HasSource(sources, n) && !HasError(errors, n))
  {
    var bySource, union := InputModes(sources);
    var health := ModuleHealth(sources, errors);
    normalized := Normalized(NavigationOf(FeaturesOf(sources)), WorkflowFlagsOf(sources), bySource, union, health);
  }

  /** `get_platform_capabilities`, from the gathered results in the order `pas, pa, dpm`. */
  method GetPlatformCapabilities(consumerSystem: string, tenantId: string, contractVersion: string, results: seq<UpstreamResult>)
    returns (data: CapabilitiesData)
    requires |results| == |ServiceNames| && PayloadsAreDicts(results)
    ensures data.consumerSystem == consumerSystem && data.tenantId == tenantId && data.contractVersion == contractVersion
    ensures data.sources == SourcesOf(ServiceNames, results) && data.errors == ErrorsOf(ServiceNames, results)
    ensures |data.sources| + |data.errors| == 3
    ensures data.partialFailure <==> data.errors != []
    ensures forall k :: 0 <= k < 3 ==> (HasSource(data.sources, ServiceNames[k]) <==> Succeeded(results[k]))
    ensures data.normalized.navigation == NavigationOf(FeaturesOf(data.sources))
    ensures data.normalized.workflowFlags == WorkflowFlagsOf(data.sources)
    ensures |data.normalized.inputModesBySource| == |data.sources|
    ensures forall i :: 0 <= i < |data.sources| ==>
              data.normalized.inputModesBySource[i] == (data.sources[i].0, ModesOf(data.sources[i].1))
    ensures data.normalized.inputModesUnion == Dedup(AllModes(data.normalized.inputModesBySource))
    ensures data.normalized.moduleHealth.Keys == {"pas", "pa", "dpm"}
    ensures forall k :: 0 <= k < 3 ==>
              data.normalized.moduleHealth[ServiceNames[k]] == (if Succeeded(results[k]) then "available" else "unavailable")
  {
    var sources, errors := CollectResults(results);
    var normalized := BuildNormalized(sources, errors);
    data := CapabilitiesData(consumerSystem, tenantId, contractVersion, sources, |errors| > 0, errors, normalized);
    FanOutPartition(ServiceNames, results);
    DeclaredServicesPlaced(results);
  }

  /** `FanOutPlacement` for the three declared services. */
  lemma DeclaredServicesPlaced(results: seq<UpstreamResult>)
    requires |results| == |ServiceNames| && PayloadsAreDicts(results)
    ensures forall k :: 0 <= k < 3 ==>
              (HasSource(SourcesOf(ServiceNames, results), ServiceNames[k]) <==> Succeeded(results[k])) &&
              (HasError(ErrorsOf(ServiceNames, results), ServiceNames[k]) <==> !Succeeded(results[k]))
  {
    assert Distinct(ServiceNames);
    forall k | 0 <= k < 3
      ensures HasSource(SourcesOf(ServiceNames, results), ServiceNames[k]) <==> Succeeded(results[k])
      ensures HasError(ErrorsOf(ServiceNames, results), ServiceNames[k]) <==> !Succeeded(results[k])
    {
      FanOutPlacement(ServiceNames, results, k);
    }
  }
}
