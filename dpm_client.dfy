/** The DPM client: how each route method turns its arguments into the request it hands
    to the retry executor. The exchange itself is the executor's; here a route returns
    the request it would send. */
module Dpm {
  import opened Wrappers
  import opened Text
  import opened Json
  import Resilience

  /** One request, with the retry settings the client passes along with it. */
  datatype Request = Request(call: Resilience.Call, timeoutSeconds: real, maxRetries: int, backoffSeconds: real)

  datatype DpmClient = DpmClient(baseUrl: string, timeoutSeconds: real, maxRetries: int, retryBackoffSeconds: real)
  {
    /** `_post`: the URL is the base URL followed by the path. */
    function Post(path: string, body: map<string, Json>, headers: map<string, string>): (r: Request)
      ensures r.call.Post? && r.call.url == baseUrl + path
      ensures r.call.headers == Some(headers) && r.call.jsonBody == Some(body)
      ensures r.timeoutSeconds == timeoutSeconds && r.maxRetries == maxRetries && r.backoffSeconds == retryBackoffSeconds
    {
      Resilience.DispatchIgnoresCase("POST", baseUrl + path, None, Some(headers), Some(body));
      Request(Resilience.Dispatch("POST", baseUrl + path, None, Some(headers), Some(body)),
              timeoutSeconds, maxRetries, retryBackoffSeconds)
    }

    /** `_get`: the URL is the base URL followed by the path; the parameters go as given. */
    function Get(path: string, params: seq<Entry>, headers: map<string, string>): (r: Request)
      ensures r.call.Get? && r.call.url == baseUrl + path
      ensures r.call.headers == Some(headers) && r.call.params == Some(params)
      ensures r.timeoutSeconds == timeoutSeconds && r.maxRetries == maxRetries && r.backoffSeconds == retryBackoffSeconds
    {
      assert Upper("GET") == "GET";
      Request(Resilience.Dispatch("GET", baseUrl + path, Some(params), Some(headers), None),
              timeoutSeconds, maxRetries, retryBackoffSeconds)
    }

    method SimulateProposal(body: map<string, Json>, idempotencyKey: string, propagation: map<string, string>) returns (r: Request)
      ensures r.call.headers.Some? && r == Post(SimulatePath, body, r.call.headers.value)
      ensures IdempotentHeaders(r.call.headers.value, propagation, idempotencyKey)
    {
      var headers := Headers(propagation, Some(map[IdempotencyHeader := idempotencyKey]));
      r := Post(SimulatePath, body, headers);
    }

    method CreateProposal(body: map<string, Json>, idempotencyKey: string, propagation: map<string, string>) returns (r: Request)
      ensures r.call.headers.Some? && r == Post(ProposalsPath, body, r.call.headers.value)
      ensures IdempotentHeaders(r.call.headers.value, propagation, idempotencyKey)
    {
      var headers := Headers(propagation, Some(map[IdempotencyHeader := idempotencyKey]));
      r := Post(ProposalsPath, body, headers);
    }

    method ListProposals(params: seq<Entry>, propagation: map<string, string>) returns (r: Request)
      ensures r == Get(ProposalsPath, CleanParams(params), propagation)
    {
      var headers := Headers(propagation, None);
      r := Get(ProposalsPath, CleanParams(params), headers);
    }

    method ListRuns(params: seq<Entry>, propagation: map<string, string>) returns (r: Request)
      ensures r == Get(RunsPath, CleanParams(params), propagation)
    {
      var headers := Headers(propagation, None);
      r := Get(RunsPath, CleanParams(params), headers);
    }

    method GetProposal(proposalId: string, includeEvidence: bool, propagation: map<string, string>) returns (r: Request)
      ensures r == Get(ProposalPath(proposalId), EvidenceParams(includeEvidence), propagation)
    {
      var headers := Headers(propagation, None);
      r := Get(ProposalPath(proposalId), EvidenceParams(includeEvidence), headers);
    }

    method GetProposalVersion(proposalId: string, versionNo: int, includeEvidence: bool, propagation: map<string, string>)
      returns (r: Request)
      ensures r == Get(VersionPath(proposalId, versionNo), EvidenceParams(includeEvidence), propagation)
    {
      var headers := Headers(propagation, None);
      r := Get(VersionPath(proposalId, versionNo), EvidenceParams(includeEvidence), headers);
    }

    method CreateProposalVersion(proposalId: string, body: map<string, Json>, idempotencyKey: string, propagation: map<string, string>)
      returns (r: Request)
      ensures r.call.headers.Some? && r == Post(VersionsPath(proposalId), body, r.call.headers.value)
      ensures IdempotentHeaders(r.call.headers.value, propagation, idempotencyKey)
    {
      var headers := Headers(propagation, Some(map[IdempotencyHeader := idempotencyKey]));
      r := Post(VersionsPath(proposalId), body, headers);
    }

    method TransitionProposal(proposalId: string, body: map<string, Json>, propagation: map<string, string>) returns (r: Request)
      ensures r == Post(TransitionsPath(proposalId), body, propagation)
    {
      var headers := Headers(propagation, None);
      r := Post(TransitionsPath(proposalId), body, headers);
    }

    method RecordApproval(proposalId: string, body: map<string, Json>, propagation: map<string, string>) returns (r: Request)
      ensures r == Post(ApprovalsPath(proposalId), body, propagation)
    {
      var headers := Headers(propagation, None);
      r := Post(ApprovalsPath(proposalId), body, headers);
    }

    method GetWorkflowEvents(proposalId: string, propagation: map<string, string>) returns (r: Request)
      ensures r == Get(WorkflowEventsPath(proposalId), [], propagation)
    {
      var headers := Headers(propagation, None);
      r := Get(WorkflowEventsPath(proposalId), [], headers);
    }

    method GetApprovals(proposalId: string, propagation: map<string, string>) returns (r: Request)
      ensures r == Get(ApprovalsPath(proposalId), [], propagation)
    {
      var headers := Headers(propagation, None);
      r := Get(ApprovalsPath(proposalId), [], headers);
    }

    method GetCapabilities(consumerSystem: string, tenantId: string, propagation: map<string, string>) returns (r: Request)
      ensures r == Get(CapabilitiesPath, [Entry(JStr("consumerSystem"), JStr(consumerSystem)), Entry(JStr("tenantId"), JStr(tenantId))], propagation)
    {
      var headers := Headers(propagation, None);
      r := Get(CapabilitiesPath, [Entry(JStr("consumerSystem"), JStr(consumerSystem)), Entry(JStr("tenantId"), JStr(tenantId))], headers);
    }
  }

  /** `DpmClient(base_url, timeout_seconds, max_retries=2, retry_backoff_seconds=0.2)`. */
  function NewDpmClient(baseUrl: string, timeoutSeconds: real, maxRetries: int := 2, retryBackoffSeconds: real := 0.2): (c: DpmClient)
    ensures |c.baseUrl| <= |baseUrl|
    ensures baseUrl == c.baseUrl + Repeat('/', |baseUrl| - |c.baseUrl|)
    ensures c.baseUrl == [] || c.baseUrl[|c.baseUrl| - 1] != '/'
    ensures c.timeoutSeconds == timeoutSeconds && c.maxRetries == maxRetries && c.retryBackoffSeconds == retryBackoffSeconds
  {
    var stripped := RStrip(baseUrl, '/');
    assert baseUrl == stripped + baseUrl[|stripped|..];
    assert baseUrl[|stripped|..] == Repeat('/', |baseUrl| - |stripped|);
    DpmClient(stripped, timeoutSeconds, maxRetries, retryBackoffSeconds)
  }

  function Repeat(c: char, n: nat): (r: string)
    ensures |r| == n && forall i :: 0 <= i < n ==> r[i] == c
  {
    seq(n, i requires 0 <= i < n => c)
  }

  /** However many slashes end the base URL, a route's URL joins base and path with the
      path's own slash only. */
  lemma BaseUrlJoinsPath(baseUrl: string, k: nat, timeoutSeconds: real, path: string, body: map<string, Json>, headers: map<string, string>)
    ensures NewDpmClient(baseUrl + Repeat('/', k), timeoutSeconds).Post(path, body, headers) ==
            NewDpmClient(baseUrl, timeoutSeconds).Post(path, body, headers)
  {
    StripPadding(baseUrl, k);
  }

  lemma {:induction false} StripPadding(s: string, k: nat)
    ensures RStrip(s + Repeat('/', k), '/') == RStrip(s, '/')
    decreases k
  {
    if k > 0 {
      var padded := s + Repeat('/', k);
      assert padded[..|padded| - 1] == s + Repeat('/', k - 1);
      StripPadding(s, k - 1);
    } else {
      assert s + Repeat('/', 0) == s;
    }
  }

  const IdempotencyHeader := "Idempotency-Key"

  /** `_headers`: the propagation headers, overridden by the extras when there are any. */
  method Headers(propagation: map<string, string>, extras: Option<map<string, string>>) returns (headers: map<string, string>)
    ensures extras.None? || extras.value == map[] ==> headers == propagation
    ensures headers.Keys == propagation.Keys + (if extras.Some? then extras.value.Keys else {})
    ensures extras.Some? ==> forall k :: k in extras.value ==> headers[k] == extras.value[k]
    ensures forall k :: k in propagation && (extras.None? || k !in extras.value) ==> headers[k] == propagation[k]
  {
    headers := propagation;
    if extras.Some? && extras.value != map[] {
      headers := headers + extras.value;
    }
  }

  /** The headers of an idempotent write: the propagation headers with the given key. */
  predicate IdempotentHeaders(headers: map<string, string>, propagation: map<string, string>, idempotencyKey: string)
  {
    && headers.Keys == propagation.Keys + {IdempotencyHeader}
    && headers[IdempotencyHeader] == idempotencyKey
    && forall k :: k in propagation && k != IdempotencyHeader ==> headers[k] == propagation[k]
  }

  /** `{key: value for key, value in params.items() if value is not None}`. */
  function CleanParams(params: seq<Entry>): (r: seq<Entry>)
    ensures forall i :: 0 <= i < |r| ==> r[i].value != JNull && r[i] in params
    ensures forall k :: Lookup(params, k).Some? && Lookup(params, k) != Some(JNull) ==> Lookup(r, k) == Lookup(params, k)
    ensures forall k :: Lookup(params, k).None? ==> Lookup(r, k).None?
    ensures (forall i :: 0 <= i < |params| ==> params[i].value != JNull) ==> r == params
  {
    if params == [] then []
    else
      var rest := CleanParams(params[1..]);
      if params[0].value == JNull then rest else [params[0]] + rest
  }

  /** A Python dict never holds two entries for one key. */
  predicate UniqueKeys(entries: seq<Entry>)
  {
    forall i, j :: 0 <= i < j < |entries| ==> entries[i].key != entries[j].key
  }

  /** On a real dict, a key set to `None` is dropped entirely. */
  lemma {:induction false} CleanParamsDropsNone(params: seq<Entry>, k: Json)
    requires UniqueKeys(params)
    requires Lookup(params, k) == Some(JNull)
    ensures Lookup(CleanParams(params), k).None?
  {
    if params[0].key != k {
      assert UniqueKeys(params[1..]) by {
        forall i, j | 0 <= i < j < |params[1..]| ensures params[1..][i].key != params[1..][j].key {
          assert params[1..][i] == params[i + 1] && params[1..][j] == params[j + 1];
        }
      }
      CleanParamsDropsNone(params[1..], k);
    } else {
      var rest := params[1..];
      forall i | 0 <= i < |rest| ensures rest[i].key != k {
        assert rest[i] == params[i + 1];
      }
      LookupAbsent(CleanParams(rest), rest, k);
    }
  }

  /** A key that no entry of `params` has is not in a subset of its entries. */
  lemma LookupAbsent(r: seq<Entry>, params: seq<Entry>, k: Json)
    requires forall i :: 0 <= i < |r| ==> r[i] in params
    requires forall i :: 0 <= i < |params| ==> params[i].key != k
    ensures Lookup(r, k).None?
  {
  }

  /** `str(include_evidence).lower()`. */
  function EvidenceFlag(includeEvidence: bool): (s: string)
    ensures s == (if includeEvidence then "true" else "false")
  {
    var pythonBool := if includeEvidence then "True" else "False";
    assert Lower("True") == "true" by {
      assert forall i :: 0 <= i < 4 ==> Lower("True")[i] == "true"[i];
    }
    assert Lower("False") == "false" by {
      assert forall i :: 0 <= i < 5 ==> Lower("False")[i] == "false"[i];
    }
    Lower(pythonBool)
  }

  function EvidenceParams(includeEvidence: bool): seq<Entry>
  {
    [Entry(JStr("include_evidence"), JStr(EvidenceFlag(includeEvidence)))]
  }

  const SimulatePath := "/rebalance/proposals/simulate"
  const ProposalsPath := "/rebalance/proposals"
  const RunsPath := "/rebalance/runs"
  const CapabilitiesPath := "/integration/capabilities"

  /** `/rebalance/proposals/{proposal_id}`. */
  function ProposalPath(proposalId: string): string
  {
    ProposalsPath + "/" + proposalId
  }

  function VersionsPath(proposalId: string): string
  {
    ProposalPath(proposalId) + "/versions"
  }

  /** `/rebalance/proposals/{proposal_id}/versions/{version_no}`. */
  function VersionPath(proposalId: string, versionNo: int): string
  {
    VersionsPath(proposalId) + "/" + IntToDecimal(versionNo)
  }

  function TransitionsPath(proposalId: string): string
  {
    ProposalPath(proposalId) + "/transitions"
  }

  function ApprovalsPath(proposalId: string): string
  {
    ProposalPath(proposalId) + "/approvals"
  }

  function WorkflowEventsPath(proposalId: string): string
  {
    ProposalPath(proposalId) + "/workflow-events"
  }

  /** The identifiers sit in the path verbatim: the proposal id right after the collection
      path, and the version number at the end. */
  lemma PathsEmbedIdentifiers(proposalId: string, versionNo: int)
    ensures var n := |ProposalsPath| + 1;
      && ProposalPath(proposalId)[n..] == proposalId
      && VersionPath(proposalId, versionNo)[n..n + |proposalId|] == proposalId
      && VersionPath(proposalId, versionNo)[|VersionsPath(proposalId)| + 1..] == IntToDecimal(versionNo)
      && TransitionsPath(proposalId)[n..n + |proposalId|] == proposalId
      && ApprovalsPath(proposalId)[n..n + |proposalId|] == proposalId
      && WorkflowEventsPath(proposalId)[n..n + |proposalId|] == proposalId
  {
  }

  /** Two proposals, or two versions of one proposal, never share a path. */
  lemma PathsInjective(id1: string, id2: string, v1: int, v2: int)
    ensures ProposalPath(id1) == ProposalPath(id2) ==> id1 == id2
    ensures VersionPath(id1, v1) == VersionPath(id1, v2) ==> v1 == v2
  {
    var n := |ProposalsPath| + 1;
    if ProposalPath(id1) == ProposalPath(id2) {
      assert ProposalPath(id1)[n..] == id1 && ProposalPath(id2)[n..] == id2;
    }
    if VersionPath(id1, v1) == VersionPath(id1, v2) {
      var m := |VersionsPath(id1)| + 1;
      assert VersionPath(id1, v1)[m..] == IntToDecimal(v1);
      assert VersionPath(id1, v2)[m..] == IntToDecimal(v2);
      IntToDecimalInjective(v1, v2);
    }
  }

  /** A variant of the versioned read in the client's unit-test route table (proposal
      `PR-1`, version 2, no evidence), here with a trailing slash on the base URL. */
  method VersionReadScenario() returns (r: Request)
    ensures r.call.Get? && r.call.url == "http://dpm" + "/rebalance/proposals/PR-1/versions/2"
    ensures r.call.params == Some([Entry(JStr("include_evidence"), JStr("false"))])
    ensures r.maxRetries == 2 && r.timeoutSeconds == 2.0
  {
    var client := NewDpmClient("http://dpm/", 2.0);
    assert client.baseUrl == "http://dpm" by {
      assert "http://dpm/"[..10] == "http://dpm";
    }
    var path := VersionPath("PR-1", 2);
    assert path == "/rebalance/proposals/PR-1/versions/2" by {
      assert IntToDecimal(2) == "2";
    }
    assert EvidenceParams(false) == [Entry(JStr("include_evidence"), JStr("false"))];
    r := client.GetProposalVersion("PR-1", 2, false, map["X-Correlation-Id" := "corr-5"]);
  }
}
