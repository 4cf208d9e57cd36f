# Advisor experience API gateway — a Dafny model of its core

The advisor experience API is a gateway in front of three upstream platforms:
PAS (portfolio data), PA (performance analytics) and DPM (discretionary portfolio
management: rebalancing and the proposal workflow). This project models the parts of
the gateway that decide its behaviour, and proves properties of that model:

- the HTTP retry executor that every upstream client goes through (`resilience.dfy`);
- the platform capabilities fan-out to PAS, PA and DPM, and the normalized view built
  from the surviving sources (`capabilities.dfy`);
- the workbench parsers, which turn upstream answers into overview data, degradation
  warnings and partial failures (`workbench.dfy`);
- the proposal service, which shapes workflow bodies and turns DPM's answer into an
  envelope or an HTTP error (`proposals.dfy`);
- the DPM client's request construction: URLs, headers, parameters and retry settings
  (`dpm_client.dfy`).

Shared support modules:

- `wrappers.dfy` holds `Option`, `Result` and the gateway's `HttpError`.
- `json.dfy` models decoded JSON as Python sees it. A dict is a sequence of entries in
  insertion order. `dict.get`, `str()` and `repr()` are modelled as `Lookup`/`Get`,
  `Str` and `Repr`.
- `text.dfy` covers the string operations the core relies on: decimal rendering of
  integers with its round trip, `rstrip`, `lower`/`upper`, and lexicographic order.
- `sorting.dfy` is a stable sort by a total preorder. It stands in for Python's
  `sorted`/`list.sort` with a key.

Upstream I/O is not performed. Each upstream answer, each result of `asyncio.gather`,
and the sequence of transport outcomes the retry loop meets is a parameter.

## Model

| member | source | states |
|---|---|---|
| `Resilience.ResponsePayload` | src/app/clients/http_resilience.py:7-14 | the payload is always a dict: a decoded dict is kept as is, and anything else becomes `{"detail": value}` |
| `Resilience.Dispatch` | src/app/clients/http_resilience.py:35-44 | the request is a GET exactly when the upper-cased method is `GET`; URL and headers are passed unchanged |
| `Resilience.DispatchIgnoresCase` | src/app/clients/http_resilience.py:35 | the method name's case does not matter; `get` sends a GET with the params, `POST` a POST with the JSON body |
| `Resilience.CallsFrom` | src/app/clients/http_resilience.py:31-54 | the number of attempts is at most `max_retries + 1`; every attempt but the last was retryable (a timeout, a network error, or a listed status); ending before the limit means the last outcome was final |
| `Resilience.Backoffs` | src/app/clients/http_resilience.py:48 | the k-th sleep is `backoff * 2^k` |
| `Resilience.RequestWithRetry` | src/app/clients/http_resilience.py:17-56 | the result is always a dict. For a negative `max_retries`: no call and 503 "exhausted retries". Otherwise: as many calls as `CallsFrom`, the status and payload of the last call's outcome (503 with the exception class name after a final transport failure), and the between-attempt delays `Backoffs(backoff, calls - 1)` |
| `Resilience.RetryContract` | src/app/clients/http_resilience.py:46-54 | a call is retried only when it failed in a retryable way and retries are left, and the attempt count never exceeds `max_retries + 1` |
| `Resilience.Pow2` | src/app/clients/http_resilience.py:48 | the backoff factor `2**attempt` is positive |
| `Resilience.TimeoutThenSuccess` | tests/unit/test_http_resilience.py:35-49 | a timeout followed by a 200 `{"ok": true}` answer gives 200, that payload, and two calls |
| `Capabilities.ErrorFor` | src/app/services/platform_capabilities_service.py:58-77 | an exception (of any kind) becomes status 500 with detail `upstream_exception: <message>`; an error status is kept, with the `detail` field or the whole payload's `str` as detail |
| `Capabilities.CollectResults` | src/app/services/platform_capabilities_service.py:57-79 | the loop over `(service, result)` pairs yields exactly the sources and the errors of `SourcesOf`/`ErrorsOf` in declared order |
| `Capabilities.FanOutPartition` | src/app/services/platform_capabilities_service.py:57-79 | every service lands in exactly one of sources and errors: the two counts add up to the number of services |
| `Capabilities.SourceMembership` | src/app/services/platform_capabilities_service.py:79 | a service is among the sources if and only if some call of that name returned a status below 400 |
| `Capabilities.ErrorMembership` | src/app/services/platform_capabilities_service.py:58-77 | a service is among the errors if and only if some call of that name raised or returned a status of 400 or more |
| `Capabilities.FanOutPlacement` | src/app/services/platform_capabilities_service.py:57-79 | with distinct service names: service k is a source exactly when its call succeeded, and an error exactly when it failed |
| `Capabilities.BucketContents` | src/app/services/platform_capabilities_service.py:57-79 | a successful call's payload is stored under its service name, and a failed call's error is the one `ErrorFor` builds |
| `Capabilities.FailedCalls` | src/app/services/platform_capabilities_service.py:57-77 | the indices of the failed calls, strictly increasing, with every failed index present |
| `Capabilities.ErrorsInDeclaredOrder` | src/app/services/platform_capabilities_service.py:57-77 | the i-th error belongs to the i-th failed call, in the declared order pas, pa, dpm |
| `Capabilities.FlagIn` | src/app/services/platform_capabilities_service.py:183-188 | a flag is on exactly when the first dict entry whose key field matches has a truthy `enabled`; non-dict entries are skipped |
| `Capabilities.SourceFlagMeaning` | src/app/services/platform_capabilities_service.py:172-206 | a feature or workflow flag is on only if its source is present, and then exactly as `FlagIn` says on that source's list |
| `Capabilities.MalformedListEnablesNothing` | src/app/services/platform_capabilities_service.py:180-182 | a features or workflows value that is not a list turns every flag of that source off |
| `Capabilities.NavigationNeedsSources` | src/app/services/platform_capabilities_service.py:139-149 | command center is always on; portfolio intake needs PAS, analytics studio needs PA, the advisory pipeline needs DPM and equals the scenario builder, and the decision console needs PAS and DPM |
| `Capabilities.DedupIsFirstSeenUnion` | src/app/services/platform_capabilities_service.py:110-112 | the union of input modes has no duplicates, holds exactly the modes seen, and keeps their order of first appearance |
| `Capabilities.FirstIndexPrefix` | src/app/services/platform_capabilities_service.py:110-112 | the first-seen position of a mode is unaffected by modes appended later |
| `Capabilities.MergeModes` | src/app/services/platform_capabilities_service.py:110-112 | the append-if-absent loop extends the first-seen union by one source's modes |
| `Capabilities.ModesBySource` | src/app/services/platform_capabilities_service.py:102-108 | one entry per source, in source order, pairing its name with the modes its payload lists |
| `Capabilities.InputModes` | src/app/services/platform_capabilities_service.py:102-112 | one entry per source with its modes as strings (none when the field is not a list), and a duplicate-free union holding exactly the modes of some source |
| `Capabilities.AllModesMembers` | src/app/services/platform_capabilities_service.py:102-112 | a mode is in the concatenation of per-source modes exactly when some source lists it |
| `Capabilities.ModuleHealth` | src/app/services/platform_capabilities_service.py:208-223 | pas, pa and dpm each get a status: "available" if and only if the service is a source, "unavailable" if and only if it is not a source but has an error, and "unknown" otherwise |
| `Capabilities.BuildNormalized` | src/app/services/platform_capabilities_service.py:96-170 | navigation and workflow flags are computed from the sources; the input-mode union is the first-seen deduplication of every source's modes; each of pas, pa and dpm is "available" exactly when it is a source, "unavailable" exactly when it is not but has an error, and "unknown" otherwise |
| `Capabilities.GetPlatformCapabilities` | src/app/services/platform_capabilities_service.py:28-94 | the data echoes the consumer, tenant and contract version; the sources and errors together hold all three services; `partialFailure` is set if and only if an error exists; each service is a source exactly when its call succeeded, and its module health follows; the normalized navigation and workflow flags are those of the sources, and the input modes list each source's modes in source order with their first-seen union |
| `Capabilities.DeclaredServicesPlaced` | src/app/services/platform_capabilities_service.py:56-79 | for the three declared services, placement in sources or errors follows the success of its own call |
| `Workbench.ResultFailure` | src/app/services/workbench_service.py:692-735 | no failure only for a returned dict with status below 400. The error code tells the cause apart: `UPSTREAM_EXCEPTION` for an exception, `INVALID_UPSTREAM_RESPONSE` for a non-tuple, `INVALID_UPSTREAM_PAYLOAD` for a non-dict payload, `HTTP_<status>` otherwise. The detail is the message, the type `repr`, or the payload's `detail` |
| `Workbench.FailureCodeIdentifiesCause` | src/app/services/workbench_service.py:692-735 | two failures with the same error code have the same cause, and with `HTTP_` codes the same status |
| `Workbench.PeriodKey` | src/app/services/workbench_service.py:742-749 | `YTD` when present; otherwise the first period in insertion order; none for an empty mapping |
| `Workbench.PeriodSnapshot` | src/app/services/workbench_service.py:742-762 | a snapshot exists exactly when a period key exists, is not None, and names a dict; the snapshot carries that period and its `net_cumulative_return` |
| `Workbench.PaSnapshot` | src/app/services/workbench_service.py:686-762 | at most one failure and one warning: a failure comes with `PA_SNAPSHOT_UNAVAILABLE` and no snapshot; a `resultsByPeriod` that is not a dict gives `PA_SNAPSHOT_INVALID`; there is no warning exactly when there is no failure and `resultsByPeriod` is a dict, and then the snapshot is the period snapshot or none; a snapshot comes with no warning |
| `Workbench.LatestRun` | src/app/services/workbench_service.py:815-838 | `NOT_AVAILABLE` for a missing, non-list or empty `items` or a non-dict first item; otherwise the first run's status (default `UNKNOWN`), its run id and its string `created_at` |
| `Workbench.DpmSnapshot` | src/app/services/workbench_service.py:764-838 | a failure comes exactly with `DPM_REBALANCE_UNAVAILABLE` and exactly when there is no snapshot; otherwise the snapshot is the latest run |
| `Workbench.IdempotencyKeyInjective` | src/app/services/workbench_service.py:593 | `sandbox-<session>-<version>` keys of one session differ for different versions |
| `Workbench.SimulatedPositions` | src/app/services/workbench_service.py:573-580 | exactly the projected rows with positive proposed quantity, each sent with its security id and proposed quantity |
| `Workbench.FeedbackOf` | src/app/services/workbench_service.py:599-626 | an error status gives `UNAVAILABLE` with "Policy simulation unavailable"; a `gate_decision` dict gives its status (default `UNKNOWN`) and a non-empty reason code; otherwise the payload's `status` (default `AVAILABLE`) and no detail; the raw payload is kept |
| `Workbench.Degradations.constructor` | src/app/services/workbench_service.py:84-85 | both degradation lists start empty |
| `Workbench.Degradations.ParsePaSnapshot` | src/app/services/workbench_service.py:686-762 | returns `PaSnapshot`'s value and appends its failures and warnings to the lists the caller owns |
| `Workbench.Degradations.ParseDpmSnapshot` | src/app/services/workbench_service.py:764-838 | returns `DpmSnapshot`'s value and appends its failures and warnings |
| `Workbench.Degradations.EvaluatePolicyFeedback` | src/app/services/workbench_service.py:555-626 | sends the `sandbox-` idempotency key and the positive positions; on an error status appends `DPM_POLICY_SIMULATION_UNAVAILABLE` and an `HTTP_<status>` dpm failure, and otherwise leaves both lists unchanged |
| `Workbench.PasError` | src/app/services/workbench_service.py:315-322 | no error below 400; otherwise 502 with "PAS core snapshot unavailable: " and the upstream detail |
| `Workbench.CountPositions` | src/app/services/workbench_service.py:658-661 | the position count is the sum of the lengths of the list-valued asset-class groups |
| `Workbench.ParsePasCoreSnapshot` | src/app/services/workbench_service.py:628-684 | a 502 "Invalid PAS core snapshot payload structure." exactly when the portfolio or snapshot section is not a dict; otherwise the catch-all 500 exactly when `float()` fails on the total market value or cash, and else the market value, the cash weight, fallbacks for the portfolio id, `USD` base currency and as-of date, the optional client and booking-center ids, and the position count |
| `Workbench.CashWeight` | src/app/services/workbench_service.py:655-657 | the cash weight is never negative; it is zero when the market value is not positive or the cash is negative, and otherwise cash divided by market value |
| `Workbench.FirstUsable` | src/app/services/workbench_service.py:530-551 | the lookup stops at the first key whose value is present and coerces to a float |
| `Workbench.FirstValue` | src/app/services/workbench_service.py:530-553 | no value exactly when no key is usable; otherwise the coerced value of the first usable key |
| `Workbench.PositionMarketValue` | src/app/services/workbench_service.py:527-553 | the `valuation` dict's four keys are tried first, then the item's six keys |
| `Workbench.MarketValueBaseFirst` | src/app/services/workbench_service.py:530-536 | a usable `market_value_base` wins over every other key at its level |
| `Workbench.DerivedWeight` | src/app/services/workbench_service.py:508-509 | a weight is derived exactly when the market value is known and the total is positive, and it is the market value as a percentage of the total |
| `Workbench.RowOf` | src/app/services/workbench_service.py:503-522 | a row fails exactly when `float()` fails on the quantity or on a non-null `weight_pct`; otherwise it carries the converted quantity, the position's market value, and the given weight or else the derived one |
| `Workbench.ItemRowsFailureSticks` | src/app/services/workbench_service.py:502-522 | a conversion failure on one item fails the whole group |
| `Workbench.GroupRowsFailureSticks` | src/app/services/workbench_service.py:499-522 | a conversion failure in one group fails the whole extraction |
| `Workbench.ItemRowsStep` | src/app/services/workbench_service.py:502-522 | one more item leaves the rows unchanged when it is not a dict, and otherwise appends its row or fails |
| `Workbench.AppendItemRows` | src/app/services/workbench_service.py:502-522 | the inner loop appends one row per dict item, skipping the others, and stops at the first row that fails |
| `Workbench.ExtractCurrentPositions` | src/app/services/workbench_service.py:483-525 | the catch-all 500 exactly when a `float()` conversion fails; otherwise a permutation of one row per dict item of the list-valued groups, sorted by security id, with rows of equal id in group order; none when holdings are missing or malformed |
| `Workbench.ItemRowsBound` | src/app/services/workbench_service.py:502-505 | a group gives at most one row per item, and exactly one when all items are dicts |
| `Workbench.PositionsWithinCount` | src/app/services/workbench_service.py:499-522 | positions never outnumber the overview's position count, and match it when every item is a dict |
| `Workbench.BySecurityIdTotal` | src/app/services/workbench_service.py:523 | ordering by security id is a total preorder |
| `Workbench.ByMagnitudeDescTotal` | src/app/services/workbench_service.py:398 | ordering by descending absolute delta is a total preorder |
| `Workbench.ChangeOf` | src/app/services/workbench_service.py:400-405 | a change keeps identity and delta; its direction is `INCREASE` if and only if the delta is not negative |
| `Workbench.RankedProperties` | src/app/services/workbench_service.py:398 | the ranking draws on the input rows, with the same length and non-increasing absolute delta |
| `Workbench.RankedStable` | src/app/services/workbench_service.py:398 | rows of equal absolute delta keep their input order in the ranking |
| `Workbench.TopChanges` | src/app/services/workbench_service.py:395-407 | at most ten changes (all rows when fewer), taken in ranked order and ordered by non-increasing absolute delta |
| `Workbench.SuffixNoLarger` | src/app/services/workbench_service.py:398-407 | in the ranking, no row after the first k has a larger absolute delta than one of them |
| `Workbench.TopChangesAreLargest` | src/app/services/workbench_service.py:395-407 | a row left out of the top changes has an absolute delta no larger than any change kept |
| `Workbench.ComposeOverview` | src/app/services/workbench_service.py:84-108 | the PA parser runs before the DPM parser, so warnings and failures list PA's before DPM's, at most two failures |
| `Workbench.GetWorkbenchOverview` | src/app/services/workbench_service.py:48-108 | a PAS error raises 502; a malformed PAS payload raises the structure error; a failed `float()` on the totals gives the catch-all 500; otherwise the overview carries the correlation id and contract version, the core snapshot's portfolio (id, client id, base currency, booking center), as-of date, market value, cash weight and position count, and the PA and DPM snapshots, warnings and failures in that order |
| `Workbench.UnavailableSnapshots` | src/app/services/workbench_service.py:686-838 | an HTTP error from PA or DPM hides that snapshot and records one failure for that service, PA's first |
| `Workbench.EmptySnapshotConverts` | src/app/services/workbench_service.py:642-654 | a snapshot without an overview gives zero market value and cash |
| `Workbench.BothSnapshotsUnavailable` | tests/unit/test_workbench_service.py:107-134 | PA at 503 and DPM at 500 still give an overview without snapshots, with both unavailable warnings and failures for pa then dpm |
| `Dpm.DpmClient.Post` | src/app/clients/dpm_client.py:174-189 | a POST to base URL plus path with the JSON body, the headers, and the client's timeout and retry settings |
| `Dpm.DpmClient.Get` | src/app/clients/dpm_client.py:191-206 | a GET to base URL plus path with the params, the headers, and the client's timeout and retry settings |
| `Dpm.DpmClient.SimulateProposal` | src/app/clients/dpm_client.py:20-30 | a POST to `/rebalance/proposals/simulate` whose headers add the `Idempotency-Key` to the propagated ones |
| `Dpm.DpmClient.CreateProposal` | src/app/clients/dpm_client.py:32-42 | a POST to `/rebalance/proposals` with the `Idempotency-Key` header |
| `Dpm.DpmClient.ListProposals` | src/app/clients/dpm_client.py:44-54 | a GET of `/rebalance/proposals` with the None-valued params dropped |
| `Dpm.DpmClient.ListRuns` | src/app/clients/dpm_client.py:56-66 | a GET of `/rebalance/runs` with the None-valued params dropped |
| `Dpm.DpmClient.GetProposal` | src/app/clients/dpm_client.py:68-78 | a GET of the proposal's path with `include_evidence` as `true`/`false` |
| `Dpm.DpmClient.GetProposalVersion` | src/app/clients/dpm_client.py:80-91 | a GET of the version's path with `include_evidence` |
| `Dpm.DpmClient.CreateProposalVersion` | src/app/clients/dpm_client.py:93-104 | a POST to the proposal's versions path with the `Idempotency-Key` header |
| `Dpm.DpmClient.TransitionProposal` | src/app/clients/dpm_client.py:106-116 | a POST to the transitions path with only the propagated headers |
| `Dpm.DpmClient.RecordApproval` | src/app/clients/dpm_client.py:118-128 | a POST to the approvals path with only the propagated headers |
| `Dpm.DpmClient.GetWorkflowEvents` | src/app/clients/dpm_client.py:130-139 | a GET of the workflow-events path with no params |
| `Dpm.DpmClient.GetApprovals` | src/app/clients/dpm_client.py:141-150 | a GET of the approvals path with no params |
| `Dpm.DpmClient.GetCapabilities` | src/app/clients/dpm_client.py:152-162 | a GET of `/integration/capabilities` with `consumerSystem` and `tenantId` |
| `Dpm.NewDpmClient` | src/app/clients/dpm_client.py:8-18 | the stored base URL is the given one minus its trailing slashes, and no longer ends in `/`; the default retry settings are 2 retries and a 0.2-second backoff |
| `Dpm.BaseUrlJoinsPath` | src/app/clients/dpm_client.py:15 | trailing slashes on the configured base URL do not change any request URL |
| `Dpm.StripPadding` | src/app/clients/dpm_client.py:15 | stripping ignores any number of extra trailing slashes |
| `Dpm.Headers` | src/app/clients/dpm_client.py:164-172 | the propagated headers, overridden and extended by the extras; unchanged when there are no extras |
| `Dpm.CleanParams` | src/app/clients/dpm_client.py:49 | the cleaned params drop None values, keep every other value under its key, add no key, and are unchanged when nothing is None |
| `Dpm.CleanParamsDropsNone` | src/app/clients/dpm_client.py:49 | a None-valued parameter is not sent |
| `Dpm.LookupAbsent` | src/app/clients/dpm_client.py:49 | the cleaning adds no key that the caller did not give |
| `Dpm.EvidenceFlag` | src/app/clients/dpm_client.py:76 | `str(bool).lower()` is `true` or `false` |
| `Dpm.PathsEmbedIdentifiers` | src/app/clients/dpm_client.py:75-147 | every per-proposal path starts with `/rebalance/proposals/` and the proposal id |
| `Dpm.PathsInjective` | src/app/clients/dpm_client.py:75-88 | different proposal ids, or different version numbers, give different paths |
| `Dpm.VersionReadScenario` | tests/unit/test_upstream_clients.py:327-392 | reading version 2 of `PR-1` without evidence is a GET of `http://dpm/rebalance/proposals/PR-1/versions/2` with `include_evidence=false`, 2 retries and the configured timeout |
| `Proposals.UpstreamError` | src/app/services/proposal_service.py:287-296 | no error below 400; otherwise DPM's own status, with the payload as detail: itself when a string, its `str` otherwise |
| `Proposals.Respond` | src/app/services/proposal_service.py:49-54 | an error exactly at 400 or above; otherwise an envelope with DPM's payload unchanged, the caller's correlation id and the configured contract version |
| `Proposals.DetailMessagePassedThrough` | src/app/services/proposal_service.py:293-296 | a `{"detail": m}` reply reaches the caller as `{'detail': 'm'}` |
| `Proposals.EventType` | src/app/services/proposal_service.py:140-144 | compliance review exactly for `COMPLIANCE`, risk review for every other review type |
| `Proposals.TransitionBody` | src/app/services/proposal_service.py:145-152 | the body has the event type, actor, expected state and reason, and `related_version_no` exactly when a version is given |
| `Proposals.ApprovalTypeNamesDistinct` | src/app/services/proposal_service.py:166-221 | the three approval operations send three distinct approval types |
| `Proposals.ApprovalBody` | src/app/services/proposal_service.py:265-273 | always `approved: true`, with the approval type, actor, expected state and details, and `related_version_no` exactly when given |
| `Proposals.SubmitProposal` | src/app/services/proposal_service.py:130-164 | sends the transition body to the transitions path, and answers as `Respond` does |
| `Proposals.RecordApproval` | src/app/services/proposal_service.py:255-285 | sends the approval body to the approvals path, and answers as `Respond` does |
| `Proposals.ApprovalConflictScenario` | tests/unit/test_proposal_service.py:120-135 | a risk approval answered with 409 `STATE_CONFLICT` fails with 409 and names the conflict, having sent `approval_type` `RISK`, `approved` true, and no related version |
| `Text.NatDecimalRoundTrip` | src/app/clients/dpm_client.py:88 | the decimal rendering of a version number reads back as that number |
| `Text.IntToDecimalInjective` | src/app/clients/dpm_client.py:88 | different integers render differently |
| `Text.IntToDecimalSign` | src/app/clients/dpm_client.py:88 | a leading minus sign appears exactly for negative numbers |
| `Text.RStrip` | src/app/clients/dpm_client.py:15 | the result is a prefix not ending in the character, and everything removed is that character |
| `Text.RStripIdempotent` | src/app/clients/dpm_client.py:15 | stripping twice is stripping once |
| `Text.UpperIgnoresCase` | src/app/clients/http_resilience.py:35 | upper-casing ignores earlier lower- or upper-casing |
| `Text.StrLeTotal` | src/app/services/workbench_service.py:523 | string order is total |
| `Text.StrLeTransitive` | src/app/services/workbench_service.py:523 | string order is transitive |
| `Json.Lookup` | src/app/services/workbench_service.py:528 | `dict.get` finds a value exactly when the key is present, and the value is stored under that key |
| `Json.Str` | src/app/services/proposal_service.py:293-296 | `str` of a string is the string itself, and of a dict is a `{…}` rendering |
| `Json.StrOr` | src/app/services/workbench_service.py:672 | `str(d.get(k, default))`: the default when the key is absent, the string when it holds one |
| `Json.OptionalStr` | src/app/services/workbench_service.py:673-677 | `str(d[k]) if d.get(k) is not None else None` |
| `Sorting.InsertSorted` | src/app/services/workbench_service.py:523 | inserting into a sorted sequence keeps it sorted |
| `Sorting.Sort` | src/app/services/workbench_service.py:523 | sorting gives a permutation of the input, sorted under a total preorder |
| `Sorting.LevelAppend` | src/app/services/workbench_service.py:523 | the elements level with a key split over a concatenation |
| `Sorting.InsertStable` | src/app/services/workbench_service.py:523 | inserting an element places it after every element level with it |
| `Sorting.SortStable` | src/app/services/workbench_service.py:523 | the sort is stable: elements level with any key keep their input order |

## Left out

- Concurrency: `asyncio.gather` is modelled by its results, in argument order. Sleeping is modelled by the list of delays the retry loop would sleep.
- Transport: the retry loop's outcomes are a parameter. Each is a response, a timeout or a network error. Exceptions of other kinds propagate in the source and are not modelled. Neither is JSON byte decoding: a body is already decoded, or it is text that failed to decode.
- `multipart` uploads: the `data`/`files` arguments of `request_with_retry` are not modelled, because no DPM route uses them.
- Headers: `propagation_headers(correlation_id)` is not part of this model. Its result is a parameter (`propagation`) of every DPM route.
- Dates: `date.today()` is a parameter (`today`).
- Floats: floating-point rounding is not modelled. The cash weight, the derived `weight_pct` and the `quantity` of a position row are computed in exact real arithmetic, and the `.4f` rendering of simulated quantities is kept as a `real`. Payload numbers are carried as JSON values. `float()` is a parameter `toFloat` that may fail. A failure in `_parse_pas_core_snapshot`, or on a position's `quantity` or `weight_pct`, escapes to the application's catch-all handler (src/app/main.py:55-69), modelled as `Workbench.UnexpectedError`; `_parse_position_market_value` instead catches the failures it expects and tries the next key (see the next line).
- `Workbench.PositionMarketValue`: every `float()` failure is treated as one the helper catches (`TypeError`, `ValueError`) and skips. An `OverflowError`, such as `float()` of a JSON integer with more than 308 digits, escapes the helper in the source and ends in the catch-all 500. The model has one failure channel, so for such a value it moves on to the next key instead of failing.
- `Workbench.LatestRun`: a `datetime` `created_at` (as opposed to a string) is treated as absent, because timezone conversion is not modelled.
- `Json.Repr`: Python's `repr` of strings is modelled without escaping of quotes or control characters.
- Response validation: pydantic response models and validation are not modelled. Responses are plain datatypes.
- The DPM client methods build the request `request_with_retry` would be called with, and do not perform it. `Resilience.RequestWithRetry` models that call.
- Request bodies are maps. Key order in a JSON body is not modelled; it has no effect on the JSON DPM receives.
- Pass-through operations: `simulate_proposal`, `create_proposal`, `list_proposals`, `get_proposal`, `get_proposal_version`, `create_proposal_version`, `get_workflow_events` and `get_approvals` in the proposal service are modelled by their DPM route together with `Proposals.Respond`. Each only forwards and wraps. `simulate_proposal` inlines the same error check as `Proposals.UpstreamError`.
- Other parts of the repository: the other upstream clients (PAS, PA, reporting, decisioning, ingestion), the routers, the intake and reporting services, and the rest of the workbench service (sandbox sessions, analytics, the allocation buckets and the risk proxy) are not part of this model.
- Typed contracts: `PlatformCapabilitiesNormalized` (referenced by the capabilities service) and `ProposalEnvelopeResponse` (imported by the proposal service, src/app/services/proposal_service.py:7) are absent from the contracts modules of this revision. The normalized view and the envelope are modelled from the service code.
- Test mismatches: some unit tests of this revision expect an `Idempotency-Key` header on transitions and approvals, or `lotus-manage` as the DPM source name. The code sends neither that header nor that name, so the model follows the code.
