/** The proposal service: it shapes the workflow bodies it sends to DPM, and turns DPM's
    answer into either the gateway's envelope or an HTTP error with DPM's own status. */
module Proposals {
  import opened Wrappers
  import opened Text
  import opened Json
  import Dpm

  datatype Envelope = Envelope(correlationId: string, contractVersion: string, data: Json)

  /** `_raise_for_upstream_error`, and the same check inlined in `simulate_proposal`: the
      status is passed through and the detail is the payload itself when it is a string,
      its `str` otherwise. */
  function UpstreamError(upstreamStatus: int, payload: Json): (e: Option<HttpError>)
    ensures e.None? <==> upstreamStatus < 400
    ensures e.Some? ==> e.value.status == upstreamStatus && e.value.detail == Str(payload)
    ensures e.Some? && payload.JStr? ==> e.value.detail == payload.s
    ensures e.Some? && payload.JDict? ==> e.value.detail == Repr(payload)
  {
    if upstreamStatus >= 400 then Some(HttpError(upstreamStatus, Str(payload))) else None
  }

  /** Every service operation's answer: the error above, or the envelope around DPM's
      payload, unchanged, with the caller's correlation id and the configured contract
      version (`settings.contract_version`). */
  function Respond(upstreamStatus: int, payload: Json, correlationId: string, contractVersion: string)
    : (r: Result<Envelope, HttpError>)
    ensures r.Err? <==> upstreamStatus >= 400
    ensures r.Err? ==> r.error == UpstreamError(upstreamStatus, payload).value
    ensures r.Ok? ==> r.value.data == payload && r.value.correlationId == correlationId
    ensures r.Ok? ==> r.value.contractVersion == contractVersion
  {
    var e := UpstreamError(upstreamStatus, payload);
    if e.Some? then Err(e.value) else Ok(Envelope(correlationId, contractVersion, payload))
  }

  /** A `{"detail": message}` error from DPM reaches the caller with its message in the
      detail text. */
  lemma DetailMessagePassedThrough(upstreamStatus: int, message: string)
    requires upstreamStatus >= 400
    ensures UpstreamError(upstreamStatus, DetailDict(JStr(message))).value.detail == "{'detail': '" + message + "'}"
  {
    var entries := [Entry(JStr("detail"), JStr(message))];
    var part := Repr(JStr("detail")) + ": " + Repr(JStr(message));
    assert seq(|entries|, k requires 0 <= k < |entries| => Repr(entries[k].key) + ": " + Repr(entries[k].value)) == [part];
    assert Repr(JDict(entries)) == "{" + part + "}";
  }

  const ComplianceEvent := "SUBMITTED_FOR_COMPLIANCE_REVIEW"
  const RiskEvent := "SUBMITTED_FOR_RISK_REVIEW"

  /** The workflow event of a submission: compliance review exactly for `"COMPLIANCE"`,
      risk review for every other review type. */
  function EventType(reviewType: string): (e: string)
    ensures e == ComplianceEvent <==> reviewType == "COMPLIANCE"
    ensures e == RiskEvent <==> reviewType != "COMPLIANCE"
  {
    if reviewType == "COMPLIANCE" then ComplianceEvent else RiskEvent
  }

  const RelatedVersionKey := "related_version_no"

  /** `d["related_version_no"] = v` when a version is given. */
  function WithRelatedVersion(body: map<string, Json>, relatedVersionNo: Option<int>): map<string, Json>
  {
    if relatedVersionNo.Some? then body[RelatedVersionKey := JInt(relatedVersionNo.value)] else body
  }

  /** The transition body `submit_proposal` sends. */
  function TransitionBody(reviewType: string, actorId: string, expectedState: string, reason: Json,
                          relatedVersionNo: Option<int>): (b: map<string, Json>)
    ensures b.Keys == {"event_type", "actor_id", "expected_state", "reason"} +
                      (if relatedVersionNo.Some? then {RelatedVersionKey} else {})
    ensures b["event_type"] == JStr(EventType(reviewType))
    ensures b["actor_id"] == JStr(actorId) && b["expected_state"] == JStr(expectedState) && b["reason"] == reason
    ensures RelatedVersionKey in b <==> relatedVersionNo.Some?
    ensures relatedVersionNo.Some? ==> b[RelatedVersionKey] == JInt(relatedVersionNo.value)
  {
    var body := map["event_type" := JStr(EventType(reviewType)), "actor_id" := JStr(actorId),
                    "expected_state" := JStr(expectedState), "reason" := reason];
    WithRelatedVersion(body, relatedVersionNo)
  }

  datatype ApprovalType = Risk | Compliance | ClientConsent

  function ApprovalTypeName(t: ApprovalType): string
  {
    match t
    case Risk => "RISK"
    case Compliance => "COMPLIANCE"
    case ClientConsent => "CLIENT_CONSENT"
  }

  /** The three approval operations send three different approval types. */
  lemma ApprovalTypeNamesDistinct(s: ApprovalType, t: ApprovalType)
    ensures ApprovalTypeName(s) == ApprovalTypeName(t) <==> s == t
  {
    assert "RISK"[0] == 'R' && "COMPLIANCE"[0] == 'C' && "CLIENT_CONSENT"[1] == 'L' && "COMPLIANCE"[1] == 'O';
  }

  /** The approval payload `_record_approval` sends: always approving, with the actor, the
      expected state and the details unchanged. */
  function ApprovalBody(approvalType: ApprovalType, actorId: string, expectedState: string, details: Json,
                        relatedVersionNo: Option<int>): (b: map<string, Json>)
    ensures b.Keys == {"approval_type", "approved", "actor_id", "expected_state", "details"} +
                      (if relatedVersionNo.Some? then {RelatedVersionKey} else {})
    ensures b["approval_type"] == JStr(ApprovalTypeName(approvalType)) && b["approved"] == JBool(true)
    ensures b["actor_id"] == JStr(actorId) && b["expected_state"] == JStr(expectedState) && b["details"] == details
    ensures RelatedVersionKey in b <==> relatedVersionNo.Some?
    ensures relatedVersionNo.Some? ==> b[RelatedVersionKey] == JInt(relatedVersionNo.value)
  {
    var body := map["approval_type" := JStr(ApprovalTypeName(approvalType)), "approved" := JBool(true),
                    "actor_id" := JStr(actorId), "expected_state" := JStr(expectedState), "details" := details];
    assert "approved"[3] != "actor_id"[3];
    WithRelatedVersion(body, relatedVersionNo)
  }

  /** `submit_proposal`: the transition request it sends through the client, and its answer
      to DPM's reply `(upstreamStatus, upstreamPayload)`. */
  method SubmitProposal(client: Dpm.DpmClient, proposalId: string, actorId: string, expectedState: string,
                        reviewType: string, reason: Json, relatedVersionNo: Option<int>, correlationId: string,
                        propagation: map<string, string>, contractVersion: string, upstreamStatus: int, upstreamPayload: Json)
    returns (request: Dpm.Request, r: Result<Envelope, HttpError>)
    ensures request == client.Post(Dpm.TransitionsPath(proposalId),
                                   TransitionBody(reviewType, actorId, expectedState, reason, relatedVersionNo), propagation)
    ensures r == Respond(upstreamStatus, upstreamPayload, correlationId, contractVersion)
  {
    var body := TransitionBody(reviewType, actorId, expectedState, reason, relatedVersionNo);
    request := client.TransitionProposal(proposalId, body, propagation);
    r := Respond(upstreamStatus, upstreamPayload, correlationId, contractVersion);
  }

  /** `_record_approval`, behind `approve_risk`, `approve_compliance` and
      `record_client_consent`. */
  method RecordApproval(client: Dpm.DpmClient, proposalId: string, approvalType: ApprovalType, actorId: string,
                        expectedState: string, details: Json, relatedVersionNo: Option<int>, correlationId: string,
                        propagation: map<string, string>, contractVersion: string, upstreamStatus: int, upstreamPayload: Json)
    returns (request: Dpm.Request, r: Result<Envelope, HttpError>)
    ensures request == client.Post(Dpm.ApprovalsPath(proposalId),
                                   ApprovalBody(approvalType, actorId, expectedState, details, relatedVersionNo), propagation)
    ensures r == Respond(upstreamStatus, upstreamPayload, correlationId, contractVersion)
  {
    var body := ApprovalBody(approvalType, actorId, expectedState, details, relatedVersionNo);
    request := client.RecordApproval(proposalId, body, propagation);
    r := Respond(upstreamStatus, upstreamPayload, correlationId, contractVersion);
  }

  /** The approval-conflict scenario of the service's unit tests: a risk approval that DPM
      rejects with 409 `STATE_CONFLICT` fails with 409 and names the conflict. */
  method ApprovalConflictScenario() returns (request: Dpm.Request, r: Result<Envelope, HttpError>)
    ensures r.Err? && r.error.status == 409
    ensures r.error.detail == "{'detail': '" + "STATE_CONFLICT" + "'}"
    ensures request.call.Post? && request.call.jsonBody.Some?
    ensures "approval_type" in request.call.jsonBody.value && "approved" in request.call.jsonBody.value
    ensures request.call.jsonBody.value["approval_type"] == JStr("RISK") && request.call.jsonBody.value["approved"] == JBool(true)
    ensures "related_version_no" !in request.call.jsonBody.value
  {
    var client := Dpm.NewDpmClient("http://dpm", 3.0);
    DetailMessagePassedThrough(409, "STATE_CONFLICT");
    request, r := RecordApproval(client, "pp_1", Risk, "risk_1", "RISK_REVIEW", JDict([]), None, "corr_4",
                                 map[], "v1", 409, DetailDict(JStr("STATE_CONFLICT")));
  }
}
