/** The submit-then-poll protocol client
    (`verifyContract`, `getVerificationStatus` in
    packages/hardhat-blockscout/src/blockscout/BlockscoutService.ts).
    The HTTP exchanges are inputs: each call to `fetch` is represented by the
    `FetchResult` it produced, and the poll loop consumes a finite stream of
    them instead of waiting between requests. */
module Service {
  import opened Wrappers
  import opened Requests
  import opened Responses
  import opened JsParseInt

  /** Pause between two status polls, in milliseconds. */
  const VerificationIntervalMs: nat := 3000

  /** A received HTTP response: its status code, its body as text, and its
      body decoded as the JSON envelope (`None` when it does not decode). */
  datatype HttpReply = HttpReply(statusCode: int, bodyText: string, json: Option<RawReply>)
  {
    /** `Response.ok` of the Fetch standard: a 2xx status. */
    predicate Ok() { 200 <= statusCode <= 299 }
  }

  /** The outcome of one `fetch`: a response, or a rejection (DNS failure,
      refused connection, time-out) with its message. */
  datatype FetchResult = FetchFailed(reason: string) | Fetched(reply: HttpReply)

  /** Why a status poll could not be observed. */
  datatype PollFailure = PollFetchFailed(reason: string) | PollHttpNotOk(statusCode: int, bodyText: string)

  /** The errors the two operations throw. */
  datatype ServiceError =
    | SubmitSendFailed(url: string, reason: string)
    | SubmitHttpNotOk(url: string, statusCode: int, bodyText: string)
    | BytecodeNotIndexed(url: string, contractaddress: string)
    | SubmitRejected(message: string)
    | PollObservationFailed(url: string, req: BlockscoutCheckStatusRequest, cause: PollFailure)
    | PollRejected(message: string)
    | BodyNotJson

  /** `verifyContract`: the submission and the checks made on its reply. */
  function VerifyContract(url: string, req: BlockscoutVerifyRequest, reply: FetchResult)
    : (r: Result<BlockscoutResponse, ServiceError>)
    ensures r.Success? ==> reply.Fetched? && reply.reply.Ok() && reply.reply.json.Some?
    ensures r.Success? ==> r.value == FromReply(reply.reply.json.value)
    ensures r.Success? ==> r.value.IsOk() && !r.value.IsBytecodeMissingInNetworkError()
  {
    match reply
    case FetchFailed(reason) => Failure(SubmitSendFailed(url, reason))
    case Fetched(http) =>
      if !http.Ok() then Failure(SubmitHttpNotOk(url, http.statusCode, http.bodyText))
      else match http.json
        case None => Failure(BodyNotJson)
        case Some(raw) =>
          var response := FromReply(raw);
          if response.IsBytecodeMissingInNetworkError() then Failure(BytecodeNotIndexed(url, req.contractaddress))
          else if !response.IsOk() then Failure(SubmitRejected(response.message))
          else Success(response)
  }

  /** A reply the submission accepts is exactly a 2xx reply whose envelope
      decodes, is ok, and does not report missing bytecode. */
  lemma VerifyContractAccepts(url: string, req: BlockscoutVerifyRequest, http: HttpReply, raw: RawReply)
    requires http.Ok() && http.json == Some(raw)
    ensures VerifyContract(url, req, Fetched(http)).Success? <==>
      FromReply(raw).IsOk() && !FromReply(raw).IsBytecodeMissingInNetworkError()
  {
  }

  /** A transport failure or a non-2xx status fails with the URL and, for a
      status, the code and the verbatim body, whatever the body holds. */
  lemma VerifyContractTransportErrors(url: string, req: BlockscoutVerifyRequest, reply: FetchResult)
    ensures reply.FetchFailed? ==> VerifyContract(url, req, reply) == Failure(SubmitSendFailed(url, reply.reason))
    ensures reply.Fetched? && !reply.reply.Ok() ==>
      VerifyContract(url, req, reply) == Failure(SubmitHttpNotOk(url, reply.reply.statusCode, reply.reply.bodyText))
  {
  }

  /** Missing bytecode is checked before the status, so it fails even when
      the status is 1; any other not-ok reply fails with its own message. */
  lemma VerifyContractApiErrors(url: string, req: BlockscoutVerifyRequest, http: HttpReply, raw: RawReply)
    requires http.Ok() && http.json == Some(raw)
    ensures FromReply(raw).IsBytecodeMissingInNetworkError() ==>
      VerifyContract(url, req, Fetched(http)) == Failure(BytecodeNotIndexed(url, req.contractaddress))
    ensures !FromReply(raw).IsBytecodeMissingInNetworkError() && !FromReply(raw).IsOk() ==>
      VerifyContract(url, req, Fetched(http)) == Failure(SubmitRejected(raw.result))
  {
  }

  /** What one pass through the body of `getVerificationStatus` decides:
      poll again, or stop with a returned response or a thrown error. */
  datatype PollStep = Again | Stop(result: Result<BlockscoutResponse, ServiceError>)

  /** A reply that sends the loop round again: a 2xx reply whose envelope
      decodes and carries the pending message, whatever its status. */
  predicate IsPendingReply(reply: FetchResult)
  {
    reply.Fetched? && reply.reply.Ok() && reply.reply.json.Some? && FromReply(reply.reply.json.value).IsPending()
  }

  /** One status poll and the classification of its reply. */
  function PollOnce(url: string, req: BlockscoutCheckStatusRequest, reply: FetchResult): (s: PollStep)
    ensures s.Again? <==> IsPendingReply(reply)
    ensures s.Stop? && s.result.Success? ==>
      reply.Fetched? && reply.reply.Ok() && reply.reply.json.Some? && s.result.value == FromReply(reply.reply.json.value)
    ensures s.Stop? && s.result.Success? ==> s.result.value.IsOk() || s.result.value.IsVerificationFailure()
    ensures s.Stop? && s.result.Success? <==>
      reply.Fetched? && reply.reply.Ok() && reply.reply.json.Some? &&
      !FromReply(reply.reply.json.value).IsPending() &&
      (FromReply(reply.reply.json.value).IsOk() || FromReply(reply.reply.json.value).IsVerificationFailure())
  {
    match reply
    case FetchFailed(reason) => Stop(Failure(PollObservationFailed(url, req, PollFetchFailed(reason))))
    case Fetched(http) =>
      if !http.Ok() then Stop(Failure(PollObservationFailed(url, req, PollHttpNotOk(http.statusCode, http.bodyText))))
      else match http.json
        case None => Stop(Failure(BodyNotJson))
        case Some(raw) =>
          var response := FromReply(raw);
          if response.IsPending() then Again
          else if response.IsVerificationFailure() then Stop(Success(response))
          else if !response.IsOk() then Stop(Failure(PollRejected(response.message)))
          else Stop(Success(response))
  }

  /** Where polling over a stream of replies ends: decided by the reply at
      index `attempt`, or still pending when the stream runs out. */
  datatype Polled = Done(result: Result<BlockscoutResponse, ServiceError>, attempt: nat) | StillPending

  /** `getVerificationStatus` over a stream of replies, recursing as the
      source does on a pending reply. The outcome is decided by the first
      reply that is not pending. */
  function Poll(url: string, req: BlockscoutCheckStatusRequest, replies: seq<FetchResult>): (p: Polled)
    ensures p.StillPending? <==> forall j :: 0 <= j < |replies| ==> IsPendingReply(replies[j])
    ensures p.Done? ==> p.attempt < |replies| && !IsPendingReply(replies[p.attempt])
    ensures p.Done? ==> forall j :: 0 <= j < p.attempt ==> IsPendingReply(replies[j])
    ensures p.Done? ==> PollOnce(url, req, replies[p.attempt]) == Stop(p.result)
    decreases |replies|
  {
    if replies == [] then StillPending
    else
      var step := PollOnce(url, req, replies[0]);
      if step.Stop? then Done(step.result, 0)
      else
        var rest := Poll(url, req, replies[1..]);
        assert IsPendingReply(replies[0]);
        assert forall j :: 1 <= j < |replies| ==> replies[j] == replies[1..][j - 1];
        if rest.StillPending? then StillPending
        else
          assert replies[rest.attempt + 1] == replies[1..][rest.attempt];
          Done(rest.result, rest.attempt + 1)
  }

  /** The first reply that is not pending decides the outcome, at its index. */
  lemma PollDecidedAt(url: string, req: BlockscoutCheckStatusRequest, replies: seq<FetchResult>, i: nat)
    requires i < |replies| && !IsPendingReply(replies[i])
    requires forall j :: 0 <= j < i ==> IsPendingReply(replies[j])
    ensures Poll(url, req, replies) == Done(PollOnce(url, req, replies[i]).result, i)
  {
    var pending, rest := replies[..i], replies[i..];
    assert pending + rest == replies;
    assert rest[0] == replies[i];
    assert forall j :: 0 <= j < |pending| ==> pending[j] == replies[j];
    PollSkipsPending(url, req, pending, rest);
  }

  /** The poll loop. It returns what `Poll` describes and the time the source
      would have spent waiting between the requests. */
  method GetVerificationStatus(url: string, req: BlockscoutCheckStatusRequest, replies: seq<FetchResult>)
    returns (p: Polled, waitedMs: nat)
    ensures p == Poll(url, req, replies)
    ensures p.Done? ==> waitedMs == p.attempt * VerificationIntervalMs
    ensures p.StillPending? ==> waitedMs == |replies| * VerificationIntervalMs
  {
    var i := 0;
    waitedMs := 0;
    while i < |replies|
      invariant i <= |replies|
      invariant forall j :: 0 <= j < i ==> IsPendingReply(replies[j])
      invariant waitedMs == i * VerificationIntervalMs
    {
      var step := PollOnce(url, req, replies[i]);
      if step.Stop? {
        p := Done(step.result, i);
        PollDecidedAt(url, req, replies, i);
        return;
      }
      waitedMs := waitedMs + VerificationIntervalMs;
      i := i + 1;
    }
    p := StillPending;
  }

  /** Every response the poll returns is ok or a definite verification failure. */
  lemma PolledResponseIsTerminal(url: string, req: BlockscoutCheckStatusRequest, replies: seq<FetchResult>)
    requires Poll(url, req, replies).Done? && Poll(url, req, replies).result.Success?
    ensures Poll(url, req, replies).result.value.IsOk() || Poll(url, req, replies).result.value.IsVerificationFailure()
  {
  }

  /** Pending replies in front of a stream only delay the outcome: the
      outcome is the one of the rest of the stream, one attempt later per
      pending reply. */
  lemma {:induction false} PollSkipsPending(url: string, req: BlockscoutCheckStatusRequest,
                                            pending: seq<FetchResult>, replies: seq<FetchResult>)
    requires forall j :: 0 <= j < |pending| ==> IsPendingReply(pending[j])
    ensures Poll(url, req, pending + replies) ==
      match Poll(url, req, replies)
      case StillPending => StillPending
      case Done(result, k) => Done(result, k + |pending|)
  {
    if pending != [] {
      assert (pending + replies)[0] == pending[0];
      assert (pending + replies)[1..] == pending[1..] + replies;
      PollSkipsPending(url, req, pending[1..], replies);
    } else {
      assert pending + replies == replies;
    }
  }

  /** The replies after the deciding one are never looked at. */
  lemma PollIgnoresLaterReplies(url: string, req: BlockscoutCheckStatusRequest, replies: seq<FetchResult>, later: seq<FetchResult>)
    requires Poll(url, req, replies).Done?
    ensures Poll(url, req, replies + later) == Poll(url, req, replies)
  {
    var p := Poll(url, req, replies);
    var all := replies + later;
    var q := Poll(url, req, all);
    assert all[p.attempt] == replies[p.attempt];
    assert forall j :: 0 <= j < p.attempt ==> all[j] == replies[j];
  }

  /** A transport failure or a non-2xx status while polling is thrown as an
      observation failure and no response is returned for it. */
  lemma PollObservationErrors(url: string, req: BlockscoutCheckStatusRequest, reply: FetchResult)
    ensures reply.FetchFailed? ==>
      PollOnce(url, req, reply) == Stop(Failure(PollObservationFailed(url, req, PollFetchFailed(reply.reason))))
    ensures reply.Fetched? && !reply.reply.Ok() ==>
      PollOnce(url, req, reply) == Stop(Failure(PollObservationFailed(url, req,
        PollHttpNotOk(reply.reply.statusCode, reply.reply.bodyText))))
  {
  }

  /** The pending test comes before the status test: a pending message with
      status 0 keeps polling. A verification failure is returned even when
      not ok; any other not-ok reply is thrown with its message; any other
      ok reply is returned. */
  lemma PollClassificationOrder(url: string, req: BlockscoutCheckStatusRequest, http: HttpReply, raw: RawReply)
    requires http.Ok() && http.json == Some(raw)
    ensures raw.result == PendingMessage ==> PollOnce(url, req, Fetched(http)) == Again
    ensures raw.result == VerificationFailureMessage ==> PollOnce(url, req, Fetched(http)) == Stop(Success(FromReply(raw)))
    ensures raw.result != PendingMessage && raw.result != VerificationFailureMessage && !FromReply(raw).IsOk() ==>
      PollOnce(url, req, Fetched(http)) == Stop(Failure(PollRejected(raw.result)))
    ensures raw.result != PendingMessage && FromReply(raw).IsOk() ==>
      PollOnce(url, req, Fetched(http)) == Stop(Success(FromReply(raw)))
  {
  }

  /** A 200 reply carrying the given envelope. */
  function JsonReply(status: string, result: string): FetchResult
  {
    Fetched(HttpReply(200, "", Some(RawReply(status, result))))
  }

  /** An accepted submission hands back the reply, whose message is the GUID
      the status request is then built with. */
  lemma SubmissionAccepted(url: string, req: BlockscoutVerifyRequest, apiKey: string)
    ensures VerifyContract(url, req, JsonReply("1", "abc123guid")) == Success(BlockscoutResponse(Num(1), "abc123guid"))
    ensures ToCheckStatusRequest(CheckStatusParams(apiKey, VerifyContract(url, req, JsonReply("1", "abc123guid")).value.message)).guid == "abc123guid"
  {
    var raw := RawReply("1", "abc123guid");
    IsOkOfWireStatus(raw);
    assert !FromReply(raw).IsBytecodeMissingInNetworkError();
    assert VerifyContract(url, req, JsonReply("1", "abc123guid")) == Success(FromReply(raw));
  }

  /** A pending reply, then a verified one: two requests, and the verified
      reply is returned. */
  lemma PendingThenVerified(url: string, req: BlockscoutCheckStatusRequest)
    ensures Poll(url, req, [JsonReply("0", PendingMessage), JsonReply("1", VerificationSuccessMessage)]) ==
      Done(Success(FromReply(RawReply("1", VerificationSuccessMessage))), 1)
    ensures FromReply(RawReply("1", VerificationSuccessMessage)).IsVerificationSuccess()
  {
    IsOkOfWireStatus(RawReply("1", VerificationSuccessMessage));
    var replies := [JsonReply("0", PendingMessage), JsonReply("1", VerificationSuccessMessage)];
    assert replies[1..] == [JsonReply("1", VerificationSuccessMessage)];
  }

  /** A definite verification failure ends polling at once and is returned,
      not thrown, whatever follows it. */
  lemma FailureReturnedAtOnce(url: string, req: BlockscoutCheckStatusRequest, later: seq<FetchResult>)
    ensures Poll(url, req, [JsonReply("0", VerificationFailureMessage)] + later) ==
      Done(Success(FromReply(RawReply("0", VerificationFailureMessage))), 0)
  {
  }

  /** Missing bytecode at submission fails before any polling can start. */
  lemma BytecodeMissingFailsFast(url: string, req: BlockscoutVerifyRequest)
    ensures VerifyContract(url, req, JsonReply("0", "Unable to locate ContractCode at 0xabc")) ==
      Failure(BytecodeNotIndexed(url, req.contractaddress))
  {
    assert "Unable to locate ContractCode at 0xabc"[..|BytecodeMissingPrefix|] == BytecodeMissingPrefix;
  }
}
