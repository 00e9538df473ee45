/** The explorer's reply envelope and the classification of it
    (`BlockscoutResponse` in
    packages/hardhat-blockscout/src/blockscout/BlockscoutService.ts).
    Its two fields are read-only in the source, so it is a value here. */
module Responses {
  import opened JsParseInt

  /** The decoded JSON reply `{status, result}`, both as strings. */
  datatype RawReply = RawReply(status: string, result: string)

  const PendingMessage := "Pending in queue"
  const VerificationFailureMessage := "Fail - Unable to verify"
  const VerificationSuccessMessage := "Pass - Verified"
  const BytecodeMissingPrefix := "Unable to locate ContractCode at"

  datatype BlockscoutResponse = BlockscoutResponse(status: ParsedInt, message: string)
  {
    predicate IsPending() { message == PendingMessage }

    predicate IsVerificationFailure() { message == VerificationFailureMessage }

    predicate IsVerificationSuccess() { message == VerificationSuccessMessage }

    predicate IsBytecodeMissingInNetworkError() { BytecodeMissingPrefix <= message }

    predicate IsOk() { status == Num(1) }
  }

  /** The constructor: `status` is `parseInt(status, 10)`, `message` is `result`. */
  function FromReply(raw: RawReply): (r: BlockscoutResponse)
    ensures r.message == raw.result
  {
    BlockscoutResponse(ParseInt(raw.status), raw.result)
  }

  /** A reply is ok exactly when its status renders the integer 1. */
  lemma IsOkOfRenderedStatus(n: int, result: string)
    ensures FromReply(RawReply(IntToDecimal(n), result)).IsOk() <==> n == 1
  {
    ParseIntOfDecimal(n);
  }

  /** The wire values "1" and "0" classify as ok and not ok; a status with no
      digit at all is `NaN` and never ok. */
  lemma IsOkOfWireStatus(raw: RawReply)
    ensures raw.status == "1" ==> FromReply(raw).IsOk()
    ensures raw.status == "0" ==> !FromReply(raw).IsOk()
    ensures (forall i :: 0 <= i < |raw.status| ==> !IsDigit(raw.status[i])) ==> !FromReply(raw).IsOk()
  {
    if raw.status == "1" {
      IsOkOfRenderedStatus(1, raw.result);
    } else if raw.status == "0" {
      IsOkOfRenderedStatus(0, raw.result);
    } else if forall i :: 0 <= i < |raw.status| ==> !IsDigit(raw.status[i]) {
      ParseIntWithoutDigits(raw.status);
    }
  }

  /** The three literal tests are exact and pairwise exclusive. */
  lemma LiteralsExclusive(r: BlockscoutResponse)
    ensures r.IsPending() ==> !r.IsVerificationFailure() && !r.IsVerificationSuccess()
    ensures r.IsVerificationFailure() ==> !r.IsVerificationSuccess()
  {
  }

  /** No literal message starts with the bytecode-missing prefix. */
  lemma BytecodeMissingExclusive(r: BlockscoutResponse)
    ensures r.IsBytecodeMissingInNetworkError() ==>
      !r.IsPending() && !r.IsVerificationFailure() && !r.IsVerificationSuccess()
  {
    if r.IsBytecodeMissingInNetworkError() {
      assert r.message[0] == r.message[..|BytecodeMissingPrefix|][0] == BytecodeMissingPrefix[0] == 'U';
    }
  }

  /** The pending literal classifies as pending and as nothing else. */
  lemma PendingClassifiesUniquely(raw: RawReply)
    requires raw.result == PendingMessage
    ensures FromReply(raw).IsPending()
    ensures !FromReply(raw).IsVerificationFailure() && !FromReply(raw).IsVerificationSuccess()
    ensures !FromReply(raw).IsBytecodeMissingInNetworkError()
  {
    BytecodeMissingExclusive(FromReply(raw));
  }
}
