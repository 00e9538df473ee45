# Blockscout contract verification client, modelled in Dafny

This project models the decision logic of the hardhat-blockscout plugin: the
client that submits a contract's source to a block explorer's verification
API and then polls it until the verification reaches a final state.

- `wrappers.dfy` (`Wrappers`): `Option` and `Result`. A `Failure` stands for a
  thrown plugin error.
- `parse_int.dfy` (`JsParseInt`): the part of JavaScript's `parseInt(s, 10)`
  that turns the reply's `status` field into a number, including `NaN`.
- `requests.dfy` (`Requests`): the `BlockscoutVerifyRequest` and
  `BlockscoutCheckStatusRequest` records and `toVerifyRequest` /
  `toCheckStatusRequest`. The functions `FromVerifyRequest` and
  `FromCheckStatusRequest` read the parameters back, and the round-trip lemmas
  show that building a request loses nothing when the source name has no
  colon (with a colon in it, two parameter sets can build the same request).
  The TypeScript field `module` is named `apiModule`, because `module` is a
  Dafny keyword. The misspelt wire name `constructorArguements` is kept.
- `response.dfy` (`Responses`): `BlockscoutResponse`. The TypeScript class
  has only two read-only fields, so it is a datatype here. Its five
  predicates are the response classifier.
- `service.dfy` (`Service`): `verifyContract` and `getVerificationStatus`
  with the HTTP exchanges as inputs. Each `fetch` is represented by its
  `FetchResult`: a rejection, or a status code, the body text and the body
  decoded as JSON. `Poll` is the self-recursive poll as a function over a
  finite stream of replies. `GetVerificationStatus` is the same loop as a
  `while` loop, proved equal to `Poll`. It also counts the
  `verificationIntervalMs` (3000 ms) pauses it would take.
- `prober.dfy` (`Prober`): the `NetworkID` enum, the endpoint table,
  `getEtherscanEndpoints` and `retrieveContractBytecode`. The provider's
  replies (chain ID, code at the address) are parameters. Each result also
  records which JSON-RPC requests were sent. This is how the model states
  that the built-in `hardhat` network is refused before `eth_chainId` is
  asked.

The endpoint table is a function on the enum (`Endpoints`). This follows the
source's type `{[networkID in NetworkID]: BlockscoutURLs}`. Looking a number
up (`LookupEndpoints`) goes through the enum's reverse mapping (`NetworkOf`).
The lemmas show that the keys are exactly the 24 distinct enum values.

Three facts about the source shape the model:
- The table holds 24 networks (prober.ts:56-153).
- A "bytecode missing" reply is recognised only at submission
  (BlockscoutService.ts:55).
- A "could not verify" reply is recognised only while polling
  (BlockscoutService.ts:116). A bytecode-missing reply during polling is
  handled like any other message: it is thrown if its status is not 1 and
  returned if it is.

## Model

| member | source | states |
|---|---|---|
| `JsParseInt.ParseInt` | packages/hardhat-blockscout/src/blockscout/BlockscoutService.ts:138 | `parseInt(s, 10)`: leading white space, one optional sign, then the longest run of digits; NaN when that run is empty (its properties are the three lemmas below) |
| `JsParseInt.ParseIntOfDecimal` | packages/hardhat-blockscout/src/blockscout/BlockscoutService.ts:138 | parsing the plain decimal rendering of any integer gives that integer back |
| `JsParseInt.ParseIntIgnoresTrailer` | packages/hardhat-blockscout/src/blockscout/BlockscoutService.ts:138 | text after the leading digits does not change the parsed status |
| `JsParseInt.ParseIntOfPlus` | packages/hardhat-blockscout/src/blockscout/BlockscoutService.ts:138 | a plus sign before the digits is accepted and does not change the value |
| `JsParseInt.ParseIntSkipsSpace` | packages/hardhat-blockscout/src/blockscout/BlockscoutService.ts:138 | leading white space does not change the parsed status |
| `JsParseInt.ParseIntWithoutDigits` | packages/hardhat-blockscout/src/blockscout/BlockscoutService.ts:138 | a status without any digit parses to NaN |
| `Responses.FromReply` | packages/hardhat-blockscout/src/blockscout/BlockscoutService.ts:137-140 | the response's message is the reply's `result` field verbatim |
| `Responses.BlockscoutResponse.IsPending` | packages/hardhat-blockscout/src/blockscout/BlockscoutService.ts:142-144 | the message equals "Pending in queue" exactly (exclusivity in `LiteralsExclusive`) |
| `Responses.BlockscoutResponse.IsVerificationFailure` | packages/hardhat-blockscout/src/blockscout/BlockscoutService.ts:146-148 | the message equals "Fail - Unable to verify" exactly |
| `Responses.BlockscoutResponse.IsVerificationSuccess` | packages/hardhat-blockscout/src/blockscout/BlockscoutService.ts:150-152 | the message equals "Pass - Verified" exactly |
| `Responses.BlockscoutResponse.IsBytecodeMissingInNetworkError` | packages/hardhat-blockscout/src/blockscout/BlockscoutService.ts:154-156 | the message starts with "Unable to locate ContractCode at" (disjointness in `BytecodeMissingExclusive`) |
| `Responses.BlockscoutResponse.IsOk` | packages/hardhat-blockscout/src/blockscout/BlockscoutService.ts:158-160 | the parsed status is the number 1; NaN is never ok (what this means per status string is in the two lemmas below) |
| `Responses.IsOkOfRenderedStatus` | packages/hardhat-blockscout/src/blockscout/BlockscoutService.ts:158-160 | for a status rendering the integer n, the response is ok exactly when n is 1 |
| `Responses.IsOkOfWireStatus` | packages/hardhat-blockscout/src/blockscout/BlockscoutService.ts:137-160 | status "1" is ok, "0" is not, and a status with no digit (NaN) is never ok |
| `Responses.LiteralsExclusive` | packages/hardhat-blockscout/src/blockscout/BlockscoutService.ts:142-152 | pending, verification failure and verification success exclude one another |
| `Responses.BytecodeMissingExclusive` | packages/hardhat-blockscout/src/blockscout/BlockscoutService.ts:154-156 | a message with the missing-bytecode prefix is none of the three literal messages |
| `Responses.PendingClassifiesUniquely` | packages/hardhat-blockscout/src/blockscout/BlockscoutService.ts:142-156 | the pending message classifies as pending and as nothing else |
| `Requests.SplitQualifiedName` | packages/hardhat-blockscout/src/blockscout/BlockscoutVerifyContractRequest.ts:40 | a name splits exactly when it holds a colon, into a colon-free source part and the rest, which rejoin to the name |
| `Requests.SplitQualifiedNameOf` | packages/hardhat-blockscout/src/blockscout/BlockscoutVerifyContractRequest.ts:40 | splitting `sourceName:contractName` at its first colon recovers both parts when the source name has no colon |
| `Requests.ToVerifyRequest` | packages/hardhat-blockscout/src/blockscout/BlockscoutVerifyContractRequest.ts:24-44 | the request's module, action and code format are "contract", "verifysourcecode" and "solidity-standard-json-input" |
| `Requests.ToCheckStatusRequest` | packages/hardhat-blockscout/src/blockscout/BlockscoutVerifyContractRequest.ts:46-56 | the request's module and action are "contract" and "checkverifystatus" |
| `Requests.FromVerifyRequest` | packages/hardhat-blockscout/src/blockscout/BlockscoutVerifyContractRequest.ts:7-17 | only a request whose literal fields have the interface's literal types is read back |
| `Requests.VerifyRequestRoundTrip` | packages/hardhat-blockscout/src/blockscout/BlockscoutVerifyContractRequest.ts:24-44 | every parameter (API key, address, source code, source name, contract name, compiler version, constructor arguments) is recovered from the built verify request when the source name has no colon |
| `Requests.ColonInSourceNameIsLost` | packages/hardhat-blockscout/src/blockscout/BlockscoutVerifyContractRequest.ts:40 | two parameter sets whose source and contract names differ only in where a colon falls build the same request, so the round trip needs a colon-free source name |
| `Requests.VerifyRequestFromThenTo` | packages/hardhat-blockscout/src/blockscout/BlockscoutVerifyContractRequest.ts:24-44 | every readable verify request is the one built from the parameters read from it |
| `Requests.CheckStatusRequestRoundTrip` | packages/hardhat-blockscout/src/blockscout/BlockscoutVerifyContractRequest.ts:46-56 | the API key and the GUID are recovered from the built status request |
| `Requests.CheckStatusRequestFromThenTo` | packages/hardhat-blockscout/src/blockscout/BlockscoutVerifyContractRequest.ts:46-56 | every readable status request is the one built from what was read from it |
| `Requests.SharedHeader` | packages/hardhat-blockscout/src/blockscout/BlockscoutVerifyContractRequest.ts:1-5 | both requests built with one API key share the key and module "contract" and differ in the action |
| `Requests.MisspeltArgumentsField` | packages/hardhat-blockscout/src/blockscout/BlockscoutVerifyContractRequest.ts:14-16 | in the body, the constructor arguments travel under the misspelt name `constructorArguements`, and no field carries the correct spelling |
| `Requests.QualifiedNameField` | packages/hardhat-blockscout/src/blockscout/BlockscoutVerifyContractRequest.ts:40 | in the body, the `contractname` field is `sourceName:contractName` |
| `Requests.WireHeadersAgree` | packages/hardhat-blockscout/src/blockscout/BlockscoutVerifyContractRequest.ts:1-5 | for any two built requests with one API key, both bodies begin with the same `apikey` and `module` fields, and their third field, `action`, differs |
| `Requests.VerifyFields` | packages/hardhat-blockscout/src/blockscout/BlockscoutService.ts:23 | the submission body is nine (name, value) pairs, named as in `VerifyFieldNames` in the object literal's order, no name occurring twice (which value goes under which name: `VerifyFieldsRoundTrip`) |
| `Requests.CheckStatusFields` | packages/hardhat-blockscout/src/blockscout/BlockscoutService.ts:81 | the status query is four (name, value) pairs named `apikey`, `module`, `action`, `guid` in that order, no name occurring twice |
| `Requests.FromVerifyFields` | packages/hardhat-blockscout/src/blockscout/BlockscoutService.ts:23 | reading a body back by field name succeeds only when all nine names are present |
| `Requests.FromCheckStatusFields` | packages/hardhat-blockscout/src/blockscout/BlockscoutService.ts:81 | reading a status query back by field name succeeds only when all four names are present |
| `Requests.FromVerifyFieldsInOrder` | packages/hardhat-blockscout/src/blockscout/BlockscoutService.ts:23 | any body with the nine names in order, each once, reads back as the request holding its values in that order |
| `Requests.FromCheckStatusFieldsInOrder` | packages/hardhat-blockscout/src/blockscout/BlockscoutService.ts:81 | any query with the four names in order, each once, reads back as the request holding its values in that order |
| `Requests.VerifyFieldsRoundTrip` | packages/hardhat-blockscout/src/blockscout/BlockscoutService.ts:23 | for every verify request, reading its body back by name gives the request: each field travels under its own name |
| `Requests.CheckStatusFieldsRoundTrip` | packages/hardhat-blockscout/src/blockscout/BlockscoutService.ts:81 | for every status request, reading its query back by name gives the request |
| `Requests.VerifyBodyCarriesParams` | packages/hardhat-blockscout/src/blockscout/BlockscoutVerifyContractRequest.ts:24-44 | for every parameter set, the submission body carries each parameter verbatim under its field name, the qualified name under `contractname`, and the three constants |
| `Requests.CheckStatusBodyCarriesParams` | packages/hardhat-blockscout/src/blockscout/BlockscoutVerifyContractRequest.ts:46-56 | for every parameter set, the status query carries the API key and GUID verbatim and the two constants |
| `Service.VerifyContract` | packages/hardhat-blockscout/src/blockscout/BlockscoutService.ts:18-75 | a returned response is the decoded 2xx reply, is ok, and does not report missing bytecode |
| `Service.VerifyContractAccepts` | packages/hardhat-blockscout/src/blockscout/BlockscoutService.ts:53-74 | a decoded 2xx reply is accepted exactly when it is ok and does not report missing bytecode |
| `Service.VerifyContractTransportErrors` | packages/hardhat-blockscout/src/blockscout/BlockscoutService.ts:29-51 | a fetch rejection fails with the URL and reason; a non-2xx reply fails with the URL, status code and verbatim body text |
| `Service.VerifyContractApiErrors` | packages/hardhat-blockscout/src/blockscout/BlockscoutService.ts:55-72 | missing bytecode fails naming URL and address even with status 1; any other not-ok reply fails with its message |
| `Service.PollOnce` | packages/hardhat-blockscout/src/blockscout/BlockscoutService.ts:86-129 | one poll continues exactly on a decoded pending 2xx reply; it returns a response exactly for a decoded 2xx reply that is not pending and is ok or a verification failure, and that response is the decoded reply |
| `Service.Poll` | packages/hardhat-blockscout/src/blockscout/BlockscoutService.ts:77-130 | the outcome is decided by the first non-pending reply, every earlier reply being pending; it is still pending only if every reply is |
| `Service.PollDecidedAt` | packages/hardhat-blockscout/src/blockscout/BlockscoutService.ts:110-129 | when every reply before index i is pending and reply i is not, the outcome is the one reply i gives, decided at attempt i |
| `Service.GetVerificationStatus` | packages/hardhat-blockscout/src/blockscout/BlockscoutService.ts:77-130 | the loop gives the outcome `Poll` describes and waits `VerificationIntervalMs` (3000 ms, line 16) per pending reply before the deciding one |
| `Service.PolledResponseIsTerminal` | packages/hardhat-blockscout/src/blockscout/BlockscoutService.ts:116-129 | every response polling returns is ok or a definite verification failure |
| `Service.PollSkipsPending` | packages/hardhat-blockscout/src/blockscout/BlockscoutService.ts:110-114 | pending replies in front of a stream leave its outcome unchanged and shift the deciding attempt by their number |
| `Service.PollIgnoresLaterReplies` | packages/hardhat-blockscout/src/blockscout/BlockscoutService.ts:116-129 | once a reply decides, replies after it are never consumed |
| `Service.PollObservationErrors` | packages/hardhat-blockscout/src/blockscout/BlockscoutService.ts:86-106 | a fetch rejection or a non-2xx reply while polling is thrown as an observation failure with URL, request and cause, and returns nothing |
| `Service.PollClassificationOrder` | packages/hardhat-blockscout/src/blockscout/BlockscoutService.ts:110-129 | pending is tested before ok, so a pending reply with status 0 polls again; a verification failure is returned; other not-ok replies throw with their message; any other ok reply is returned |
| `Service.SubmissionAccepted` | packages/hardhat-blockscout/src/blockscout/BlockscoutService.ts:67-74 | reply `{status "1", result "abc123guid"}` is returned and its message is the GUID of the status request |
| `Service.PendingThenVerified` | packages/hardhat-blockscout/src/blockscout/BlockscoutService.ts:108-129 | a pending reply then a verified one: decided at the second request, returning the verified response |
| `Service.FailureReturnedAtOnce` | packages/hardhat-blockscout/src/blockscout/BlockscoutService.ts:116-118 | a verification failure with status 0 is returned at the first request whatever follows |
| `Service.BytecodeMissingFailsFast` | packages/hardhat-blockscout/src/blockscout/BlockscoutService.ts:55-65 | a submission reply "Unable to locate ContractCode at 0xabc" fails naming URL and address |
| `Prober.ChainId` | packages/hardhat-blockscout/src/network/prober.ts:19-54 | the numeric value of each of the 24 enum members (definition; injectivity in `NetworkOfChainId`) |
| `Prober.NetworkOf` | packages/hardhat-blockscout/src/network/prober.ts:19-54 | the enum's reverse mapping: a number it maps to a member is that member's chain ID |
| `Prober.NetworkOfChainId` | packages/hardhat-blockscout/src/network/prober.ts:19-54 | the enum's reverse mapping undoes its numeric value, so members have distinct chain IDs |
| `Prober.AllNetworksComplete` | packages/hardhat-blockscout/src/network/prober.ts:19-54 | the list of members holds every enum member |
| `Prober.ChainIdsOfAllNetworks` | packages/hardhat-blockscout/src/network/prober.ts:56-153 | the listed keys are, position by position, the chain IDs of the enum members |
| `Prober.TableHas24DistinctKeys` | packages/hardhat-blockscout/src/network/prober.ts:56-153 | the table has exactly 24 keys, all distinct |
| `Prober.Endpoints` | packages/hardhat-blockscout/src/network/prober.ts:56-153 | the 24 table entries, one per enum member (each checked by `LookupByNetworkID`, two by `KnownEndpoints`) |
| `Prober.LookupEndpoints` | packages/hardhat-blockscout/src/network/prober.ts:168 | `networkIDtoEndpoints[chainID]`: the member's entry for a member's value, nothing otherwise (both directions in `LookupByNetworkID` and `LookupOnlyNetworkIDs`) |
| `Prober.LookupByNetworkID` | packages/hardhat-blockscout/src/network/prober.ts:56-153 | looking up a member's chain ID gives that member's entry |
| `Prober.LookupOnlyNetworkIDs` | packages/hardhat-blockscout/src/network/prober.ts:168 | a number has an entry exactly when it is one of the 24 keys |
| `Prober.GetEtherscanEndpoints` | packages/hardhat-blockscout/src/network/prober.ts:155-182 | the hardhat network fails without any provider request; otherwise only `eth_chainId` is sent, and a result is the table entry for the reply |
| `Prober.HardhatNetworkRefused` | packages/hardhat-blockscout/src/network/prober.ts:159-166 | the hardhat network fails whatever the chain ID, before the chain ID is asked |
| `Prober.ResolvesByNetworkID` | packages/hardhat-blockscout/src/network/prober.ts:168-181 | a member's chain ID resolves to exactly its entry; any other number fails naming the chain ID and network |
| `Prober.KnownEndpoints` | packages/hardhat-blockscout/src/network/prober.ts:56-60 | chain 1 and chain 100 resolve to their listed URLs; chain 2 fails |
| `Prober.StripHexPrefix` | packages/hardhat-blockscout/src/network/prober.ts:193-195 | a string with a leading `0x` is `0x` followed by the result; any other string is returned unchanged |
| `Prober.StripHexPrefixOnce` | packages/hardhat-blockscout/src/network/prober.ts:193-195 | exactly one leading `0x` is removed, so `0x0x…` keeps its second `0x` |
| `Prober.RetrieveContractBytecode` | packages/hardhat-blockscout/src/network/prober.ts:184-204 | sends only `eth_getCode` for the address at "latest"; fails naming address and network exactly for "" and "0x"; otherwise returns the reply with one leading `0x` stripped, which is non-empty |

## Left out

- HTTP transport: `node-fetch`, `URLSearchParams`/`URL` encoding and the text or JSON decoding of bodies are left out. Each exchange is an input `FetchResult`. A body that does not decode as `{status, result}` gives `BodyNotJson`, because the source lets that rejection propagate unwrapped.
- A reply whose `result` is missing or not a string is treated as undecodable (`BodyNotJson`). In the source, such a reply fails later with a type error at submission, and during polling it can be returned with an undefined message.
- The reply's `status` is taken as a string. A numeric JSON status is turned into its string by `parseInt` first, so integers behave the same.
- JsParseInt.ParseInt: only ASCII white space is skipped. Floating-point precision loss above 2^53 and the sign of `-0` are not modelled.
- The provider (`eth_chainId`, `eth_getCode`) is not called. Its replies are parameters. The chain ID is a natural number, so the hexadecimal `parseInt(…, 16)` of the reply, and its `NaN` case, are left out.
- `HARDHAT_NETWORK_NAME` is defined in hardhat's plugin package, which is not part of this model. Its value "hardhat" is used.
- `delay` and async scheduling are left out. The 3000 ms pause appears only as the waiting time `GetVerificationStatus` adds up.
- The poll loop has no cap in the source. The model reads a finite stream of replies and reports `StillPending` when the stream runs out while every reply was pending.
- The caller that builds the status request from the submission's message (the GUID) is not part of this model. `SubmissionAccepted` shows only that the message comes back verbatim.
- Error messages are modelled by the values they name (URL, status code, body text, address, chain ID, network), not by their wording. `NomicLabsHardhatPluginError` and its wrapped cause are left out.
- packages/hardhat-blockscout/test/integration/HardhatRuntimeEnvironmentExtensionTests.ts checks only how hardhat's configuration loader fills `config.etherscan`. That is configuration plumbing, not plugin logic.
