/** The two request shapes the explorer's API accepts, and the functions that
    build them from verification parameters
    (packages/hardhat-blockscout/src/blockscout/BlockscoutVerifyContractRequest.ts).
    The TypeScript field `module` is called `apiModule` here, since `module` is
    a Dafny keyword; every other field keeps its wire name, including the
    misspelt `constructorArguements`. */
module Requests {
  import opened Wrappers

  const ContractModule := "contract"
  const VerifySourceCodeAction := "verifysourcecode"
  const CheckVerifyStatusAction := "checkverifystatus"
  const StandardJsonInputFormat := "solidity-standard-json-input"

  /** The fields every request starts with (`BlockscoutRequest`). */
  datatype RequestHeader = RequestHeader(apikey: string, apiModule: string, action: string)

  datatype BlockscoutVerifyRequest = BlockscoutVerifyRequest(
    apikey: string,
    apiModule: string,
    action: string,
    contractaddress: string,
    sourceCode: string,
    codeformat: string,
    contractname: string,
    compilerversion: string,
    constructorArguements: string)
  {
    function Header(): RequestHeader { RequestHeader(apikey, apiModule, action) }

    /** The literal types the interface gives `module`, `action` and `codeformat`. */
    predicate WellTyped()
    {
      apiModule == ContractModule && action == VerifySourceCodeAction && codeformat == StandardJsonInputFormat
    }
  }

  datatype BlockscoutCheckStatusRequest = BlockscoutCheckStatusRequest(
    apikey: string,
    apiModule: string,
    action: string,
    guid: string)
  {
    function Header(): RequestHeader { RequestHeader(apikey, apiModule, action) }

    predicate WellTyped() { apiModule == ContractModule && action == CheckVerifyStatusAction }
  }

  /** The parameter object `toVerifyRequest` takes. */
  datatype VerifyParams = VerifyParams(
    apiKey: string,
    contractAddress: string,
    sourceCode: string,
    sourceName: string,
    contractName: string,
    compilerVersion: string,
    constructorArguments: string)

  /** The parameter object `toCheckStatusRequest` takes. */
  datatype CheckStatusParams = CheckStatusParams(apiKey: string, guid: string)

  /** The fully qualified contract name `<sourceName>:<contractName>`. */
  function QualifiedName(sourceName: string, contractName: string): string
  {
    sourceName + ":" + contractName
  }

  /** Index of the first `c` in `s`, if there is one. */
  function IndexOf(s: string, c: char): (r: Option<nat>)
    ensures r.None? ==> c !in s
    ensures r.Some? ==> r.value < |s| && s[r.value] == c && c !in s[..r.value]
  {
    if s == [] then None
    else if s[0] == c then Some(0)
    else match IndexOf(s[1..], c)
      case None => None
      case Some(i) =>
        assert s[..i + 1] == [s[0]] + s[1..][..i];
        Some(i + 1)
  }

  /** Splits a qualified name at its first `:`. */
  function SplitQualifiedName(name: string): (r: Option<(string, string)>)
    ensures r.None? <==> ':' !in name
    ensures r.Some? ==> ':' !in r.value.0 && name == QualifiedName(r.value.0, r.value.1)
  {
    match IndexOf(name, ':')
    case None => None
    case Some(i) =>
      assert name == name[..i] + ":" + name[i + 1..];
      Some((name[..i], name[i + 1..]))
  }

  /** Any name with a colon splits at exactly one place: after the first colon. */
  lemma SplitQualifiedNameOf(sourceName: string, contractName: string)
    requires ':' !in sourceName
    ensures SplitQualifiedName(QualifiedName(sourceName, contractName)) == Some((sourceName, contractName))
  {
    var name := QualifiedName(sourceName, contractName);
    assert name[|sourceName|] == ':';
    var (a, b) := SplitQualifiedName(name).value;
    assert name[..|a|] == a && name[|a|] == ':';
    assert |a| == |sourceName|;
    assert a == name[..|a|] == sourceName;
    assert b == name[|a| + 1..] == contractName;
  }

  /** `toVerifyRequest`. */
  function ToVerifyRequest(p: VerifyParams): (r: BlockscoutVerifyRequest)
    ensures r.WellTyped()
  {
    BlockscoutVerifyRequest(
      apikey := p.apiKey,
      apiModule := ContractModule,
      action := VerifySourceCodeAction,
      contractaddress := p.contractAddress,
      sourceCode := p.sourceCode,
      codeformat := StandardJsonInputFormat,
      contractname := QualifiedName(p.sourceName, p.contractName),
      compilerversion := p.compilerVersion,
      constructorArguements := p.constructorArguments)
  }

  /** `toCheckStatusRequest`. */
  function ToCheckStatusRequest(p: CheckStatusParams): (r: BlockscoutCheckStatusRequest)
    ensures r.WellTyped()
  {
    BlockscoutCheckStatusRequest(
      apikey := p.apiKey,
      apiModule := ContractModule,
      action := CheckVerifyStatusAction,
      guid := p.guid)
  }

  /** Reads the parameters back from a verify request: the reference against
      which `ToVerifyRequest` is shown to lose nothing. A request whose literal
      fields are wrong, or whose contract name has no `:`, has no parameters. */
  function FromVerifyRequest(r: BlockscoutVerifyRequest): (p: Option<VerifyParams>)
    ensures p.Some? ==> r.WellTyped()
  {
    if !r.WellTyped() then None
    else match SplitQualifiedName(r.contractname)
      case None => None
      case Some((sourceName, contractName)) =>
        Some(VerifyParams(r.apikey, r.contractaddress, r.sourceCode, sourceName, contractName,
                          r.compilerversion, r.constructorArguements))
  }

  function FromCheckStatusRequest(r: BlockscoutCheckStatusRequest): (p: Option<CheckStatusParams>)
  {
    if r.WellTyped() then Some(CheckStatusParams(r.apikey, r.guid)) else None
  }

  /** Building a verify request loses nothing when the source name has no
      colon: every parameter can be read back from the request. */
  lemma VerifyRequestRoundTrip(p: VerifyParams)
    requires ':' !in p.sourceName
    ensures FromVerifyRequest(ToVerifyRequest(p)) == Some(p)
  {
    SplitQualifiedNameOf(p.sourceName, p.contractName);
  }

  /** The condition above is needed: the qualified name cannot tell where a
      colon in the source name ends, so two parameter sets that differ only in
      where the colon falls build the same request. */
  lemma ColonInSourceNameIsLost()
    ensures var p1 := VerifyParams("k", "0x1", "{}", "a:b", "c", "v", "");
            var p2 := VerifyParams("k", "0x1", "{}", "a", "b:c", "v", "");
            p1 != p2 && ToVerifyRequest(p1) == ToVerifyRequest(p2)
  {
  }

  /** Every request that can be read back is the one built from what was read. */
  lemma VerifyRequestFromThenTo(r: BlockscoutVerifyRequest)
    requires FromVerifyRequest(r).Some?
    ensures ToVerifyRequest(FromVerifyRequest(r).value) == r
  {
  }

  lemma CheckStatusRequestRoundTrip(p: CheckStatusParams)
    ensures FromCheckStatusRequest(ToCheckStatusRequest(p)) == Some(p)
  {
  }

  lemma CheckStatusRequestFromThenTo(r: BlockscoutCheckStatusRequest)
    requires FromCheckStatusRequest(r).Some?
    ensures ToCheckStatusRequest(FromCheckStatusRequest(r).value) == r
  {
  }

  /** Both request kinds share the header: the same API key and module, and
      they are told apart by the action alone. */
  lemma SharedHeader(p: VerifyParams, q: CheckStatusParams)
    requires p.apiKey == q.apiKey
    ensures ToVerifyRequest(p).Header().apikey == ToCheckStatusRequest(q).Header().apikey
    ensures ToVerifyRequest(p).Header().apiModule == ToCheckStatusRequest(q).Header().apiModule == "contract"
    ensures ToVerifyRequest(p).Header().action != ToCheckStatusRequest(q).Header().action
  {
  }

  /** The names of the verify request's body fields, in the object literal's order. */
  const VerifyFieldNames: seq<string> := ["apikey", "module", "action", "contractaddress", "sourceCode",
    "codeformat", "contractname", "compilerversion", "constructorArguements"]

  /** The names of the status request's body fields, in the object literal's order. */
  const CheckStatusFieldNames: seq<string> := ["apikey", "module", "action", "guid"]

  /** The request body as the ordered list of (name, value) pairs the object
      literal produces; this is what is form-encoded on the wire. No name
      occurs twice, so each parameter is sent once; which value travels under
      which name is `VerifyFieldsRoundTrip`. */
  function VerifyFields(r: BlockscoutVerifyRequest): (fields: seq<(string, string)>)
    ensures |fields| == |VerifyFieldNames| == 9
    ensures forall i :: 0 <= i < |fields| ==> fields[i].0 == VerifyFieldNames[i]
    ensures forall i, j :: 0 <= i < j < |fields| ==> fields[i].0 != fields[j].0
  {
    [("apikey", r.apikey), ("module", r.apiModule), ("action", r.action),
     ("contractaddress", r.contractaddress), ("sourceCode", r.sourceCode),
     ("codeformat", r.codeformat), ("contractname", r.contractname),
     ("compilerversion", r.compilerversion), ("constructorArguements", r.constructorArguements)]
  }

  function CheckStatusFields(r: BlockscoutCheckStatusRequest): (fields: seq<(string, string)>)
    ensures |fields| == |CheckStatusFieldNames| == 4
    ensures forall i :: 0 <= i < |fields| ==> fields[i].0 == CheckStatusFieldNames[i]
    ensures forall i, j :: 0 <= i < j < |fields| ==> fields[i].0 != fields[j].0
  {
    [("apikey", r.apikey), ("module", r.apiModule), ("action", r.action), ("guid", r.guid)]
  }

  /** The value of the first field with the given name. */
  function FieldValue(fields: seq<(string, string)>, name: string): (v: Option<string>)
    ensures v.Some? <==> exists i :: 0 <= i < |fields| && fields[i].0 == name
    ensures v.Some? ==> (name, v.value) in fields
  {
    if fields == [] then None
    else if fields[0].0 == name then Some(fields[0].1)
    else
      var v := FieldValue(fields[1..], name);
      assert forall i :: 1 <= i < |fields| ==> fields[i] == fields[1..][i - 1];
      v
  }

  /** The field found is the first one with the name. */
  lemma {:induction false} FieldValueAt(fields: seq<(string, string)>, name: string, i: nat)
    requires i < |fields| && fields[i].0 == name
    requires forall j :: 0 <= j < i ==> fields[j].0 != name
    ensures FieldValue(fields, name) == Some(fields[i].1)
  {
    if i > 0 {
      FieldValueAt(fields[1..], name, i - 1);
    }
  }

  /** On the wire, the constructor arguments travel under the misspelt name
      `constructorArguements`, and no field has the correct spelling. */
  lemma MisspeltArgumentsField(p: VerifyParams)
    ensures FieldValue(VerifyFields(ToVerifyRequest(p)), "constructorArguements") == Some(p.constructorArguments)
    ensures FieldValue(VerifyFields(ToVerifyRequest(p)), "constructorArguments") == None
  {
    var fields := VerifyFields(ToVerifyRequest(p));
    assert fields[8] == ("constructorArguements", p.constructorArguments);
    assert forall i :: 0 <= i < 8 ==> |fields[i].0| != |"constructorArguements"|;
    FieldValueAt(fields, "constructorArguements", 8);
    assert forall i :: 0 <= i < |fields| ==> |fields[i].0| != |"constructorArguments"|;
  }

  /** The qualified contract name travels as `contractname`. */
  lemma QualifiedNameField(p: VerifyParams)
    ensures FieldValue(VerifyFields(ToVerifyRequest(p)), "contractname") == Some(p.sourceName + ":" + p.contractName)
  {
    var fields := VerifyFields(ToVerifyRequest(p));
    assert fields[6] == ("contractname", QualifiedName(p.sourceName, p.contractName));
    assert forall i :: 0 <= i < 6 ==> fields[i].0 != "contractname";
    FieldValueAt(fields, "contractname", 6);
  }

  /** Reads a verify request back from a body by field name, as the server
      does; a body that lacks one of the nine names has no request. The names
      are those of `VerifyFieldNames`, in order. */
  function FromVerifyFields(fields: seq<(string, string)>): (r: Option<BlockscoutVerifyRequest>)
    ensures r.Some? ==> forall k :: 0 <= k < |VerifyFieldNames| ==> FieldValue(fields, VerifyFieldNames[k]).Some?
  {
    var apikey := FieldValue(fields, VerifyFieldNames[0]);
    var apiModule := FieldValue(fields, VerifyFieldNames[1]);
    var action := FieldValue(fields, VerifyFieldNames[2]);
    var contractaddress := FieldValue(fields, VerifyFieldNames[3]);
    var sourceCode := FieldValue(fields, VerifyFieldNames[4]);
    var codeformat := FieldValue(fields, VerifyFieldNames[5]);
    var contractname := FieldValue(fields, VerifyFieldNames[6]);
    var compilerversion := FieldValue(fields, VerifyFieldNames[7]);
    var constructorArguements := FieldValue(fields, VerifyFieldNames[8]);
    if apikey.Some? && apiModule.Some? && action.Some? && contractaddress.Some? && sourceCode.Some? &&
       codeformat.Some? && contractname.Some? && compilerversion.Some? && constructorArguements.Some?
    then
      Some(BlockscoutVerifyRequest(apikey.value, apiModule.value, action.value, contractaddress.value,
        sourceCode.value, codeformat.value, contractname.value, compilerversion.value,
        constructorArguements.value))
    else None
  }

  /** Reads a status request back from a body by field name. */
  function FromCheckStatusFields(fields: seq<(string, string)>): (r: Option<BlockscoutCheckStatusRequest>)
    ensures r.Some? ==> forall k :: 0 <= k < |CheckStatusFieldNames| ==> FieldValue(fields, CheckStatusFieldNames[k]).Some?
  {
    var apikey := FieldValue(fields, CheckStatusFieldNames[0]);
    var apiModule := FieldValue(fields, CheckStatusFieldNames[1]);
    var action := FieldValue(fields, CheckStatusFieldNames[2]);
    var guid := FieldValue(fields, CheckStatusFieldNames[3]);
    if apikey.Some? && apiModule.Some? && action.Some? && guid.Some?
    then Some(BlockscoutCheckStatusRequest(apikey.value, apiModule.value, action.value, guid.value))
    else None
  }

  /** The field at position i of a body whose names are distinct is the one
      found under its name. */
  lemma FieldValueOfDistinct(fields: seq<(string, string)>, i: nat)
    requires i < |fields|
    requires forall j, k :: 0 <= j < k < |fields| ==> fields[j].0 != fields[k].0
    ensures FieldValue(fields, fields[i].0) == Some(fields[i].1)
  {
    FieldValueAt(fields, fields[i].0, i);
  }

  /** Any body carrying the nine names in order, each once, reads back as
      the request holding its values in that order. */
  lemma FromVerifyFieldsInOrder(fields: seq<(string, string)>)
    requires |fields| == |VerifyFieldNames|
    requires forall i :: 0 <= i < |fields| ==> fields[i].0 == VerifyFieldNames[i]
    requires forall i, j :: 0 <= i < j < |fields| ==> fields[i].0 != fields[j].0
    ensures FromVerifyFields(fields) == Some(BlockscoutVerifyRequest(fields[0].1, fields[1].1, fields[2].1,
      fields[3].1, fields[4].1, fields[5].1, fields[6].1, fields[7].1, fields[8].1))
  {
    forall k | 0 <= k < |fields|
      ensures FieldValue(fields, VerifyFieldNames[k]) == Some(fields[k].1)
    {
      FieldValueOfDistinct(fields, k);
    }
  }

  /** Any body carrying the four status names in order, each once, reads back
      as the request holding its values in that order. */
  lemma FromCheckStatusFieldsInOrder(fields: seq<(string, string)>)
    requires |fields| == |CheckStatusFieldNames|
    requires forall i :: 0 <= i < |fields| ==> fields[i].0 == CheckStatusFieldNames[i]
    requires forall i, j :: 0 <= i < j < |fields| ==> fields[i].0 != fields[j].0
    ensures FromCheckStatusFields(fields) == Some(BlockscoutCheckStatusRequest(fields[0].1, fields[1].1, fields[2].1, fields[3].1))
  {
    forall k | 0 <= k < |fields|
      ensures FieldValue(fields, CheckStatusFieldNames[k]) == Some(fields[k].1)
    {
      FieldValueOfDistinct(fields, k);
    }
  }

  /** Every field of a verify request travels under its own name: reading the
      body back by name gives the request. */
  lemma VerifyFieldsRoundTrip(r: BlockscoutVerifyRequest)
    ensures FromVerifyFields(VerifyFields(r)) == Some(r)
  {
    FromVerifyFieldsInOrder(VerifyFields(r));
  }

  /** Every field of a status request travels under its own name. */
  lemma CheckStatusFieldsRoundTrip(r: BlockscoutCheckStatusRequest)
    ensures FromCheckStatusFields(CheckStatusFields(r)) == Some(r)
  {
    FromCheckStatusFieldsInOrder(CheckStatusFields(r));
  }

  /** What `toVerifyRequest` puts on the wire, for every parameter set: each
      parameter verbatim under its field name, the qualified name under
      `contractname` and the three constants. */
  lemma VerifyBodyCarriesParams(p: VerifyParams)
    ensures var fields := VerifyFields(ToVerifyRequest(p));
      FieldValue(fields, "apikey") == Some(p.apiKey) &&
      FieldValue(fields, "module") == Some(ContractModule) &&
      FieldValue(fields, "action") == Some(VerifySourceCodeAction) &&
      FieldValue(fields, "contractaddress") == Some(p.contractAddress) &&
      FieldValue(fields, "sourceCode") == Some(p.sourceCode) &&
      FieldValue(fields, "codeformat") == Some(StandardJsonInputFormat) &&
      FieldValue(fields, "contractname") == Some(QualifiedName(p.sourceName, p.contractName)) &&
      FieldValue(fields, "compilerversion") == Some(p.compilerVersion) &&
      FieldValue(fields, "constructorArguements") == Some(p.constructorArguments)
  {
    VerifyFieldsRoundTrip(ToVerifyRequest(p));
  }

  /** What `toCheckStatusRequest` puts on the wire, for every parameter set. */
  lemma CheckStatusBodyCarriesParams(p: CheckStatusParams)
    ensures var fields := CheckStatusFields(ToCheckStatusRequest(p));
      FieldValue(fields, "apikey") == Some(p.apiKey) &&
      FieldValue(fields, "module") == Some(ContractModule) &&
      FieldValue(fields, "action") == Some(CheckVerifyStatusAction) &&
      FieldValue(fields, "guid") == Some(p.guid)
  {
    CheckStatusFieldsRoundTrip(ToCheckStatusRequest(p));
  }

  /** With one API key, the two bodies begin with the same two fields, and
      their third field, `action`, tells them apart. */
  lemma WireHeadersAgree(p: VerifyParams, q: CheckStatusParams)
    requires p.apiKey == q.apiKey
    ensures VerifyFields(ToVerifyRequest(p))[..2] == CheckStatusFields(ToCheckStatusRequest(q))[..2]
    ensures VerifyFields(ToVerifyRequest(p))[2].0 == CheckStatusFields(ToCheckStatusRequest(q))[2].0 == "action"
    ensures VerifyFields(ToVerifyRequest(p))[2].1 != CheckStatusFields(ToCheckStatusRequest(q))[2].1
  {
  }
}
