/** Endpoint resolution and the deployed-bytecode check
    (packages/hardhat-blockscout/src/network/prober.ts).
    The provider's replies (the chain ID and the code at an address) are
    parameters; what the model records about the provider is which requests
    were sent to it. */
module Prober {
  import opened Wrappers

  /** Name of the built-in in-process network, which cannot be verified against. */
  const HardhatNetworkName := "hardhat"

  /** The chains with a known explorer, by their EIP-155 chain ID. */
  datatype NetworkID =
    | Mainnet | Ropsten | Rinkeby | Goerli | Kovan
    | Callisto | CallistoTestnet
    | Bsc | BscTestnet
    | Heco | HecoTestnet
    | Opera
    | OptimisticEthereum | OptimisticKovan
    | Polygon | PolygonMumbai
    | ArbitrumOne | ArbitrumXdai
    | Fuse
    | Xdai
    | RskMainnet | RskTestnet
    | Sokol | Poa

  /** The numeric value of each enum member. */
  function ChainId(id: NetworkID): nat
  {
    match id
    case Mainnet => 1
    case Ropsten => 3
    case Rinkeby => 4
    case Goerli => 5
    case Kovan => 42
    case Callisto => 820
    case CallistoTestnet => 821
    case Bsc => 56
    case BscTestnet => 97
    case Heco => 128
    case HecoTestnet => 256
    case Opera => 250
    case OptimisticEthereum => 10
    case OptimisticKovan => 69
    case Polygon => 137
    case PolygonMumbai => 80001
    case ArbitrumOne => 42161
    case ArbitrumXdai => 200
    case Fuse => 122
    case Xdai => 100
    case RskMainnet => 30
    case RskTestnet => 31
    case Sokol => 77
    case Poa => 99
  }

  /** The enum's reverse mapping, from a number back to its member: a number
      it maps to a member is that member's value. */
  function NetworkOf(chainId: nat): (id: Option<NetworkID>)
    ensures id.Some? ==> ChainId(id.value) == chainId
  {
    match chainId
    case 1 => Some(Mainnet)
    case 3 => Some(Ropsten)
    case 4 => Some(Rinkeby)
    case 5 => Some(Goerli)
    case 42 => Some(Kovan)
    case 820 => Some(Callisto)
    case 821 => Some(CallistoTestnet)
    case 56 => Some(Bsc)
    case 97 => Some(BscTestnet)
    case 128 => Some(Heco)
    case 256 => Some(HecoTestnet)
    case 250 => Some(Opera)
    case 10 => Some(OptimisticEthereum)
    case 69 => Some(OptimisticKovan)
    case 137 => Some(Polygon)
    case 80001 => Some(PolygonMumbai)
    case 42161 => Some(ArbitrumOne)
    case 200 => Some(ArbitrumXdai)
    case 122 => Some(Fuse)
    case 100 => Some(Xdai)
    case 30 => Some(RskMainnet)
    case 31 => Some(RskTestnet)
    case 77 => Some(Sokol)
    case 99 => Some(Poa)
    case _ => None
  }

  /** Every enum member, by increasing chain ID. */
  const AllNetworks: seq<NetworkID> := [
    Mainnet, Ropsten, Rinkeby, Goerli, OptimisticEthereum, RskMainnet, RskTestnet, Kovan,
    Bsc, OptimisticKovan, Sokol, BscTestnet, Poa, Xdai, Fuse, Heco,
    Polygon, ArbitrumXdai, Opera, HecoTestnet, Callisto, CallistoTestnet, ArbitrumOne, PolygonMumbai]

  /** The table's keys: the chain IDs of `AllNetworks`, in the same order. */
  const ChainIds: seq<nat> := [1, 3, 4, 5, 10, 30, 31, 42, 56, 69, 77, 97, 99, 100, 122, 128, 137, 200, 250, 256, 820, 821, 42161, 80001]

  datatype BlockscoutURLs = BlockscoutURLs(apiURL: string, browserURL: string)

  /** `networkIDtoEndpoints`: one entry for every enum member. */
  function Endpoints(id: NetworkID): BlockscoutURLs
  {
    match id
    case Mainnet => BlockscoutURLs("https://blockscout.com/eth/mainnet/api", "https://blockscout.com/eth/mainnet")
    case Ropsten => BlockscoutURLs("https://blockscout.com/eth/ropsten/api", "https://blockscout.com/eth/ropsten")
    case Rinkeby => BlockscoutURLs("https://blockscout.com/eth/rinkeby/api", "https://blockscout.com/eth/rinkeby")
    case Goerli => BlockscoutURLs("https://blockscout.com/eth/goerli/api", "https://blockscout.com/eth/goerli")
    case Kovan => BlockscoutURLs("https://blockscout.com/eth/kovan/api", "https://blockscout.com/eth/kovan")
    case Callisto => BlockscoutURLs("https://blockscout.com/callisto/mainnet/api", "https://blockscout.com/callisto/mainnet")
    case CallistoTestnet => BlockscoutURLs("https://blockscout.com/callisto/testnet/api", "https://blockscout.com/callisto/testnet")
    case Bsc => BlockscoutURLs("https://api.bscscan.com/api", "https://bscscan.com")
    case BscTestnet => BlockscoutURLs("https://api-testnet.bscscan.com/api", "https://testnet.bscscan.com")
    case Heco => BlockscoutURLs("https://api.hecoinfo.com/api", "https://hecoinfo.com")
    case HecoTestnet => BlockscoutURLs("https://api-testnet.hecoinfo.com/api", "https://testnet.hecoinfo.com")
    case Opera => BlockscoutURLs("https://api.ftmscan.com/api", "https://ftmscan.com")
    case OptimisticEthereum => BlockscoutURLs("https://api-optimistic.etherscan.io/api", "https://optimistic.etherscan.io/")
    case OptimisticKovan => BlockscoutURLs("https://api-kovan-optimistic.etherscan.io/api", "https://kovan-optimistic.etherscan.io/")
    case Polygon => BlockscoutURLs("https://api.polygonscan.com/api", "https://polygonscan.com")
    case PolygonMumbai => BlockscoutURLs("https://api-testnet.polygonscan.com/api", "https://mumbai.polygonscan.com/")
    case ArbitrumOne => BlockscoutURLs("https://api.arbiscan.io/api", "https://arbiscan.io/")
    case ArbitrumXdai => BlockscoutURLs("https://blockscout.com/xdai/aox/api", "https://blockscout.com/xdai/aox")
    case Fuse => BlockscoutURLs("https://explorer.fuse.io/api", "https://explorer.fuse.io/")
    case Xdai => BlockscoutURLs("https://blockscout.com/xdai/mainnet/api", "https://blockscout.com/xdai/mainnet")
    case RskMainnet => BlockscoutURLs("https://blockscout.com/rsk/mainnet/api", "https://blockscout.com/rsk/mainnet")
    case RskTestnet => BlockscoutURLs("https://blockscout.com/rsk/testnet/api", "https://blockscout.com/rsk/testnet")
    case Sokol => BlockscoutURLs("https://blockscout.com/poa/sokol/api", "https://blockscout.com/poa/sokol")
    case Poa => BlockscoutURLs("https://blockscout.com/poa/core/api", "https://blockscout.com/poa/core")
  }

  /** `networkIDtoEndpoints[chainID]`: the entry whose key is the number, if any. */
  function LookupEndpoints(chainId: nat): (r: Option<BlockscoutURLs>)
  {
    match NetworkOf(chainId)
    case None => None
    case Some(id) => Some(Endpoints(id))
  }

  /** The enum's reverse mapping undoes the numeric value, so no two members
      share a chain ID. */
  lemma NetworkOfChainId(id: NetworkID)
    ensures NetworkOf(ChainId(id)) == Some(id)
  {
    match id
    case _ =>
  }

  /** Every member's chain ID finds that member's entry. */
  lemma LookupByNetworkID(id: NetworkID)
    ensures LookupEndpoints(ChainId(id)) == Some(Endpoints(id))
  {
    NetworkOfChainId(id);
  }

  /** The keys of the table are the enum's values and nothing else. */
  lemma LookupOnlyNetworkIDs(chainId: nat)
    ensures LookupEndpoints(chainId).Some? <==> chainId in ChainIds
  {
    if NetworkOf(chainId).Some? {
      KnownChainIdListed(chainId, NetworkOf(chainId).value);
    } else if chainId in ChainIds {
      ListedChainIdKnown(chainId);
    }
  }

  lemma KnownChainIdListed(chainId: nat, id: NetworkID)
    requires NetworkOf(chainId) == Some(id)
    ensures chainId in ChainIds
  {
    AllNetworksComplete(id);
    var i :| 0 <= i < |AllNetworks| && AllNetworks[i] == id;
    ChainIdsOfAllNetworks(i);
  }

  lemma ListedChainIdKnown(chainId: nat)
    requires chainId in ChainIds
    ensures NetworkOf(chainId).Some?
  {
    var i :| 0 <= i < |ChainIds| && ChainIds[i] == chainId;
    ChainIdsOfAllNetworks(i);
    NetworkOfChainId(AllNetworks[i]);
  }

  lemma ChainIdsOfAllNetworks(i: nat)
    requires i < |AllNetworks|
    ensures |ChainIds| == |AllNetworks| && ChainIds[i] == ChainId(AllNetworks[i])
  {
  }

  lemma AllNetworksComplete(id: NetworkID)
    ensures id in AllNetworks
  {
    match id
    case Mainnet =>
    case Ropsten =>
    case Rinkeby =>
    case Goerli =>
    case Kovan =>
    case Callisto =>
    case CallistoTestnet =>
    case Bsc =>
    case BscTestnet =>
    case Heco =>
    case HecoTestnet =>
    case Opera =>
    case OptimisticEthereum =>
    case OptimisticKovan =>
    case Polygon =>
    case PolygonMumbai =>
    case ArbitrumOne =>
    case ArbitrumXdai =>
    case Fuse =>
    case Xdai =>
    case RskMainnet =>
    case RskTestnet =>
    case Sokol =>
    case Poa =>
  }

  predicate StrictlyIncreasing(s: seq<nat>) { forall i :: 0 <= i < |s| - 1 ==> s[i] < s[i + 1] }

  /** Each key is below the next, so below every later one. */
  lemma {:induction false} IncreasingKeysDistinct(s: seq<nat>, i: nat, j: nat)
    requires StrictlyIncreasing(s)
    requires i < j < |s|
    ensures s[i] < s[j]
    decreases j - i
  {
    if i + 1 < j {
      IncreasingKeysDistinct(s, i + 1, j);
    }
  }

  /** The table has exactly 24 keys, all distinct. */
  lemma TableHas24DistinctKeys()
    ensures |ChainIds| == 24
    ensures forall i, j :: 0 <= i < j < |ChainIds| ==> ChainIds[i] != ChainIds[j]
  {
    assert StrictlyIncreasing(ChainIds);
    forall i, j | 0 <= i < j < |ChainIds| ensures ChainIds[i] != ChainIds[j] {
      IncreasingKeysDistinct(ChainIds, i, j);
    }
  }

  /** A request sent to the node through the provider. */
  datatype RpcRequest = EthChainId | EthGetCode(address: string, blockTag: string)

  datatype ProberError =
    | UnsupportedNetwork(networkName: string)
    | NoEndpoint(chainId: nat, networkName: string)
    | NoBytecode(address: string, networkName: string)

  /** The result of a call that talks to the provider, with the requests it sent. */
  datatype Probe<T> = Probe(sent: seq<RpcRequest>, result: Result<T, ProberError>)

  /** `getEtherscanEndpoints`; `chainIdReply` is the provider's answer to
      `eth_chainId`, used only if that request is sent. */
  function GetEtherscanEndpoints(networkName: string, chainIdReply: nat): (r: Probe<BlockscoutURLs>)
    ensures networkName == HardhatNetworkName ==> r.sent == [] && r.result == Failure(UnsupportedNetwork(networkName))
    ensures networkName != HardhatNetworkName ==> r.sent == [EthChainId]
    ensures r.result.Success? ==> LookupEndpoints(chainIdReply) == Some(r.result.value)
  {
    if networkName == HardhatNetworkName then Probe([], Failure(UnsupportedNetwork(networkName)))
    else match LookupEndpoints(chainIdReply)
      case None => Probe([EthChainId], Failure(NoEndpoint(chainIdReply, networkName)))
      case Some(endpoints) => Probe([EthChainId], Success(endpoints))
  }

  /** Whatever the chain, the in-process network is refused, and without
      asking the provider anything. */
  lemma HardhatNetworkRefused(chainIdReply: nat, otherReply: nat)
    ensures GetEtherscanEndpoints(HardhatNetworkName, chainIdReply) == GetEtherscanEndpoints(HardhatNetworkName, otherReply)
    ensures GetEtherscanEndpoints(HardhatNetworkName, chainIdReply).sent == []
    ensures GetEtherscanEndpoints(HardhatNetworkName, chainIdReply).result.Failure?
  {
  }

  /** On any other network, every member's chain ID resolves to exactly its
      table entry, and a number that is no member's fails naming the chain ID
      and the network, never falling back to a default. */
  lemma ResolvesByNetworkID(networkName: string, id: NetworkID, chainIdReply: nat)
    requires networkName != HardhatNetworkName
    ensures GetEtherscanEndpoints(networkName, ChainId(id)).result == Success(Endpoints(id))
    ensures chainIdReply !in ChainIds ==>
      GetEtherscanEndpoints(networkName, chainIdReply).result == Failure(NoEndpoint(chainIdReply, networkName))
  {
    LookupByNetworkID(id);
    LookupOnlyNetworkIDs(chainIdReply);
  }

  /** A few table rows, looked up by number. */
  lemma KnownEndpoints(networkName: string)
    requires networkName != HardhatNetworkName
    ensures GetEtherscanEndpoints(networkName, 1).result ==
      Success(BlockscoutURLs("https://blockscout.com/eth/mainnet/api", "https://blockscout.com/eth/mainnet"))
    ensures GetEtherscanEndpoints(networkName, 100).result ==
      Success(BlockscoutURLs("https://blockscout.com/xdai/mainnet/api", "https://blockscout.com/xdai/mainnet"))
    ensures GetEtherscanEndpoints(networkName, 2).result == Failure(NoEndpoint(2, networkName))
  {
    LookupByNetworkID(Mainnet);
    LookupByNetworkID(Xdai);
    assert NetworkOf(2) == None;
  }

  predicate HasHexPrefix(s: string) { |s| >= 2 && s[0] == '0' && s[1] == 'x' }

  /** The bytecode without one leading `0x`. */
  function StripHexPrefix(s: string): (t: string)
    ensures HasHexPrefix(s) ==> s == "0x" + t
    ensures !HasHexPrefix(s) ==> t == s
  {
    if HasHexPrefix(s) then s[2..] else s
  }

  /** Exactly one prefix is removed: a doubled prefix keeps its second copy. */
  lemma StripHexPrefixOnce(t: string)
    ensures StripHexPrefix("0x" + t) == t
  {
  }

  /** `retrieveContractBytecode`; `codeReply` is the provider's answer to
      `eth_getCode` for the address at the latest block. */
  function RetrieveContractBytecode(address: string, networkName: string, codeReply: string): (r: Probe<string>)
    ensures r.sent == [EthGetCode(address, "latest")]
    ensures r.result.Success? ==> r.result.value == StripHexPrefix(codeReply) && r.result.value != []
    ensures r.result.Failure? <==> codeReply == "" || codeReply == "0x"
    ensures r.result.Failure? ==> r.result.error == NoBytecode(address, networkName)
  {
    var deployed := StripHexPrefix(codeReply);
    if deployed == [] then Probe([EthGetCode(address, "latest")], Failure(NoBytecode(address, networkName)))
    else Probe([EthGetCode(address, "latest")], Success(deployed))
  }
}
