/**
 * The custody service the token operations talk to, seen from the outside:
 * the records it exchanges, the calls an operation issues to it, and the
 * service itself as a collaborator whose answers are given, call by call.
 */
module Custody {
  import opened Wrappers
  import opened Envelope
  import opened Abi

  /** The vault account and base asset every request is made for (read from the environment). */
  datatype Config = Config(vaultAccountId: string, assetId: string)

  /** A linked token; `contractAddress` is its mint address on the ledger. */
  datatype TokenLink = TokenLink(id: string, status: string, contractAddress: string)

  /** A vault asset; its address may be missing. */
  datatype VaultAsset = VaultAsset(id: string, address: Option<string>)

  /** A vault account; its asset list may be missing. */
  datatype VaultAccount = VaultAccount(assets: Option<seq<VaultAsset>>)

  datatype WriteCallRequest = WriteCallRequest(
    contractAddress: string, baseAssetId: string, vaultAccountId: string, abiFunction: Instruction)

  datatype WriteCallResponse = WriteCallResponse(id: string, status: string)

  datatype CreateParams = CreateParams(name: string, symbol: string, decimals: int)

  datatype CreateTokenRequest = CreateTokenRequest(vaultAccountId: string, createParams: CreateParams, assetId: string)

  /** The requests an operation can issue, in the form it issues them. */
  datatype SdkCall =
    | GetLinkedToken(linkId: string)
    | GetDeployedContractAbi(contractAddress: string, baseAssetId: string)
    | GetVaultAccount(vaultAccountId: string)
    | WriteCallFunction(request: WriteCallRequest)
    | IssueNewToken(createRequest: CreateTokenRequest)

  /** The stages of an operation, one per kind of request. */
  datatype Stage = LinkStage | AbiStage | VaultStage | SubmitStage | IssueStage

  function StageOf(c: SdkCall): Stage
  {
    match c
    case GetLinkedToken(_) => LinkStage
    case GetDeployedContractAbi(_, _) => AbiStage
    case GetVaultAccount(_) => VaultStage
    case WriteCallFunction(_) => SubmitStage
    case IssueNewToken(_) => IssueStage
  }

  function Stages(calls: seq<SdkCall>): (r: seq<Stage>)
    ensures |r| == |calls|
  {
    seq(|calls|, k requires 0 <= k < |calls| => StageOf(calls[k]))
  }

  /**
   * The custody service: for each kind of request, the answer it gives,
   * success or failure (with the cause as text).
   */
  datatype Sdk = Sdk(
    getLinkedToken: string -> Result<TokenLink, string>,
    getDeployedContractAbi: (string, string) -> Result<seq<FunctionDefinition>, string>,
    getVaultAccount: string -> Result<VaultAccount, string>,
    writeCallFunction: WriteCallRequest -> Result<WriteCallResponse, string>,
    issueNewToken: CreateTokenRequest -> Result<TokenLink, string>)

  /** Why an operation stopped: a request that failed, or a function the ABI lacks. */
  datatype OpError = SdkError(stage: Stage, cause: string) | FunctionNotFound(name: string)

  /** A service answer as an operation's outcome: a failure becomes an error at `stage`, with the service's cause. */
  function Answer<T>(r: Result<T, string>, stage: Stage): Result<T, OpError>
  {
    match r
    case Success(v) => Success(v)
    case Failure(e) => Failure(SdkError(stage, e))
  }

  /** The requests an operation issued, in order, and how it ended. */
  datatype Run<T> = Run(calls: seq<SdkCall>, outcome: Result<T, OpError>)

  /** The run issued a write-call. */
  predicate WriteIssued<T>(run: Run<T>)
  {
    exists k :: 0 <= k < |run.calls| && run.calls[k].WriteCallFunction?
  }
}
