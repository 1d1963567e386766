/**
 * Reflective tokens: the issue request of `deployReflectiveToken`, and the
 * envelopes of `setTransferFeeConfig` and `setTransferHook` with their decoders.
 */
module ReflectiveToken {
  import opened Wrappers
  import opened Envelope
  import opened Custody

  /** The settings a reflective token is deployed with. */
  datatype ReflectiveTokenConfig = ReflectiveTokenConfig(
    name: string, symbol: string, decimals: int, transferFeeBasisPoints: int, maxFee: string)

  /** The issue request: the configured vault and asset, and the token's name, symbol and decimals. */
  function DeployRequest(cfg: Config, token: ReflectiveTokenConfig): (r: CreateTokenRequest)
    ensures r.vaultAccountId == cfg.vaultAccountId && r.assetId == cfg.assetId
    ensures r.createParams.name == token.name && r.createParams.symbol == token.symbol
    ensures r.createParams.decimals == token.decimals
  {
    CreateTokenRequest(cfg.vaultAccountId, CreateParams(token.name, token.symbol, token.decimals), cfg.assetId)
  }

  /** The fee settings are not sent: changing them leaves the issue request as it was. */
  lemma DeployIgnoresFeeSettings(cfg: Config, token: ReflectiveTokenConfig, basisPoints: int, maxFee: string)
    ensures DeployRequest(cfg, token) == DeployRequest(cfg, token.(transferFeeBasisPoints := basisPoints, maxFee := maxFee))
  {
  }

  /** Deploying issues one request and returns the service's answer, the new token link. */
  function DeployReflectiveToken(sdk: Sdk, cfg: Config, token: ReflectiveTokenConfig): (run: Run<TokenLink>)
    ensures run.calls == [IssueNewToken(DeployRequest(cfg, token))]
    ensures run.outcome.Success? <==> sdk.issueNewToken(DeployRequest(cfg, token)).Success?
    ensures run.outcome.Success? ==> run.outcome.value == sdk.issueNewToken(DeployRequest(cfg, token)).value
    ensures run.outcome.Failure? ==> run.outcome.error == SdkError(IssueStage, sdk.issueNewToken(DeployRequest(cfg, token)).error)
  {
    var request := DeployRequest(cfg, token);
    Run([IssueNewToken(request)],
      match sdk.issueNewToken(request)
      case Success(link) => Success(link)
      case Failure(e) => Failure(SdkError(IssueStage, e)))
  }

  const SetTransferFeeConfigName: string := "setTransferFeeConfig"
  const SetTransferHookName: string := "setTransferHook"

  /** Accounts mint (writable), configAuthority (signer), feeConfigAuthority (read-only); one struct argument. */
  const FeeConfigShape: Shape := Shape(SetTransferFeeConfigName,
    [AccountSlot("mint", Some(true), None),
     AccountSlot("configAuthority", None, Some(true)),
     AccountSlot("feeConfigAuthority", Some(false), None)],
    [ArgSlot("transferFeeConfig", Struct)])

  /** Accounts mint (writable), authority (signer), transferHookProgramId (read-only); no arguments. */
  const HookShape: Shape := Shape(SetTransferHookName,
    [AccountSlot("mint", Some(true), None),
     AccountSlot("authority", None, Some(true)),
     AccountSlot("transferHookProgramId", Some(false), None)],
    [])

  /**
   * The fee-config record: both authorities null, nothing withheld, and the
   * older and newer tiers the same. The basis points are not bounded.
   */
  function FeeConfigRecord(transferFeeBasisPoints: int, maxFee: string): (c: TransferFeeConfig)
    ensures c.olderTransferFee == c.newerTransferFee
    ensures c.newerTransferFee == TransferFee(0, maxFee, transferFeeBasisPoints)
    ensures c.transferFeeConfigAuthority.None? && c.withdrawWithheldAuthority.None?
    ensures c.withheldAmount == "0"
  {
    TransferFeeConfig(None, None, "0",
      TransferFee(0, maxFee, transferFeeBasisPoints),
      TransferFee(0, maxFee, transferFeeBasisPoints))
  }

  /** The `setTransferFeeConfig` envelope; every account is the token's own address. */
  function BuildFeeConfigInstruction(contractAddress: string, transferFeeBasisPoints: int, maxFee: string): (r: Instruction)
    ensures ShapeOf(r) == FeeConfigShape
    ensures Addresses(r) == [contractAddress, contractAddress, contractAddress]
    ensures Values(r) == [FeeConfig(FeeConfigRecord(transferFeeBasisPoints, maxFee))]
    ensures IsWritable(r.accounts[0]) && IsSigner(r.accounts[1]) && !IsWritable(r.accounts[2])
  {
    var r := Instruction(SetTransferFeeConfigName,
      [AccountMeta("mint", Some(true), None, contractAddress),
       AccountMeta("configAuthority", None, Some(true), contractAddress),
       AccountMeta("feeConfigAuthority", Some(false), None, contractAddress)],
      [Arg("transferFeeConfig", Struct, FeeConfig(FeeConfigRecord(transferFeeBasisPoints, maxFee)))]);
    assert ShapeOf(r).accounts == FeeConfigShape.accounts;
    assert ShapeOf(r).args == FeeConfigShape.args;
    r
  }

  /** What a fee-config envelope says. */
  datatype FeeConfigRequest = FeeConfigRequest(mint: string, transferFeeBasisPoints: int, maxFee: string)

  /**
   * Reads a fee-config envelope back; `None` unless it has the fee-config
   * shape, one address throughout, and a record of the form the builder writes.
   */
  function DecodeFeeConfig(i: Instruction): Option<FeeConfigRequest>
  {
    if ShapeOf(i) == FeeConfigShape
       && Addresses(i)[1] == Addresses(i)[0] && Addresses(i)[2] == Addresses(i)[0]
       && Values(i)[0].FeeConfig?
    then
      var c := Values(i)[0].config;
      var tier := c.newerTransferFee;
      if c == FeeConfigRecord(tier.transferFeeBasisPoints, tier.maximumFee) then
        Some(FeeConfigRequest(Addresses(i)[0], tier.transferFeeBasisPoints, tier.maximumFee))
      else None
    else None
  }

  /** Decoding accepts exactly the envelopes the builder produces, and recovers the basis points and maximum fee unchanged. */
  lemma DecodeFeeConfigExact(i: Instruction, f: FeeConfigRequest)
    ensures DecodeFeeConfig(i) == Some(f) <==> i == BuildFeeConfigInstruction(f.mint, f.transferFeeBasisPoints, f.maxFee)
  {
    var b := BuildFeeConfigInstruction(f.mint, f.transferFeeBasisPoints, f.maxFee);
    if DecodeFeeConfig(i) == Some(f) {
      assert Addresses(i) == Addresses(b);
      assert Values(i) == Values(b);
      SameParts(i, b);
    }
  }

  /** The `setTransferHook` envelope: the token signs for itself, the hook program is read-only. */
  function BuildHookInstruction(contractAddress: string, hookProgramId: string): (r: Instruction)
    ensures ShapeOf(r) == HookShape
    ensures Addresses(r) == [contractAddress, contractAddress, hookProgramId]
    ensures Values(r) == []
    ensures IsWritable(r.accounts[0]) && IsSigner(r.accounts[1]) && !IsWritable(r.accounts[2])
  {
    var r := Instruction(SetTransferHookName,
      [AccountMeta("mint", Some(true), None, contractAddress),
       AccountMeta("authority", None, Some(true), contractAddress),
       AccountMeta("transferHookProgramId", Some(false), None, hookProgramId)],
      []);
    assert ShapeOf(r).accounts == HookShape.accounts;
    r
  }

  /** What a hook envelope says. */
  datatype HookRequest = HookRequest(mint: string, hookProgramId: string)

  /** Reads a hook envelope back; `None` unless it has the hook shape and the mint signs for itself. */
  function DecodeHook(i: Instruction): Option<HookRequest>
  {
    if ShapeOf(i) == HookShape && Addresses(i)[1] == Addresses(i)[0] then
      Some(HookRequest(Addresses(i)[0], Addresses(i)[2]))
    else None
  }

  /** Decoding accepts exactly the envelopes the builder produces, and recovers their inputs. */
  lemma DecodeHookExact(i: Instruction, h: HookRequest)
    ensures DecodeHook(i) == Some(h) <==> i == BuildHookInstruction(h.mint, h.hookProgramId)
  {
    var b := BuildHookInstruction(h.mint, h.hookProgramId);
    if DecodeHook(i) == Some(h) {
      assert Addresses(i) == Addresses(b);
      assert Values(i) == Values(b);
      SameParts(i, b);
    }
  }
}
