/**
 * The token operations as sequences of requests to the custody service:
 * resolve the token link, fetch the program ABI, look up the operation's
 * function, (for a mint) fetch the vault account, build the envelope and
 * submit it as a write-call. A failed stage ends the operation; when every
 * stage succeeds the write-call is issued.
 */
module Orchestrator {
  import opened Wrappers
  import opened Envelope
  import opened Abi
  import opened Custody
  import opened Mint
  import opened Transfer
  import opened ReflectiveToken

  /** The operations that submit an envelope, with the inputs each takes from its caller. */
  datatype Operation =
    | MintTo(recipientAddress: string, amount: string)
    | TransferTo(sourceAddress: string, destinationAddress: string, amount: string)
    | SetFeeConfig(transferFeeBasisPoints: int, maxFee: string)
    | SetHook(hookProgramId: string)

  /** The ABI function each operation needs. */
  function FunctionName(op: Operation): string
  {
    match op
    case MintTo(_, _) => MintToChecked
    case TransferTo(_, _, _) => TransferChecked
    case SetFeeConfig(_, _) => SetTransferFeeConfigName
    case SetHook(_) => SetTransferHookName
  }

  /** The stages an operation goes through when nothing fails, in order. */
  function Plan(op: Operation): seq<Stage>
  {
    if op.MintTo? then [LinkStage, AbiStage, VaultStage, SubmitStage]
    else [LinkStage, AbiStage, SubmitStage]
  }

  /** The stage of the last request issued before the operation stopped with `e`. */
  function StageReached(e: OpError): Stage
  {
    match e
    case SdkError(stage, _) => stage
    case FunctionNotFound(_) => AbiStage
  }

  /** The linked token's contract address, once the link has resolved. */
  function LinkedContract(sdk: Sdk, tokenLinkId: string): string
    requires sdk.getLinkedToken(tokenLinkId).Success?
  {
    sdk.getLinkedToken(tokenLinkId).value.contractAddress
  }

  /**
   * Every stage before the write-call succeeds: the link resolves, the ABI
   * of the linked contract is fetched and declares the operation's function,
   * and for a mint the vault account is fetched.
   */
  predicate Ready(sdk: Sdk, cfg: Config, tokenLinkId: string, op: Operation)
  {
    && sdk.getLinkedToken(tokenLinkId).Success?
    && sdk.getDeployedContractAbi(LinkedContract(sdk, tokenLinkId), cfg.assetId).Success?
    && !Lacks(sdk.getDeployedContractAbi(LinkedContract(sdk, tokenLinkId), cfg.assetId).value, FunctionName(op))
    && (op.MintTo? ==> sdk.getVaultAccount(cfg.vaultAccountId).Success?)
  }

  /** The envelope `op` submits for the token at `contract`; a mint takes its authority from the fetched vault account. */
  function EnvelopeFor(sdk: Sdk, cfg: Config, contract: string, op: Operation): Instruction
    requires op.MintTo? ==> sdk.getVaultAccount(cfg.vaultAccountId).Success?
  {
    match op
    case MintTo(recipient, amount) =>
      var vault := sdk.getVaultAccount(cfg.vaultAccountId).value;
      BuildMintInstruction(contract, recipient, ResolveMintAuthority(vault, cfg.assetId, contract).address, amount)
    case TransferTo(source, destination, amount) => BuildTransferInstruction(source, contract, destination, amount)
    case SetFeeConfig(basisPoints, maxFee) => BuildFeeConfigInstruction(contract, basisPoints, maxFee)
    case SetHook(hookProgramId) => BuildHookInstruction(contract, hookProgramId)
  }

  /** The write-call request carrying `instruction` to the token's contract, for the configured asset and vault. */
  function WriteRequest(cfg: Config, contractAddress: string, instruction: Instruction): WriteCallRequest
  {
    WriteCallRequest(contractAddress, cfg.assetId, cfg.vaultAccountId, instruction)
  }

  /**
   * Submits `instruction` after the requests already in `calls`; the
   * operation ends with the service's answer to the write-call.
   */
  function Submit(sdk: Sdk, cfg: Config, contractAddress: string, calls: seq<SdkCall>, instruction: Instruction): (run: Run<WriteCallResponse>)
    ensures run.calls == calls + [WriteCallFunction(WriteRequest(cfg, contractAddress, instruction))]
    ensures run.outcome == Answer(sdk.writeCallFunction(WriteRequest(cfg, contractAddress, instruction)), SubmitStage)
  {
    var request := WriteRequest(cfg, contractAddress, instruction);
    Run(calls + [WriteCallFunction(request)], Answer(sdk.writeCallFunction(request), SubmitStage))
  }

  /** The stages of a request list grow by the stage of the request appended. */
  lemma StagesAppend(calls: seq<SdkCall>, c: SdkCall)
    ensures Stages(calls + [c]) == Stages(calls) + [StageOf(c)]
  {
  }

  /**
   * After a successful lookup of `mintToChecked`: the vault-account request,
   * then, if it succeeded, the write-call with the mint envelope; if it
   * failed, nothing more.
   */
  function DispatchMint(sdk: Sdk, cfg: Config, contract: string, fetched: seq<SdkCall>, recipient: string, amount: string): (run: Run<WriteCallResponse>)
    requires Stages(fetched) == [LinkStage, AbiStage]
    ensures |fetched| < |run.calls| <= 4
    ensures run.calls[..|fetched|] == fetched
    ensures Stages(run.calls) == [LinkStage, AbiStage, VaultStage, SubmitStage][..|run.calls|]
    ensures run.outcome.Success? ==> |run.calls| == 4
    ensures run.outcome.Failure? ==> Stages(run.calls)[|run.calls| - 1] == StageReached(run.outcome.error)
    ensures sdk.getVaultAccount(cfg.vaultAccountId).Failure? ==>
      run == Run(fetched + [GetVaultAccount(cfg.vaultAccountId)],
                 Failure(SdkError(VaultStage, sdk.getVaultAccount(cfg.vaultAccountId).error)))
    ensures sdk.getVaultAccount(cfg.vaultAccountId).Success? ==>
      var request := WriteRequest(cfg, contract, EnvelopeFor(sdk, cfg, contract, MintTo(recipient, amount)));
      && run.calls == fetched + [GetVaultAccount(cfg.vaultAccountId), WriteCallFunction(request)]
      && run.outcome == Answer(sdk.writeCallFunction(request), SubmitStage)
  {
    var looked := fetched + [GetVaultAccount(cfg.vaultAccountId)];
    StagesAppend(fetched, GetVaultAccount(cfg.vaultAccountId));
    match sdk.getVaultAccount(cfg.vaultAccountId)
    case Failure(e) => Run(looked, Failure(SdkError(VaultStage, e)))
    case Success(vault) =>
      var authority := ResolveMintAuthority(vault, cfg.assetId, contract).address;
      var instruction := BuildMintInstruction(contract, recipient, authority, amount);
      var write := WriteCallFunction(WriteRequest(cfg, contract, instruction));
      StagesAppend(looked, write);
      assert (looked + [write])[..|fetched|] == fetched;
      assert looked + [write] == fetched + [GetVaultAccount(cfg.vaultAccountId), write];
      Submit(sdk, cfg, contract, looked, instruction)
  }

  /**
   * What follows a successful lookup of the operation's function: for a mint
   * the vault-account request, then the write-call with the operation's
   * envelope, which is always issued unless the vault request failed.
   */
  function Dispatch(sdk: Sdk, cfg: Config, contract: string, fetched: seq<SdkCall>, op: Operation): (run: Run<WriteCallResponse>)
    requires Stages(fetched) == [LinkStage, AbiStage]
    ensures |fetched| < |run.calls| <= |Plan(op)|
    ensures run.calls[..|fetched|] == fetched
    ensures Stages(run.calls) == Plan(op)[..|run.calls|]
    ensures run.outcome.Success? ==> |run.calls| == |Plan(op)|
    ensures run.outcome.Failure? ==> Stages(run.calls)[|run.calls| - 1] == StageReached(run.outcome.error)
    ensures op.MintTo? && sdk.getVaultAccount(cfg.vaultAccountId).Failure? ==>
      run == Run(fetched + [GetVaultAccount(cfg.vaultAccountId)],
                 Failure(SdkError(VaultStage, sdk.getVaultAccount(cfg.vaultAccountId).error)))
    ensures (op.MintTo? ==> sdk.getVaultAccount(cfg.vaultAccountId).Success?) ==>
      var request := WriteRequest(cfg, contract, EnvelopeFor(sdk, cfg, contract, op));
      && |run.calls| == |Plan(op)|
      && run.calls[|run.calls| - 1] == WriteCallFunction(request)
      && run.outcome == Answer(sdk.writeCallFunction(request), SubmitStage)
  {
    match op
    case MintTo(recipient, amount) => DispatchMint(sdk, cfg, contract, fetched, recipient, amount)
    case _ =>
      var instruction :=
        match op
        case TransferTo(source, destination, amount) => BuildTransferInstruction(source, contract, destination, amount)
        case SetFeeConfig(basisPoints, maxFee) => BuildFeeConfigInstruction(contract, basisPoints, maxFee)
        case SetHook(hookProgramId) => BuildHookInstruction(contract, hookProgramId);
      StagesAppend(fetched, WriteCallFunction(WriteRequest(cfg, contract, instruction)));
      Submit(sdk, cfg, contract, fetched, instruction)
  }

  /**
   * Runs `op` against the token linked as `tokenLinkId`. The requests issued
   * are always a prefix of the operation's plan, starting with the link
   * lookup; success means every planned stage was issued, and a failure
   * means the stage that failed was the last one issued.
   */
  function Execute(sdk: Sdk, cfg: Config, tokenLinkId: string, op: Operation): (run: Run<WriteCallResponse>)
    ensures 1 <= |run.calls| <= |Plan(op)|
    ensures Stages(run.calls) == Plan(op)[..|run.calls|]
    ensures run.calls[0] == GetLinkedToken(tokenLinkId)
    ensures run.outcome.Success? ==> |run.calls| == |Plan(op)|
    ensures run.outcome.Failure? ==> Stages(run.calls)[|run.calls| - 1] == StageReached(run.outcome.error)
  {
    match sdk.getLinkedToken(tokenLinkId)
    case Failure(e) => Run([GetLinkedToken(tokenLinkId)], Failure(SdkError(LinkStage, e)))
    case Success(link) =>
      var contract := link.contractAddress;
      var fetched := [GetLinkedToken(tokenLinkId), GetDeployedContractAbi(contract, cfg.assetId)];
      match sdk.getDeployedContractAbi(contract, cfg.assetId)
      case Failure(e) => Run(fetched, Failure(SdkError(AbiStage, e)))
      case Success(abi) =>
        if FindFunction(abi, FunctionName(op)).None? then
          Run(fetched, Failure(FunctionNotFound(FunctionName(op))))
        else
          var run := Dispatch(sdk, cfg, contract, fetched, op);
          assert run.calls[0] == run.calls[..|fetched|][0];
          run
  }

  /**
   * Progress: when every stage before the write-call succeeds, the whole
   * plan is issued, ending with the write-call of the operation's envelope
   * to the linked contract, and the operation ends with the service's answer
   * to it; otherwise the operation fails before the write-call.
   */
  lemma ProceedsWhenReady(sdk: Sdk, cfg: Config, tokenLinkId: string, op: Operation)
    ensures var run := Execute(sdk, cfg, tokenLinkId, op);
      !Ready(sdk, cfg, tokenLinkId, op) ==> |run.calls| < |Plan(op)| && run.outcome.Failure?
    ensures var run := Execute(sdk, cfg, tokenLinkId, op);
      Ready(sdk, cfg, tokenLinkId, op) ==>
        var contract := LinkedContract(sdk, tokenLinkId);
        var request := WriteRequest(cfg, contract, EnvelopeFor(sdk, cfg, contract, op));
        && |run.calls| == |Plan(op)|
        && run.calls[|run.calls| - 1] == WriteCallFunction(request)
        && run.outcome == Answer(sdk.writeCallFunction(request), SubmitStage)
  {
  }

  /** Once an operation has failed, none of its later planned stages appears among the requests issued. */
  lemma NoStageAfterFailure(sdk: Sdk, cfg: Config, tokenLinkId: string, op: Operation)
    ensures var run := Execute(sdk, cfg, tokenLinkId, op);
      run.outcome.Failure? ==>
        forall j :: |run.calls| <= j < |Plan(op)| ==> Plan(op)[j] !in Stages(run.calls)
  {
  }

  /** A failed link lookup is the only request issued. */
  lemma LinkFailureStops(sdk: Sdk, cfg: Config, tokenLinkId: string, op: Operation)
    requires sdk.getLinkedToken(tokenLinkId).Failure?
    ensures Execute(sdk, cfg, tokenLinkId, op)
      == Run([GetLinkedToken(tokenLinkId)], Failure(SdkError(LinkStage, sdk.getLinkedToken(tokenLinkId).error)))
  {
  }

  /** The ABI is fetched only after the link resolved, and for the link's contract address. */
  lemma AbiFetchedForLinkedContract(sdk: Sdk, cfg: Config, tokenLinkId: string, op: Operation)
    ensures var run := Execute(sdk, cfg, tokenLinkId, op);
      |run.calls| >= 2 ==>
        && sdk.getLinkedToken(tokenLinkId).Success?
        && run.calls[1] == GetDeployedContractAbi(LinkedContract(sdk, tokenLinkId), cfg.assetId)
  {
  }

  /**
   * A failed ABI fetch ends the operation there, with the service's cause:
   * no vault lookup and no write-call are issued.
   */
  lemma AbiFailureStops(sdk: Sdk, cfg: Config, tokenLinkId: string, op: Operation)
    requires sdk.getLinkedToken(tokenLinkId).Success?
    requires sdk.getDeployedContractAbi(LinkedContract(sdk, tokenLinkId), cfg.assetId).Failure?
    ensures Execute(sdk, cfg, tokenLinkId, op)
      == Run([GetLinkedToken(tokenLinkId), GetDeployedContractAbi(LinkedContract(sdk, tokenLinkId), cfg.assetId)],
             Failure(SdkError(AbiStage, sdk.getDeployedContractAbi(LinkedContract(sdk, tokenLinkId), cfg.assetId).error)))
  {
  }

  /**
   * When the fetched ABI has no function of the needed name, the operation
   * fails with that name: no vault lookup and no write-call are issued.
   */
  lemma MissingFunctionStops(sdk: Sdk, cfg: Config, tokenLinkId: string, op: Operation)
    requires sdk.getLinkedToken(tokenLinkId).Success?
    requires sdk.getDeployedContractAbi(LinkedContract(sdk, tokenLinkId), cfg.assetId).Success?
    requires Lacks(sdk.getDeployedContractAbi(LinkedContract(sdk, tokenLinkId), cfg.assetId).value, FunctionName(op))
    ensures var run := Execute(sdk, cfg, tokenLinkId, op);
      && run.outcome == Failure(FunctionNotFound(FunctionName(op)))
      && Stages(run.calls) == [LinkStage, AbiStage]
      && !WriteIssued(run)
  {
  }

  /**
   * A failed vault-account request ends a mint there, with the service's
   * cause: no write-call is issued.
   */
  lemma VaultFailureStops(sdk: Sdk, cfg: Config, tokenLinkId: string, recipientAddress: string, amount: string)
    requires sdk.getLinkedToken(tokenLinkId).Success?
    requires sdk.getDeployedContractAbi(LinkedContract(sdk, tokenLinkId), cfg.assetId).Success?
    requires !Lacks(sdk.getDeployedContractAbi(LinkedContract(sdk, tokenLinkId), cfg.assetId).value, MintToChecked)
    requires sdk.getVaultAccount(cfg.vaultAccountId).Failure?
    ensures Execute(sdk, cfg, tokenLinkId, MintTo(recipientAddress, amount))
      == Run([GetLinkedToken(tokenLinkId), GetDeployedContractAbi(LinkedContract(sdk, tokenLinkId), cfg.assetId),
              GetVaultAccount(cfg.vaultAccountId)],
             Failure(SdkError(VaultStage, sdk.getVaultAccount(cfg.vaultAccountId).error)))
  {
  }

  /**
   * A write-call is issued exactly when the link, the ABI fetch, the
   * function lookup and, for a mint, the vault request all succeeded.
   */
  lemma WriteOnlyIfDeclared(sdk: Sdk, cfg: Config, tokenLinkId: string, op: Operation)
    ensures WriteIssued(Execute(sdk, cfg, tokenLinkId, op)) <==> Ready(sdk, cfg, tokenLinkId, op)
  {
    var run := Execute(sdk, cfg, tokenLinkId, op);
    ProceedsWhenReady(sdk, cfg, tokenLinkId, op);
    if Ready(sdk, cfg, tokenLinkId, op) {
      assert run.calls[|run.calls| - 1].WriteCallFunction?;
    } else {
      PlannedWriteIsLast(run, op);
    }
  }

  /** In a run that follows the plan, a write-call can only be the plan's last request. */
  lemma PlannedWriteIsLast<T>(run: Run<T>, op: Operation)
    requires |run.calls| <= |Plan(op)|
    requires Stages(run.calls) == Plan(op)[..|run.calls|]
    ensures forall k :: 0 <= k < |run.calls| && run.calls[k].WriteCallFunction? ==> k == |Plan(op)| - 1
  {
    forall k | 0 <= k < |run.calls| && run.calls[k].WriteCallFunction?
      ensures k == |Plan(op)| - 1
    {
      assert Stages(run.calls)[k] == SubmitStage;
    }
  }

  /**
   * A write-call, when issued, is the last request and the only one, and
   * the operation returns exactly the service's answer to it.
   */
  lemma WriteIsLastAndDecides(sdk: Sdk, cfg: Config, tokenLinkId: string, op: Operation)
    ensures var run := Execute(sdk, cfg, tokenLinkId, op);
      forall k :: 0 <= k < |run.calls| && run.calls[k].WriteCallFunction? ==>
        && k == |run.calls| - 1
        && run.outcome == Answer(sdk.writeCallFunction(run.calls[k].request), SubmitStage)
  {
    var run := Execute(sdk, cfg, tokenLinkId, op);
    PlannedWriteIsLast(run, op);
    WriteOnlyIfDeclared(sdk, cfg, tokenLinkId, op);
    if Ready(sdk, cfg, tokenLinkId, op) {
      ProceedsWhenReady(sdk, cfg, tokenLinkId, op);
    } else {
      assert !WriteIssued(run);
    }
  }

  /**
   * `mintTokens`: stages link, ABI, vault, submit. The write-call is issued
   * exactly when the earlier stages succeed; it is then the fourth request,
   * goes to the linked contract and carries the mint envelope whose
   * authority is resolved from the fetched vault account, and the operation
   * returns the service's answer to it.
   */
  function MintTokens(sdk: Sdk, cfg: Config, tokenLinkId: string, recipientAddress: string, amount: string): (run: Run<WriteCallResponse>)
    ensures 1 <= |run.calls| <= 4
    ensures Stages(run.calls) == [LinkStage, AbiStage, VaultStage, SubmitStage][..|run.calls|]
    ensures WriteIssued(run) <==> Ready(sdk, cfg, tokenLinkId, MintTo(recipientAddress, amount))
    ensures Ready(sdk, cfg, tokenLinkId, MintTo(recipientAddress, amount)) ==>
      var contract := LinkedContract(sdk, tokenLinkId);
      var vault := sdk.getVaultAccount(cfg.vaultAccountId).value;
      var request := WriteRequest(cfg, contract,
        BuildMintInstruction(contract, recipientAddress, ResolveMintAuthority(vault, cfg.assetId, contract).address, amount));
      && run.calls == [GetLinkedToken(tokenLinkId), GetDeployedContractAbi(contract, cfg.assetId),
                       GetVaultAccount(cfg.vaultAccountId), WriteCallFunction(request)]
      && run.outcome == Answer(sdk.writeCallFunction(request), SubmitStage)
  {
    ProceedsWhenReady(sdk, cfg, tokenLinkId, MintTo(recipientAddress, amount));
    WriteOnlyIfDeclared(sdk, cfg, tokenLinkId, MintTo(recipientAddress, amount));
    Execute(sdk, cfg, tokenLinkId, MintTo(recipientAddress, amount))
  }

  /**
   * `transferTokens`: stages link, ABI, submit. The write-call is issued
   * exactly when the earlier stages succeed; it is then the third request,
   * goes to the linked contract and carries the transfer envelope, and the
   * operation returns the service's answer to it.
   */
  function TransferTokens(sdk: Sdk, cfg: Config, tokenLinkId: string, sourceAddress: string, destinationAddress: string, amount: string): (run: Run<WriteCallResponse>)
    ensures 1 <= |run.calls| <= 3
    ensures Stages(run.calls) == [LinkStage, AbiStage, SubmitStage][..|run.calls|]
    ensures WriteIssued(run) <==> Ready(sdk, cfg, tokenLinkId, TransferTo(sourceAddress, destinationAddress, amount))
    ensures Ready(sdk, cfg, tokenLinkId, TransferTo(sourceAddress, destinationAddress, amount)) ==>
      var contract := LinkedContract(sdk, tokenLinkId);
      var request := WriteRequest(cfg, contract, BuildTransferInstruction(sourceAddress, contract, destinationAddress, amount));
      && run.calls == [GetLinkedToken(tokenLinkId), GetDeployedContractAbi(contract, cfg.assetId), WriteCallFunction(request)]
      && run.outcome == Answer(sdk.writeCallFunction(request), SubmitStage)
  {
    ProceedsWhenReady(sdk, cfg, tokenLinkId, TransferTo(sourceAddress, destinationAddress, amount));
    WriteOnlyIfDeclared(sdk, cfg, tokenLinkId, TransferTo(sourceAddress, destinationAddress, amount));
    Execute(sdk, cfg, tokenLinkId, TransferTo(sourceAddress, destinationAddress, amount))
  }

  /**
   * `setTransferFeeConfig`: stages link, ABI, submit. The write-call is
   * issued exactly when the earlier stages succeed, and then carries the
   * fee-config envelope for the linked contract.
   */
  function SetTransferFeeConfig(sdk: Sdk, cfg: Config, tokenLinkId: string, transferFeeBasisPoints: int, maxFee: string): (run: Run<WriteCallResponse>)
    ensures 1 <= |run.calls| <= 3
    ensures Stages(run.calls) == [LinkStage, AbiStage, SubmitStage][..|run.calls|]
    ensures WriteIssued(run) <==> Ready(sdk, cfg, tokenLinkId, SetFeeConfig(transferFeeBasisPoints, maxFee))
    ensures Ready(sdk, cfg, tokenLinkId, SetFeeConfig(transferFeeBasisPoints, maxFee)) ==>
      var contract := LinkedContract(sdk, tokenLinkId);
      var request := WriteRequest(cfg, contract, BuildFeeConfigInstruction(contract, transferFeeBasisPoints, maxFee));
      && run.calls == [GetLinkedToken(tokenLinkId), GetDeployedContractAbi(contract, cfg.assetId), WriteCallFunction(request)]
      && run.outcome == Answer(sdk.writeCallFunction(request), SubmitStage)
  {
    ProceedsWhenReady(sdk, cfg, tokenLinkId, SetFeeConfig(transferFeeBasisPoints, maxFee));
    WriteOnlyIfDeclared(sdk, cfg, tokenLinkId, SetFeeConfig(transferFeeBasisPoints, maxFee));
    Execute(sdk, cfg, tokenLinkId, SetFeeConfig(transferFeeBasisPoints, maxFee))
  }

  /**
   * `setTransferHook`: stages link, ABI, submit. The write-call is issued
   * exactly when the earlier stages succeed, and then carries the hook
   * envelope for the linked contract and the hook program id.
   */
  function SetTransferHook(sdk: Sdk, cfg: Config, tokenLinkId: string, hookProgramId: string): (run: Run<WriteCallResponse>)
    ensures 1 <= |run.calls| <= 3
    ensures Stages(run.calls) == [LinkStage, AbiStage, SubmitStage][..|run.calls|]
    ensures WriteIssued(run) <==> Ready(sdk, cfg, tokenLinkId, SetHook(hookProgramId))
    ensures Ready(sdk, cfg, tokenLinkId, SetHook(hookProgramId)) ==>
      var contract := LinkedContract(sdk, tokenLinkId);
      var request := WriteRequest(cfg, contract, BuildHookInstruction(contract, hookProgramId));
      && run.calls == [GetLinkedToken(tokenLinkId), GetDeployedContractAbi(contract, cfg.assetId), WriteCallFunction(request)]
      && run.outcome == Answer(sdk.writeCallFunction(request), SubmitStage)
  {
    ProceedsWhenReady(sdk, cfg, tokenLinkId, SetHook(hookProgramId));
    WriteOnlyIfDeclared(sdk, cfg, tokenLinkId, SetHook(hookProgramId));
    Execute(sdk, cfg, tokenLinkId, SetHook(hookProgramId))
  }
}
