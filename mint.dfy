/**
 * Minting (`mintTokens`): the vault-asset search that picks the mint
 * authority, the `mintToChecked` envelope, and its decoder.
 */
module Mint {
  import opened Wrappers
  import opened Envelope
  import opened Custody

  const MintToChecked: string := "mintToChecked"

  /** Accounts mint (writable), token (writable), mintAuthority (signer); arguments amount: u64, decimals: u8. */
  const MintShape: Shape := Shape(MintToChecked,
    [AccountSlot("mint", Some(true), None),
     AccountSlot("token", Some(true), None),
     AccountSlot("mintAuthority", None, Some(true))],
    [ArgSlot("amount", U64), ArgSlot("decimals", U8)])

  /** The position of the first asset whose id equals `assetId`, or `None`. */
  function FindAsset(assets: seq<VaultAsset>, assetId: string): (r: Option<nat>)
    ensures r.Some? ==> r.value < |assets| && assets[r.value].id == assetId
    ensures r.Some? ==> forall k :: 0 <= k < r.value ==> assets[k].id != assetId
    ensures r.None? <==> forall k :: 0 <= k < |assets| ==> assets[k].id != assetId
  {
    if |assets| == 0 then None
    else if assets[0].id == assetId then Some(0)
    else match FindAsset(assets[1..], assetId)
      case None => None
      case Some(k) => Some(k + 1)
  }

  /**
   * `a` is the address of the vault's first asset with id `assetId`, and it
   * is present and non-empty (a value JavaScript treats as true).
   */
  ghost predicate IsVaultAddress(vault: VaultAccount, assetId: string, a: string)
  {
    && vault.assets.Some?
    && a != ""
    && exists k :: 0 <= k < |vault.assets.value|
         && vault.assets.value[k].id == assetId
         && vault.assets.value[k].address == Some(a)
         && forall j :: 0 <= j < k ==> vault.assets.value[j].id != assetId
  }

  /** Where the mint authority's address came from. */
  datatype MintAuthority = VaultAddress(address: string) | ContractFallback(address: string)

  /**
   * The mint authority: the address of the vault asset configured for the
   * token when there is a usable one, otherwise the token's own address.
   */
  function ResolveMintAuthority(vault: VaultAccount, assetId: string, contractAddress: string): (r: MintAuthority)
    ensures r.VaultAddress? ==> IsVaultAddress(vault, assetId, r.address)
    ensures r.ContractFallback? ==> r.address == contractAddress
    ensures r.ContractFallback? ==> forall a :: !IsVaultAddress(vault, assetId, a)
  {
    if vault.assets.None? then ContractFallback(contractAddress)
    else match FindAsset(vault.assets.value, assetId)
      case None => ContractFallback(contractAddress)
      case Some(k) =>
        match vault.assets.value[k].address
        case Some(a) => if a != "" then VaultAddress(a) else ContractFallback(contractAddress)
        case None => ContractFallback(contractAddress)
  }

  /** At most one address is the vault address for an asset id. */
  lemma VaultAddressUnique(vault: VaultAccount, assetId: string, a: string, b: string)
    requires IsVaultAddress(vault, assetId, a) && IsVaultAddress(vault, assetId, b)
    ensures a == b
  {

  }

  /** The `mintToChecked` envelope. */
  function BuildMintInstruction(contractAddress: string, recipientAddress: string, authority: string, amount: string): (r: Instruction)
    ensures ShapeOf(r) == MintShape
    ensures Addresses(r) == [contractAddress, recipientAddress, authority]
    ensures Values(r) == [Text(amount), Number(Decimals)]
    ensures IsWritable(r.accounts[0]) && IsWritable(r.accounts[1]) && IsSigner(r.accounts[2])
  {
    var r := Instruction(MintToChecked,
      [AccountMeta("mint", Some(true), None, contractAddress),
       AccountMeta("token", Some(true), None, recipientAddress),
       AccountMeta("mintAuthority", None, Some(true), authority)],
      [Arg("amount", U64, Text(amount)),
       Arg("decimals", U8, Number(Decimals))]);
    assert ShapeOf(r).accounts == MintShape.accounts;
    assert ShapeOf(r).args == MintShape.args;
    r
  }

  /** What a mint envelope says: which mint, to whom, signed by whom, how much. */
  datatype MintRequest = MintRequest(mint: string, recipient: string, authority: string, amount: string)

  /** Reads a mint envelope back; `None` unless it has the mint shape and decimals 9. */
  function DecodeMint(i: Instruction): Option<MintRequest>
  {
    if ShapeOf(i) == MintShape && Values(i)[0].Text? && Values(i)[1] == Number(Decimals) then
      Some(MintRequest(Addresses(i)[0], Addresses(i)[1], Addresses(i)[2], Values(i)[0].text))
    else None
  }

  /** Decoding accepts exactly the envelopes the builder produces, and recovers their inputs. */
  lemma DecodeMintExact(i: Instruction, m: MintRequest)
    ensures DecodeMint(i) == Some(m) <==> i == BuildMintInstruction(m.mint, m.recipient, m.authority, m.amount)
  {
    var b := BuildMintInstruction(m.mint, m.recipient, m.authority, m.amount);
    if DecodeMint(i) == Some(m) {
      assert Addresses(i) == Addresses(b);
      assert Values(i) == Values(b);
      SameParts(i, b);
    }
  }
}
