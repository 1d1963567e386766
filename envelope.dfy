/**
 * Instruction envelopes: the record a token operation hands to the custody
 * service's write-call (function name, ordered accounts with role flags,
 * ordered typed arguments), and the split of an envelope into its fixed
 * shape and the data it carries.
 */
module Envelope {
  import opened Wrappers

  /** Declared type of an instruction argument. */
  datatype ArgType = U64 | U8 | Struct

  /** One tier of a transfer-fee schedule. */
  datatype TransferFee = TransferFee(epoch: int, maximumFee: string, transferFeeBasisPoints: int)

  /** The structured argument of `setTransferFeeConfig`; `None` is an explicit null. */
  datatype TransferFeeConfig = TransferFeeConfig(
    transferFeeConfigAuthority: Option<string>,
    withdrawWithheldAuthority: Option<string>,
    withheldAmount: string,
    olderTransferFee: TransferFee,
    newerTransferFee: TransferFee)

  /** Argument values: decimal strings, plain numbers, or the fee-config record. */
  datatype ArgValue = Text(text: string) | Number(number: int) | FeeConfig(config: TransferFeeConfig)

  /** An account entry. A role flag that the literal does not mention is `None`. */
  datatype AccountMeta = AccountMeta(name: string, writable: Option<bool>, signer: Option<bool>, address: string)

  datatype Arg = Arg(name: string, typ: ArgType, value: ArgValue)

  /** The envelope submitted as `abiFunction` of a write-call. */
  datatype Instruction = Instruction(name: string, accounts: seq<AccountMeta>, args: seq<Arg>)

  predicate IsWritable(a: AccountMeta) { a.writable == Some(true) }
  predicate IsSigner(a: AccountMeta) { a.signer == Some(true) }

  /** The decimals every mint and transfer envelope carries. */
  const Decimals: int := 9

  // The shape of an envelope: everything but the addresses and argument values.

  datatype AccountSlot = AccountSlot(name: string, writable: Option<bool>, signer: Option<bool>)
  datatype ArgSlot = ArgSlot(name: string, typ: ArgType)
  datatype Shape = Shape(name: string, accounts: seq<AccountSlot>, args: seq<ArgSlot>)

  function SlotOf(a: AccountMeta): AccountSlot { AccountSlot(a.name, a.writable, a.signer) }
  function ArgSlotOf(a: Arg): ArgSlot { ArgSlot(a.name, a.typ) }

  function ShapeOf(i: Instruction): (s: Shape)
    ensures s.name == i.name && |s.accounts| == |i.accounts| && |s.args| == |i.args|
  {
    Shape(i.name,
      seq(|i.accounts|, k requires 0 <= k < |i.accounts| => SlotOf(i.accounts[k])),
      seq(|i.args|, k requires 0 <= k < |i.args| => ArgSlotOf(i.args[k])))
  }

  /** The account addresses, in envelope order. */
  function Addresses(i: Instruction): (r: seq<string>)
    ensures |r| == |i.accounts|
  {
    seq(|i.accounts|, k requires 0 <= k < |i.accounts| => i.accounts[k].address)
  }

  /** The argument values, in envelope order. */
  function Values(i: Instruction): (r: seq<ArgValue>)
    ensures |r| == |i.args|
  {
    seq(|i.args|, k requires 0 <= k < |i.args| => i.args[k].value)
  }

  /** Fills a shape with addresses and values; the inverse of the three projections above. */
  function Assemble(s: Shape, addresses: seq<string>, values: seq<ArgValue>): (i: Instruction)
    requires |addresses| == |s.accounts| && |values| == |s.args|
    ensures ShapeOf(i) == s && Addresses(i) == addresses && Values(i) == values
  {
    var accounts := seq(|s.accounts|, k requires 0 <= k < |s.accounts| =>
      AccountMeta(s.accounts[k].name, s.accounts[k].writable, s.accounts[k].signer, addresses[k]));
    var args := seq(|s.args|, k requires 0 <= k < |s.args| =>
      Arg(s.args[k].name, s.args[k].typ, values[k]));
    var i := Instruction(s.name, accounts, args);
    assert ShapeOf(i).accounts == s.accounts;
    assert ShapeOf(i).args == s.args;
    i
  }

  /** An envelope is determined by its shape, its addresses and its values. */
  lemma Reassemble(i: Instruction)
    ensures Assemble(ShapeOf(i), Addresses(i), Values(i)) == i
  {

  }

  /** Two envelopes that agree on shape, addresses and values are the same envelope. */
  lemma SameParts(i: Instruction, j: Instruction)
    requires ShapeOf(i) == ShapeOf(j) && Addresses(i) == Addresses(j) && Values(i) == Values(j)
    ensures i == j
  {
    Reassemble(i);
    Reassemble(j);
  }
}
