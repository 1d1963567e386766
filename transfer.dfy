/** Transferring (`transferTokens`): the `transferChecked` envelope and its decoder. */
module Transfer {
  import opened Wrappers
  import opened Envelope

  const TransferChecked: string := "transferChecked"

  /** Accounts source (writable), mint (read-only), destination (writable), authority (signer). */
  const TransferShape: Shape := Shape(TransferChecked,
    [AccountSlot("source", Some(true), None),
     AccountSlot("mint", Some(false), None),
     AccountSlot("destination", Some(true), None),
     AccountSlot("authority", None, Some(true))],
    [ArgSlot("amount", U64), ArgSlot("decimals", U8)])

  /** The `transferChecked` envelope; the source address also signs as authority. */
  function BuildTransferInstruction(sourceAddress: string, contractAddress: string, destinationAddress: string, amount: string): (r: Instruction)
    ensures ShapeOf(r) == TransferShape
    ensures Addresses(r) == [sourceAddress, contractAddress, destinationAddress, sourceAddress]
    ensures Values(r) == [Text(amount), Number(Decimals)]
    ensures IsWritable(r.accounts[0]) && !IsWritable(r.accounts[1]) && IsWritable(r.accounts[2])
    ensures IsSigner(r.accounts[3]) && r.accounts[3].address == r.accounts[0].address
  {
    var r := Instruction(TransferChecked,
      [AccountMeta("source", Some(true), None, sourceAddress),
       AccountMeta("mint", Some(false), None, contractAddress),
       AccountMeta("destination", Some(true), None, destinationAddress),
       AccountMeta("authority", None, Some(true), sourceAddress)],
      [Arg("amount", U64, Text(amount)),
       Arg("decimals", U8, Number(Decimals))]);
    assert ShapeOf(r).accounts == TransferShape.accounts;
    assert ShapeOf(r).args == TransferShape.args;
    r
  }

  /** What a transfer envelope says. */
  datatype TransferRequest = TransferRequest(source: string, mint: string, destination: string, amount: string)

  /**
   * Reads a transfer envelope back; `None` unless it has the transfer shape,
   * decimals 9, and the authority is the source.
   */
  function DecodeTransfer(i: Instruction): Option<TransferRequest>
  {
    if ShapeOf(i) == TransferShape && Addresses(i)[3] == Addresses(i)[0]
       && Values(i)[0].Text? && Values(i)[1] == Number(Decimals) then
      Some(TransferRequest(Addresses(i)[0], Addresses(i)[1], Addresses(i)[2], Values(i)[0].text))
    else None
  }

  /** Decoding accepts exactly the envelopes the builder produces, and recovers their inputs. */
  lemma DecodeTransferExact(i: Instruction, t: TransferRequest)
    ensures DecodeTransfer(i) == Some(t) <==> i == BuildTransferInstruction(t.source, t.mint, t.destination, t.amount)
  {
    var b := BuildTransferInstruction(t.source, t.mint, t.destination, t.amount);
    if DecodeTransfer(i) == Some(t) {
      assert Addresses(i) == Addresses(b);
      assert Values(i) == Values(b);
      SameParts(i, b);
    }
  }
}
