/** Values that the extraction pipeline reads from the chain and writes into a
    test vector. Content identifiers, tipset keys and addresses are kept as
    their textual forms, which is how the vector's provenance records use them.
 */
module ChainTypes {

  datatype Option<+T> = None | Some(value: T)

  datatype Result<+T, +E> = Ok(value: T) | Err(error: E)

  /** A content identifier (CID), in its string form. */
  type Cid = string

  /** The key of a tipset, in its string form. */
  type TipSetKey = string

  type Address = string

  /** A chain epoch (height). */
  type ChainEpoch = int

  /** A big-integer token amount; only ever copied, never computed with. */
  type TokenAmount = int

  /** A chain message. Messages are content-addressed: `cid` is the identity
      of the whole record, `from` its sender, `payload` everything else
      (receiver, nonce, method, parameters, value).
   */
  datatype Message = Message(cid: Cid, from: Address, payload: seq<int>)

  datatype BlockHeader = BlockHeader(cid: Cid, parentBaseFee: TokenAmount)

  /** A tipset: its key, its height, the state root its blocks build on, and
      its blocks (a tipset always holds at least one block).
   */
  datatype TipSet = TipSet(key: TipSetKey, height: ChainEpoch, parentState: Cid, blocks: seq<BlockHeader>)

  /** What the execution engine reports for one applied message. */
  datatype ApplyRet = ApplyRet(exitCode: int, returnValue: seq<int>, gasUsed: int, penalty: TokenAmount, minerTip: TokenAmount)

  /** A message receipt, as the chain records it and as a vector stores it. */
  datatype Receipt = Receipt(exitCode: int, returnValue: seq<int>, gasUsed: int)

  /** The receipt part of a local execution result. */
  function ReceiptOf(ret: ApplyRet): Receipt {
    Receipt(ret.exitCode, ret.returnValue, ret.gasUsed)
  }
}
