/** Chain values the indexer works on: block headers, log envelopes and decoded events.
    Hex text is already lower-case; amounts, ids and timestamps are numbers. */
module Domain {

  type Hash = string
  type Address = string

  datatype BlockHeader = BlockHeader(number: nat, hash: Hash, parentHash: Hash, timestamp: nat)

  datatype ClaimKind = SellerProceeds | BuyerRefund

  datatype Event =
    | SaleCreated(saleId: nat, tokenId: nat, seller: Address, allowedBuyer: Address, priceWei: nat)
    | SaleFunded(saleId: nat, buyer: Address, amountWei: nat, fundedAt: nat, expiresAt: nat)
    | SaleCompleted(saleId: nat)
    | SaleCancelled(saleId: nat)
    | SaleExpired(saleId: nat)
    | PaymentClaimCreated(saleId: nat, beneficiary: Address, amountWei: nat, claimKind: ClaimKind)
    | PaymentWithdrawn(saleId: nat, recipient: Address)
    | TokenReclaimed(saleId: nat, tokenId: nat, recipient: Address)
    | Transfer(tokenId: nat, from: Address, to: Address)

  /** The part of a log that the raw-envelope digest covers. */
  datatype Envelope = Envelope(
    blockNumber: nat, blockHash: Hash, transactionHash: Hash, transactionIndex: nat, logIndex: nat,
    contractAddress: Address, topics: seq<string>, data: string)

  datatype OrderedEvent = OrderedEvent(envelope: Envelope, event: Event)

  /** An injective digest keeps exactly the information of its input. */
  datatype Digest<T> = Digest(of: T)

  datatype SourceRecord = SourceRecord(envelope: Envelope, decoded: Event, decoderVersion: string)

  const DECODER_VERSION := "motorcove-events-v2"
  const PROJECTOR_VERSION := "2"

  /** Order of logs inside one block. */
  predicate LogBefore(a: Envelope, b: Envelope) {
    a.transactionIndex < b.transactionIndex ||
    (a.transactionIndex == b.transactionIndex && a.logIndex < b.logIndex)
  }

  /** Order of logs across blocks: block number, transaction index, log index. */
  predicate Before(a: Envelope, b: Envelope) {
    a.blockNumber < b.blockNumber || (a.blockNumber == b.blockNumber && LogBefore(a, b))
  }

  function Envelopes(es: seq<OrderedEvent>): (r: seq<Envelope>)
    ensures |r| == |es| && forall i :: 0 <= i < |es| ==> r[i] == es[i].envelope
  {
    seq(|es|, i requires 0 <= i < |es| => es[i].envelope)
  }
}
