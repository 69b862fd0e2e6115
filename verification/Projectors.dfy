/** The pure projectors: one state machine for a sale, one for a payment claim. */
module Projectors {
  import opened Wrappers
  import opened Domain

  datatype SaleStatus = Listed | Funded | Completed | Cancelled | Expired

  datatype Sale = Sale(
    saleId: nat, tokenId: nat, seller: Address, allowedBuyer: Address, buyer: Option<Address>,
    priceWei: nat, fundedAt: Option<nat>, expiresAt: Option<nat>, status: SaleStatus, tokenReclaimed: bool)

  datatype Claim = Claim(
    saleId: nat, beneficiary: Address, amountWei: nat, kind: ClaimKind, withdrawn: bool,
    recipient: Option<Address>)

  /** Integrity errors (a missing prerequisite) raise the recovery barrier; the others only throw. */
  datatype ProjectionError =
    | Integrity(entity: string, entityId: nat, missingPrerequisite: string)
    | Impossible(message: string)
    | CheckViolated(constraint: string)

  /** Keep: the projector returned the record it was given, so nothing is written. */
  datatype Projected<T> = Keep | Put(value: T)

  function ProjectSale(current: Option<Sale>, event: Event): Result<Projected<Sale>, ProjectionError> {
    if event.SaleCreated? then
      if current.Some? then Failure(Impossible("sale already exists"))
      else Success(Put(Sale(event.saleId, event.tokenId, event.seller, event.allowedBuyer, None,
                            event.priceWei, None, None, Listed, false)))
    else if !IsSaleTransition(event) then Success(Keep)
    else if current.None? then Failure(Integrity("sale", event.saleId, "SaleCreated"))
    else if event.saleId != current.value.saleId then Failure(Integrity("sale", event.saleId, "sale"))
    else
      var sale := current.value;
      match event
      case SaleFunded(_, buyer, _, fundedAt, expiresAt) =>
        if !sale.status.Listed? then Failure(Impossible("SaleFunded requires LISTED"))
        else if buyer != sale.allowedBuyer then Failure(Integrity("sale", event.saleId, "allowedBuyer"))
        else Success(Put(sale.(buyer := Some(buyer), fundedAt := Some(fundedAt), expiresAt := Some(expiresAt),
                               status := Funded)))
      case SaleCompleted(_) =>
        if !sale.status.Funded? then Failure(Impossible("SaleCompleted requires FUNDED"))
        else Success(Put(sale.(status := Completed)))
      case SaleCancelled(_) =>
        if !sale.status.Listed? then Failure(Impossible("SaleCancelled requires LISTED"))
        else Success(Put(sale.(status := Cancelled)))
      case SaleExpired(_) =>
        if !sale.status.Funded? then Failure(Impossible("SaleExpired requires FUNDED"))
        else Success(Put(sale.(status := Expired)))
      case TokenReclaimed(_, _, _) =>
        if !sale.status.Cancelled? && !sale.status.Expired? then
          Failure(Impossible("TokenReclaimed requires terminal return state"))
        else Success(Put(sale.(tokenReclaimed := true)))
  }

  predicate IsSaleTransition(event: Event) {
    event.SaleFunded? || event.SaleCompleted? || event.SaleCancelled? || event.SaleExpired? || event.TokenReclaimed?
  }

  function ProjectPayment(current: Option<Claim>, event: Event): Result<Projected<Claim>, ProjectionError> {
    if event.PaymentClaimCreated? then
      if current.Some? then Failure(Impossible("claim already exists"))
      else Success(Put(Claim(event.saleId, event.beneficiary, event.amountWei, event.claimKind, false, None)))
    else if event.PaymentWithdrawn? then
      if current.None? then Failure(Integrity("payment-claim", event.saleId, "PaymentClaimCreated"))
      else if current.value.saleId != event.saleId then Failure(Integrity("payment-claim", event.saleId, "claim"))
      else if current.value.withdrawn then Failure(Impossible("claim already withdrawn"))
      else Success(Put(current.value.(withdrawn := true, recipient := Some(event.recipient))))
    else Success(Keep)
  }
}
