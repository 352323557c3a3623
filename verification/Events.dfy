/** The domain events that cross service boundaries, and the values they carry. */
module Events {
  datatype Condition = Good | Damaged

  datatype Discrepancy = NoDiscrepancy | Shortage | Overage | Damage

  datatype ReceivedLine = ReceivedLine(sku: string, ordered: int, received: int, condition: Condition,
                                       discrepancy: Discrepancy)

  datatype GoodsReceived = GoodsReceived(occurredAt: int, grnNumber: string, poNumber: string, location: string,
                                         lines: seq<ReceivedLine>)

  datatype PaymentMethod = CashPayment | CardPayment | GiftCardPayment

  /** An amount tendered, in cents; nothing makes the till round it. */
  datatype Payment = Payment(via: PaymentMethod, amount: real)

  datatype SoldLine = SoldLine(sku: string, quantity: int, unitPrice: int, discount: int, tax: int, total: int,
                               reservation: nat)

  datatype ItemSold = ItemSold(occurredAt: int, transactionId: string, storeId: string, lines: seq<SoldLine>,
                               payments: seq<Payment>)

  datatype ReturnedLine = ReturnedLine(sku: string, quantity: int, location: string, refund: int)

  datatype ItemReturned = ItemReturned(occurredAt: int, returnId: string, originalTransactionId: string,
                                       storeId: string, lines: seq<ReturnedLine>)

  datatype DayClosed = DayClosed(occurredAt: int, storeId: string, businessDate: string, discrepancy: int)

  datatype AdjustmentKind = ManualAdjustment | CountAdjustment

  datatype AdjustedLine = AdjustedLine(sku: string, delta: int, unitCost: int)

  datatype StockAdjusted = StockAdjusted(occurredAt: int, kind: AdjustmentKind, reference: string,
                                         location: string, lines: seq<AdjustedLine>)

  datatype StockTransferred = StockTransferred(transferNumber: string, sku: string, quantity: int,
                                               fromLocation: string, toLocation: string)
}
