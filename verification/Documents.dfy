/** What extraction leaves behind for each shipment document, and the vocabulary of checks.
    Money is in integer cents and dates are day numbers; text that does not parse stays
    visible as `Unreadable` or `BadDate`, because the comparison rules branch on it. */
module Documents {
  import opened Options

  datatype DocKind = Invoice | RateCon | Bol | Pod | Unclassified

  datatype Amount = NoAmount | Unreadable | Cents(cents: int)

  datatype Date = NoDate | BadDate | Day(day: int)

  datatype Extraction = Extraction(
    totalAmount: Amount,
    invoiceTotal: Amount,
    agreedRate: Amount,
    rate: Amount,
    carrier: string,        // normalized; "" when missing
    pickupDate: Date,
    shipmentDate: Date,
    invoiceDate: Date,
    deliveryDate: Date,
    condition: string)

  datatype Document = Document(id: int, kind: DocKind, extraction: Extraction)

  /** A row of the rate-confirmation table, which overrides a rate-confirmation document. */
  datatype Rate = Rate(id: int, carrier: string, agreedCents: int, shipDay: int)

  function RateExtraction(rate: Rate): Extraction {
    Extraction(NoAmount, NoAmount, Cents(rate.agreedCents), NoAmount, rate.carrier,
               NoDate, Day(rate.shipDay), NoDate, NoDate, "")
  }

  datatype Outcome = Passed | Failed | NotEvaluated

  datatype Reason =
    | AmountVariance
    | CarrierMismatch
    | PickupDateMismatch
    | PodIncomplete
    | Overdue(kind: DocKind)
    | NoLoadNumber
    | DocumentNotFound

  datatype CheckName =
    | AmountCheck
    | CarrierCheck
    | PickupDateCheck
    | PodCheck
    | RequiredCheck(kind: DocKind)
    | MissingDocsCheck

  datatype Check = Check(name: CheckName, outcome: Outcome, reason: Option<Reason>)

  const REQUIRED: seq<DocKind> := [Invoice, RateCon, Bol, Pod]
}
