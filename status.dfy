/** The status engine: the first-match decision table of `update_status`. */
module StatusEngine {
  import opened ReservationEntry

  /** An optional argument: `update_status(status=None)`. */
  datatype Option<T> = None | Some(value: T)

  datatype Status = Draft | Reserved | PartiallyDelivered | Delivered | Cancelled

  /** The text stored in the record's `status` field. */
  function Label(s: Status): string
  {
    match s
    case Draft => "Draft"
    case Reserved => "Reserved"
    case PartiallyDelivered => "Partially Delivered"
    case Delivered => "Delivered"
    case Cancelled => "Cancelled"
  }

  /** The decision table. Its five rows are tried in order; the ensures
      restate it as five mutually exclusive conditions, one per status. */
  function DecideStatus(docstatus: DocStatus, reservedQty: real, deliveredQty: real): (s: Status)
    ensures s == Status.Cancelled <==> docstatus.Cancelled?
    ensures s == Delivered <==> !docstatus.Cancelled? && reservedQty == deliveredQty
    ensures s == PartiallyDelivered <==>
      !docstatus.Cancelled? && deliveredQty != 0.0 && reservedQty > deliveredQty
    ensures s == Reserved <==>
      docstatus.Submitted? && reservedQty != deliveredQty
      && !(deliveredQty != 0.0 && reservedQty > deliveredQty)
    ensures s == Status.Draft <==>
      docstatus.Draft? && reservedQty != deliveredQty
      && !(deliveredQty != 0.0 && reservedQty > deliveredQty)
  {
    if docstatus.Cancelled? then Status.Cancelled
    else if reservedQty == deliveredQty then Delivered
    else if deliveredQty != 0.0 && reservedQty > deliveredQty then PartiallyDelivered
    else if docstatus.Submitted? then Reserved
    else Status.Draft
  }

  /** The status `update_status` writes: an explicit, non-empty status is
      kept as given; with none (or an empty one) the table decides. */
  function ResolveStatus(e: Entry, explicit: Option<string>): (s: string)
    ensures explicit.Some? && explicit.value != "" ==> s == explicit.value
    ensures (explicit.None? || explicit.value == "") ==>
      s == Label(DecideStatus(e.docstatus, e.reservedQty, e.deliveredQty))
  {
    if explicit.Some? && explicit.value != "" then explicit.value
    else Label(DecideStatus(e.docstatus, e.reservedQty, e.deliveredQty))
  }

  /** A submitted record never resolves to Draft or Cancelled. */
  lemma SubmittedStatus(reservedQty: real, deliveredQty: real)
    ensures DecideStatus(Submitted, reservedQty, deliveredQty) in
      {Reserved, PartiallyDelivered, Delivered}
  {
  }

  /** Zero reserved and zero delivered is Delivered, even for a draft. */
  lemma ZeroIsDelivered(docstatus: DocStatus)
    requires !docstatus.Cancelled?
    ensures DecideStatus(docstatus, 0.0, 0.0) == Delivered
  {
  }

  /** Delivering more than was reserved is neither Delivered nor Partially
      Delivered: the record falls through to Reserved (or Draft). */
  lemma OverDeliveryFallsThrough(docstatus: DocStatus, reservedQty: real, deliveredQty: real)
    requires !docstatus.Cancelled? && deliveredQty > reservedQty
    ensures DecideStatus(docstatus, reservedQty, deliveredQty) ==
      if docstatus.Submitted? then Reserved else Status.Draft
  {
  }

  /** The worked cases of a record reserving 10: submitted with nothing
      delivered, 4 delivered, all 10 delivered, and cancelled. */
  lemma ScenarioStatuses()
    ensures Label(DecideStatus(Submitted, 10.0, 0.0)) == "Reserved"
    ensures Label(DecideStatus(Submitted, 10.0, 4.0)) == "Partially Delivered"
    ensures Label(DecideStatus(Submitted, 10.0, 10.0)) == "Delivered"
    ensures Label(DecideStatus(DocStatus.Cancelled, 10.0, 4.0)) == "Cancelled"
  {
  }
}
