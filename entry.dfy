/** The Stock Reservation Entry record: one row of the reservation ledger.
    Quantities are Frappe Float fields, modelled as exact reals. A Data or
    Link field that is absent (None) or empty is the empty string: both are
    falsy in ERPNext's code and nothing below tells them apart. */
module ReservationEntry {

  /** The document lifecycle flag: 0 = Draft, 1 = Submitted, 2 = Cancelled. */
  datatype DocStatus = Draft | Submitted | Cancelled

  datatype Entry = Entry(
    name: string,
    itemCode: string,
    warehouse: string,
    postingDate: string,
    postingTime: string,
    voucherType: string,
    voucherNo: string,
    voucherDetailNo: string,
    availableQty: real,
    voucherQty: real,
    stockUom: string,
    reservedQty: real,
    deliveredQty: real,
    company: string,
    docstatus: DocStatus,
    status: string)

  /** The composite reference to the voucher line a reservation is against. */
  datatype VoucherKey = VoucherKey(voucherType: string, voucherNo: string, voucherDetailNo: string)

  function KeyOf(e: Entry): VoucherKey
  {
    VoucherKey(e.voucherType, e.voucherNo, e.voucherDetailNo)
  }

  /** The fields that `validate_mandatory` names, one constructor each. */
  datatype Field =
    | ItemCode | Warehouse | PostingDate | PostingTime
    | VoucherType | VoucherNo | VoucherDetailNo
    | AvailableQty | VoucherQty | StockUom | ReservedQty | Company

  /** What `self.get(fieldname)` yields: text or a number. */
  datatype Value = Text(s: string) | Qty(q: real)

  function Get(e: Entry, f: Field): Value
  {
    match f
    case ItemCode => Text(e.itemCode)
    case Warehouse => Text(e.warehouse)
    case PostingDate => Text(e.postingDate)
    case PostingTime => Text(e.postingTime)
    case VoucherType => Text(e.voucherType)
    case VoucherNo => Text(e.voucherNo)
    case VoucherDetailNo => Text(e.voucherDetailNo)
    case AvailableQty => Qty(e.availableQty)
    case VoucherQty => Qty(e.voucherQty)
    case StockUom => Text(e.stockUom)
    case ReservedQty => Qty(e.reservedQty)
    case Company => Text(e.company)
  }

  /** Python truthiness of a field value: an empty string and zero are falsy. */
  predicate Falsy(v: Value)
  {
    match v
    case Text(s) => s == ""
    case Qty(q) => q == 0.0
  }
}
