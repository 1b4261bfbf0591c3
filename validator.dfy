/** The reservation record validator: `validate` and `validate_mandatory`. */
module Validator {
  import opened ReservationEntry

  datatype ValidationError =
    | InvalidPostingTime
    | MissingField(field: Field)
    | DisabledWarehouse
    | WarehouseCompanyMismatch

  datatype Outcome = Pass | Fail(error: ValidationError)

  /** The mandatory fields, in the order they are checked. */
  const MandatoryFields: seq<Field> := [
    ItemCode, Warehouse, PostingDate, PostingTime,
    VoucherType, VoucherNo, VoucherDetailNo,
    AvailableQty, VoucherQty, StockUom, ReservedQty, Company
  ]

  /** Every mandatory field holds a truthy value. */
  predicate AllPresent(e: Entry)
  {
    forall i :: 0 <= i < |MandatoryFields| ==> !Falsy(Get(e, MandatoryFields[i]))
  }

  /** `f` is the first mandatory field, in list order, whose value is falsy. */
  predicate IsFirstMissing(e: Entry, f: Field)
  {
    exists i :: 0 <= i < |MandatoryFields| && MandatoryFields[i] == f
      && Falsy(Get(e, f))
      && forall j :: 0 <= j < i ==> !Falsy(Get(e, MandatoryFields[j]))
  }

  /** Walks the mandatory list and stops at the first falsy field. The record
      is a value: the check changes nothing. */
  method ValidateMandatory(e: Entry) returns (r: Outcome)
    ensures r.Pass? <==> AllPresent(e)
    ensures r.Fail? ==> r.error.MissingField? && IsFirstMissing(e, r.error.field)
  {
    for i := 0 to |MandatoryFields|
      invariant forall j :: 0 <= j < i ==> !Falsy(Get(e, MandatoryFields[j]))
    {
      var f := MandatoryFields[i];
      if Falsy(Get(e, f)) {
        return Fail(MissingField(f));
      }
    }
    return Pass;
  }

  /** `validate`: posting time, mandatory fields, disabled warehouse, then
      warehouse company, each stopping the save on failure. The three checks
      owned by other modules of the system are passed in as predicates. */
  method Validate(e: Entry,
                  postingTimeValid: (string, string) -> bool,
                  warehouseDisabled: string -> bool,
                  warehouseInCompany: (string, string) -> bool)
    returns (r: Outcome)
    ensures r.Pass? <==>
      (postingTimeValid(e.postingDate, e.postingTime) && AllPresent(e)
       && !warehouseDisabled(e.warehouse) && warehouseInCompany(e.warehouse, e.company))
    ensures !postingTimeValid(e.postingDate, e.postingTime) ==> r == Fail(InvalidPostingTime)
    ensures postingTimeValid(e.postingDate, e.postingTime) && !AllPresent(e) ==>
      r.Fail? && r.error.MissingField? && IsFirstMissing(e, r.error.field)
    ensures (postingTimeValid(e.postingDate, e.postingTime) && AllPresent(e)
             && warehouseDisabled(e.warehouse)) ==> r == Fail(DisabledWarehouse)
    ensures (postingTimeValid(e.postingDate, e.postingTime) && AllPresent(e)
             && !warehouseDisabled(e.warehouse) && !warehouseInCompany(e.warehouse, e.company))
            ==> r == Fail(WarehouseCompanyMismatch)
  {
    if !postingTimeValid(e.postingDate, e.postingTime) {
      return Fail(InvalidPostingTime);
    }
    r := ValidateMandatory(e);
    if r.Fail? {
      return;
    }
    if warehouseDisabled(e.warehouse) {
      return Fail(DisabledWarehouse);
    }
    if !warehouseInCompany(e.warehouse, e.company) {
      return Fail(WarehouseCompanyMismatch);
    }
    return Pass;
  }

  /** A field holding zero or the empty string makes the check fail, and the
      failure names the earliest such field. */
  lemma {:induction false} MissingFieldIsReported(e: Entry, i: nat)
    requires i < |MandatoryFields| && Falsy(Get(e, MandatoryFields[i]))
    ensures !AllPresent(e)
    ensures exists f :: IsFirstMissing(e, f)
  {
    if exists j :: 0 <= j < i && Falsy(Get(e, MandatoryFields[j])) {
      var j :| 0 <= j < i && Falsy(Get(e, MandatoryFields[j]));
      MissingFieldIsReported(e, j);
    } else {
      assert IsFirstMissing(e, MandatoryFields[i]);
    }
  }
}
