# Stock Reservation Entry — a Dafny model

A Stock Reservation Entry earmarks a quantity of an item in a warehouse for
one line of a voucher (a sales order line). This project models the document
class `StockReservationEntry` of ERPNext:

- **Validation** (`validate`, `validate_mandatory`): the posting-time check,
  the twelve mandatory fields checked in list order with the first falsy one
  reported, then the two warehouse checks.
- **Status engine** (`update_status`): the first-match decision table from
  `(docstatus, reserved_qty, delivered_qty)` to Cancelled, Delivered,
  Partially Delivered, Reserved or Draft, or an explicit non-empty status
  stored as given.
- **Aggregator** (`update_reserved_qty_in_voucher`): the sum of `reserved_qty`
  over the submitted ledger rows that match the record's voucher type,
  voucher number and voucher line, written into `stock_reserved_qty` of the
  "Sales Order Item" row named by the voucher line alone.
- **Lifecycle hooks** (`on_submit`, `on_cancel`): aggregation, then status,
  after the document framework has moved `docstatus` from 0 to 1 or from 1
  to 2.

Files: `entry.dfy` (the record, its fields and Python truthiness),
`validator.dfy`, `status.dfy`, `aggregator.dfy` and `lifecycle.dfy` (the
persisted state as a value `Db`, the transitions as functions over it, the
lemmas about them, and the class `Store` whose methods update the ledger and
the line table in place and are proved equal to those functions).

Modelling choices:

- Quantities are exact `real`s; Frappe's float rounding is not modelled.
- `docstatus` is the datatype `Draft | Submitted | Cancelled` (0, 1, 2), the
  only values the framework allows.
- A text field that is absent and one that is empty are both `""`: Python
  treats both as falsy and the code never tells them apart.
- The third row of the status table tests `delivered_qty` for truthiness,
  i.e. `delivered_qty != 0`, not `delivered_qty > 0`; the model follows the
  code. A negative delivered quantity below the reserved one therefore gives
  Partially Delivered, and an over-delivery gives Reserved (or Draft).
- Writing to a row that does not exist (`frappe.db.set_value` is an UPDATE
  by name) changes nothing: `WriteLine` leaves the line table unchanged
  when the voucher line is not in it.
- The line table is addressed by `voucher_detail_no` alone, while the sum
  filters on all three key fields, and the table is always
  "Sales Order Item" whatever `voucher_type` says. The model keeps this as
  written. The running-sum invariant (`RunKeepsLineSynced`) is therefore
  stated for a line all of whose ledger rows carry the same voucher type
  and number (`LineOwnedBy`); a row with the same line name under another
  voucher overwrites the line with its own key's sum (`OwnershipNeeded`).
- The ledger is a sequence of rows whose names are unique (the table's
  primary key); the submit and cancel transitions address a row by its
  position, and the status write addresses rows by name, as `update_status`
  does.
- `TwoReservationsOneLine` in `lifecycle.dfy` is a client of `Store`: two
  reservations of 10 and 5 against one line give 10, then 15, and after
  cancelling the second, 10 again with the second row Cancelled.

## Model

| member | source | states |
|---|---|---|
| Validator.ValidateMandatory | erpnext/stock/doctype/stock_reservation_entry/stock_reservation_entry.py:27-44 | passes exactly when all twelve listed fields are truthy (non-empty text, non-zero number); otherwise fails with a missing-field error naming the first falsy field in list order; the record is a value and is not changed |
| Validator.Validate | erpnext/stock/doctype/stock_reservation_entry/stock_reservation_entry.py:11-17 | passes exactly when posting time, mandatory fields, warehouse-enabled and warehouse-company checks all pass; each failure is reported only when every earlier check passed, in that order |
| Validator.MissingFieldIsReported | erpnext/stock/doctype/stock_reservation_entry/stock_reservation_entry.py:42-44 | any falsy mandatory field makes the check fail, and some earliest falsy field exists to be reported |
| StatusEngine.DecideStatus | erpnext/stock/doctype/stock_reservation_entry/stock_reservation_entry.py:47-57 | the first-match table equals five mutually exclusive conditions: Cancelled iff docstatus 2; Delivered iff not cancelled and reserved == delivered; Partially Delivered iff not cancelled, delivered != 0 and reserved > delivered; Reserved iff docstatus 1 and none of those; Draft iff docstatus 0 and none of those |
| StatusEngine.ResolveStatus | erpnext/stock/doctype/stock_reservation_entry/stock_reservation_entry.py:46-59 | an explicit non-empty status is the value written, verbatim; with none or an empty one the table's status label is written |
| StatusEngine.SubmittedStatus | erpnext/stock/doctype/stock_reservation_entry/stock_reservation_entry.py:48-55 | a submitted record resolves to Reserved, Partially Delivered or Delivered, never Draft or Cancelled |
| StatusEngine.ZeroIsDelivered | erpnext/stock/doctype/stock_reservation_entry/stock_reservation_entry.py:50-51 | reserved 0 and delivered 0 gives Delivered for a draft or submitted record |
| StatusEngine.OverDeliveryFallsThrough | erpnext/stock/doctype/stock_reservation_entry/stock_reservation_entry.py:50-57 | delivered above reserved skips Delivered and Partially Delivered and yields Reserved when submitted, Draft when a draft |
| StatusEngine.ScenarioStatuses | erpnext/stock/doctype/stock_reservation_entry/stock_reservation_entry.py:48-55 | reserving 10: nothing delivered is Reserved, 4 delivered is Partially Delivered, 10 delivered is Delivered, cancelled is Cancelled |
| Aggregator.QueryReservedQty | erpnext/stock/doctype/stock_reservation_entry/stock_reservation_entry.py:65-74 | the loop over the ledger returns the sum of reserved_qty over rows with docstatus 1 matching all three voucher key fields |
| Aggregator.ReservedSumNoMatch | erpnext/stock/doctype/stock_reservation_entry/stock_reservation_entry.py:74 | with no matching submitted row (an empty ledger included) the total is 0 |
| Aggregator.ReservedSumConcat | erpnext/stock/doctype/stock_reservation_entry/stock_reservation_entry.py:65-73 | the total over two parts of the ledger is the sum of their totals |
| Aggregator.ReservedSumPerm | erpnext/stock/doctype/stock_reservation_entry/stock_reservation_entry.py:65-73 | any rearrangement of the ledger (same multiset of rows) has the same total, so row order does not matter |
| Aggregator.ReservedSumReplace | erpnext/stock/doctype/stock_reservation_entry/stock_reservation_entry.py:65-73 | changing one row changes the total by exactly that row's change of contribution |
| Aggregator.ReservedSumAgree | erpnext/stock/doctype/stock_reservation_entry/stock_reservation_entry.py:67-73 | the total depends only on each row's docstatus, reserved_qty and voucher key |
| Aggregator.WriteLine | erpnext/stock/doctype/stock_reservation_entry/stock_reservation_entry.py:76-82 | the write sets only the line named by voucher_detail_no, and only if it exists; every other line keeps its value and no line is added |
| Lifecycle.SetStatusWhere | erpnext/stock/doctype/stock_reservation_entry/stock_reservation_entry.py:59 | the status write replaces the status of the rows with the record's name and changes nothing else |
| Lifecycle.StatusWriteKeepsSums | erpnext/stock/doctype/stock_reservation_entry/stock_reservation_entry.py:59 | writing a status changes no voucher total |
| Lifecycle.AggregateIdempotent | erpnext/stock/doctype/stock_reservation_entry/stock_reservation_entry.py:61-82 | running the aggregation twice with nothing in between gives the same state as running it once |
| Lifecycle.RunHooksEffect | erpnext/stock/doctype/stock_reservation_entry/stock_reservation_entry.py:19-25 | the hooks write the ledger total into the record's line, then the decided status into the record's row, touch no other row or line, and change no total |
| Lifecycle.SubmitEffect | erpnext/stock/doctype/stock_reservation_entry/stock_reservation_entry.py:19-21 | after submit the row is submitted and counts toward its key, its status is Reserved, Partially Delivered or Delivered per the table, every total rises by its reserved_qty exactly when the key matches, its line holds the new total, and other rows and lines are unchanged |
| Lifecycle.CancelEffect | erpnext/stock/doctype/stock_reservation_entry/stock_reservation_entry.py:23-25 | after cancel the row is cancelled with status Cancelled and counts toward no key, its key's total falls by its reserved_qty, its line holds the total over the rows still submitted, and other rows and lines are unchanged |
| Lifecycle.CancelledIsFinal | erpnext/stock/doctype/stock_reservation_entry/stock_reservation_entry.py:19-25 | a cancelled row is neither submitted nor cancelled again: both transitions leave the state as it was |
| Lifecycle.StepKeepsRows | erpnext/stock/doctype/stock_reservation_entry/stock_reservation_entry.py:19-25 | a submit or cancel keeps every row's name, voucher key and reserved_qty, so names stay unique |
| Lifecycle.StepKeepsLineSynced | erpnext/stock/doctype/stock_reservation_entry/stock_reservation_entry.py:19-25 | one submit or cancel keeps a line that is owned by one key equal to the total of that key |
| Lifecycle.OwnershipNeeded | erpnext/stock/doctype/stock_reservation_entry/stock_reservation_entry.py:69-78 | a row of another voucher naming the same line makes submit write that voucher's sum into the line, leaving it out of sync with the first voucher's total: the ownership hypothesis of the running-sum invariant is needed |
| Lifecycle.RunKeepsLineSynced | erpnext/stock/doctype/stock_reservation_entry/stock_reservation_entry.py:19-25 | over any sequence of submits and cancels, such a line keeps equal to the sum of reserved_qty over the rows still submitted |
| Lifecycle.Store.UpdateStatus | erpnext/stock/doctype/stock_reservation_entry/stock_reservation_entry.py:46-59 | stores the resolved status on the rows named like the record; the line table is unchanged |
| Lifecycle.Store.UpdateReservedQtyInVoucher | erpnext/stock/doctype/stock_reservation_entry/stock_reservation_entry.py:61-82 | writes the ledger total of the record's key into its line; the ledger is unchanged |
| Lifecycle.Store.OnSubmit | erpnext/stock/doctype/stock_reservation_entry/stock_reservation_entry.py:19-21 | aggregation, then status, with the state afterwards that of RunHooks |
| Lifecycle.Store.OnCancel | erpnext/stock/doctype/stock_reservation_entry/stock_reservation_entry.py:23-25 | aggregation, then status, with the state afterwards that of RunHooks |
| Lifecycle.Store.Submit | erpnext/stock/doctype/stock_reservation_entry/stock_reservation_entry.py:19-21 | succeeds exactly for a draft row, sets docstatus 1 and runs the submit hook; the new state is SubmitDb of the old one |
| Lifecycle.Store.Cancel | erpnext/stock/doctype/stock_reservation_entry/stock_reservation_entry.py:23-25 | succeeds exactly for a submitted row, sets docstatus 2 and runs the cancel hook; the new state is CancelDb of the old one |

## Left out

- Posting-time, disabled-warehouse and warehouse-company checks: they live in other modules of the system, so `Validate` takes their verdicts as predicate parameters.
- The error message text: the label lookup and the translation of "{0} is required" are replaced by the field itself in `MissingField`.
- The `update_modified` flag and the modification timestamp it bumps: timestamps are not modelled.
- The query builder and the database: the ledger is a sequence and the line table a map, updated in memory.
- Concurrency, locking and transactions around the read-sum-then-write: the model is sequential, one transition at a time.
- Float rounding of quantity fields: quantities are exact reals.
- The framework's save path before `on_submit` (running `validate`, naming, permission checks) and the external process that changes `delivered_qty`: `Submit` and `Cancel` only flip `docstatus` and run the hooks.
- An explicit status is only reachable through `Store.UpdateStatus`; the hooks always pass none, as `on_submit` and `on_cancel` do.
- A `posting_time` stored as a zero time-of-day value (falsy in Python when it arrives as a zero duration) is not distinguished from a non-empty time string: times are text.
