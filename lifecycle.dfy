/** The submit and cancel transitions of a reservation and the hooks that run
    on them (`on_submit`, `on_cancel`), over an in-memory store holding the
    reservation ledger and the `stock_reserved_qty` column of the
    "Sales Order Item" table. */
module Lifecycle {
  import opened ReservationEntry
  import opened StatusEngine
  import opened Aggregator

  /** The persisted state: every reservation row, and the mirrored total of
      each sales order line by its name. */
  datatype Db = Db(ledger: seq<Entry>, lines: map<string, real>)

  /** Row names are the table's primary key. */
  ghost predicate UniqueNames(ledger: seq<Entry>)
  {
    forall i, j :: 0 <= i < j < |ledger| ==> ledger[i].name != ledger[j].name
  }

  /** `frappe.db.set_value` on the reservation table: the status of every
      row with the given name is replaced, nothing else changes. */
  function SetStatusWhere(ledger: seq<Entry>, name: string, s: string): (r: seq<Entry>)
    ensures |r| == |ledger|
    ensures forall i :: 0 <= i < |ledger| ==>
      r[i] == if ledger[i].name == name then ledger[i].(status := s) else ledger[i]
  {
    seq(|ledger|, i requires 0 <= i < |ledger| =>
      if ledger[i].name == name then ledger[i].(status := s) else ledger[i])
  }

  /** The state after `update_reserved_qty_in_voucher` for the document `doc`. */
  function AggregateDb(db: Db, doc: Entry): Db
  {
    Db(db.ledger, WriteLine(db.lines, doc.voucherDetailNo, ReservedSum(db.ledger, KeyOf(doc))))
  }

  /** The state after `update_status(explicit)` for the document `doc`. */
  function StatusDb(db: Db, doc: Entry, explicit: Option<string>): Db
  {
    Db(SetStatusWhere(db.ledger, doc.name, ResolveStatus(doc, explicit)), db.lines)
  }

  /** The body shared by `on_submit` and `on_cancel`: aggregation, then status. */
  function RunHooks(db: Db, doc: Entry): Db
  {
    StatusDb(AggregateDb(db, doc), doc, None)
  }

  /** The framework's submit of row `i`: a draft becomes submitted (the row
      is saved first) and then `on_submit` runs. Any other row is refused
      and the state is left as it was. */
  function SubmitDb(db: Db, i: nat): Db
  {
    if i < |db.ledger| && db.ledger[i].docstatus.Draft? then
      var doc := db.ledger[i].(docstatus := Submitted);
      RunHooks(Db(db.ledger[i := doc], db.lines), doc)
    else db
  }

  /** The framework's cancel of row `i`: a submitted row becomes cancelled and
      then `on_cancel` runs. Any other row is refused. */
  function CancelDb(db: Db, i: nat): Db
  {
    if i < |db.ledger| && db.ledger[i].docstatus.Submitted? then
      var doc := db.ledger[i].(docstatus := DocStatus.Cancelled);
      RunHooks(Db(db.ledger[i := doc], db.lines), doc)
    else db
  }

  datatype Op = Submit(row: nat) | Cancel(row: nat)

  function Step(db: Db, op: Op): Db
  {
    match op
    case Submit(i) => SubmitDb(db, i)
    case Cancel(i) => CancelDb(db, i)
  }

  function Run(db: Db, ops: seq<Op>): Db
    decreases |ops|
  {
    if ops == [] then db else Run(Step(db, ops[0]), ops[1..])
  }

  /** The line `k` names holds the sum over the submitted rows matching `k`
      (or the line does not exist, and there is nothing to hold). */
  predicate LineSynced(db: Db, k: VoucherKey)
  {
    k.voucherDetailNo in db.lines ==> db.lines[k.voucherDetailNo] == ReservedSum(db.ledger, k)
  }

  /** Every row that refers to the line of `k` does so with the whole key `k`.
      The line table is addressed by line name alone, so only then is one
      sum kept per line. */
  predicate LineOwnedBy(ledger: seq<Entry>, k: VoucherKey)
  {
    forall j :: 0 <= j < |ledger| && ledger[j].voucherDetailNo == k.voucherDetailNo ==> KeyOf(ledger[j]) == k
  }

  /** Writing a status leaves every row's docstatus, quantity and key alone. */
  lemma StatusWriteKeepsSums(ledger: seq<Entry>, name: string, s: string, k: VoucherKey)
    ensures ReservedSum(SetStatusWhere(ledger, name, s), k) == ReservedSum(ledger, k)
  {
    ReservedSumAgree(SetStatusWhere(ledger, name, s), ledger, k);
  }

  /** Aggregating twice in a row writes the same value as aggregating once. */
  lemma AggregateIdempotent(db: Db, doc: Entry)
    ensures AggregateDb(AggregateDb(db, doc), doc) == AggregateDb(db, doc)
  {
  }

  /** The hooks move row `i` (already holding `doc`) to its new status,
      write the line of `doc` with the sum over the ledger, touch no other
      line and no other row, and leave every sum unchanged from the ledger
      they start on. */
  lemma RunHooksEffect(db: Db, i: nat, doc: Entry, k: VoucherKey)
    requires UniqueNames(db.ledger) && i < |db.ledger| && db.ledger[i] == doc
    ensures |RunHooks(db, doc).ledger| == |db.ledger|
    ensures RunHooks(db, doc).ledger[i] ==
      doc.(status := Label(DecideStatus(doc.docstatus, doc.reservedQty, doc.deliveredQty)))
    ensures forall j :: 0 <= j < |db.ledger| && j != i ==> RunHooks(db, doc).ledger[j] == db.ledger[j]
    ensures RunHooks(db, doc).lines ==
      WriteLine(db.lines, doc.voucherDetailNo, ReservedSum(db.ledger, KeyOf(doc)))
    ensures ReservedSum(RunHooks(db, doc).ledger, k) == ReservedSum(db.ledger, k)
    ensures LineSynced(RunHooks(db, doc), KeyOf(doc))
  {
    var s := Label(DecideStatus(doc.docstatus, doc.reservedQty, doc.deliveredQty));
    StatusWriteKeepsSums(db.ledger, doc.name, s, k);
    StatusWriteKeepsSums(db.ledger, doc.name, s, KeyOf(doc));
  }

  /** After submit the row is submitted with a Reserved, Partially Delivered
      or Delivered status, it enters the sum of its key, its line holds that
      sum, and no other row or line changes. */
  lemma {:induction false} SubmitEffect(db: Db, i: nat, k: VoucherKey)
    requires UniqueNames(db.ledger) && i < |db.ledger| && db.ledger[i].docstatus.Draft?
    ensures var e, after := db.ledger[i], SubmitDb(db, i);
      && |after.ledger| == |db.ledger|
      && after.ledger[i].docstatus.Submitted? && Counts(after.ledger[i], KeyOf(e))
      && after.ledger[i].status == Label(DecideStatus(Submitted, e.reservedQty, e.deliveredQty))
      && after.ledger[i].status in {"Reserved", "Partially Delivered", "Delivered"}
      && (forall j :: 0 <= j < |db.ledger| && j != i ==> after.ledger[j] == db.ledger[j])
      && ReservedSum(after.ledger, k)
         == ReservedSum(db.ledger, k) + (if KeyOf(e) == k then e.reservedQty else 0.0)
      && LineSynced(after, KeyOf(e))
      && after.lines.Keys == db.lines.Keys
      && (forall n :: n in db.lines && n != e.voucherDetailNo ==> after.lines[n] == db.lines[n])
  {
    var e := db.ledger[i];
    var doc := e.(docstatus := Submitted);
    var mid := Db(db.ledger[i := doc], db.lines);
    assert UniqueNames(mid.ledger) by {
      forall a, b | 0 <= a < b < |mid.ledger| ensures mid.ledger[a].name != mid.ledger[b].name {
        assert mid.ledger[a].name == db.ledger[a].name && mid.ledger[b].name == db.ledger[b].name;
      }
    }
    RunHooksEffect(mid, i, doc, k);
    ReservedSumReplace(db.ledger, i, doc, k);
    SubmittedStatus(e.reservedQty, e.deliveredQty);
  }

  /** After cancel the row is cancelled with status Cancelled, it leaves the
      sum of its key, its line holds the sum over the rows still submitted,
      and no other row or line changes. */
  lemma {:induction false} CancelEffect(db: Db, i: nat, k: VoucherKey)
    requires UniqueNames(db.ledger) && i < |db.ledger| && db.ledger[i].docstatus.Submitted?
    ensures var e, after := db.ledger[i], CancelDb(db, i);
      && |after.ledger| == |db.ledger|
      && after.ledger[i].docstatus.Cancelled? && !Counts(after.ledger[i], k)
      && after.ledger[i].status == "Cancelled"
      && (forall j :: 0 <= j < |db.ledger| && j != i ==> after.ledger[j] == db.ledger[j])
      && ReservedSum(after.ledger, k)
         == ReservedSum(db.ledger, k) - (if KeyOf(e) == k then e.reservedQty else 0.0)
      && LineSynced(after, KeyOf(e))
      && after.lines.Keys == db.lines.Keys
      && (forall n :: n in db.lines && n != e.voucherDetailNo ==> after.lines[n] == db.lines[n])
  {
    var e := db.ledger[i];
    var doc := e.(docstatus := DocStatus.Cancelled);
    var mid := Db(db.ledger[i := doc], db.lines);
    assert UniqueNames(mid.ledger) by {
      forall a, b | 0 <= a < b < |mid.ledger| ensures mid.ledger[a].name != mid.ledger[b].name {
        assert mid.ledger[a].name == db.ledger[a].name && mid.ledger[b].name == db.ledger[b].name;
      }
    }
    RunHooksEffect(mid, i, doc, k);
    ReservedSumReplace(db.ledger, i, doc, k);
  }

  /** A cancelled row is final: submitting or cancelling it again changes nothing. */
  lemma CancelledIsFinal(db: Db, i: nat)
    requires i < |db.ledger| && db.ledger[i].docstatus.Cancelled?
    ensures SubmitDb(db, i) == db && CancelDb(db, i) == db
  {
  }

  /** A transition keeps row names, keys and quantities, so the owner of a
      line stays its owner and names stay unique. */
  lemma StepKeepsRows(db: Db, op: Op)
    requires UniqueNames(db.ledger)
    ensures |Step(db, op).ledger| == |db.ledger|
    ensures forall j :: 0 <= j < |db.ledger| ==>
      Step(db, op).ledger[j].name == db.ledger[j].name
      && KeyOf(Step(db, op).ledger[j]) == KeyOf(db.ledger[j])
      && Step(db, op).ledger[j].reservedQty == db.ledger[j].reservedQty
    ensures UniqueNames(Step(db, op).ledger)
  {
  }

  /** One transition keeps the line of `k` in sync: either it rewrites that
      line from the ledger, or it touches neither the line nor the sum. */
  lemma StepKeepsLineSynced(db: Db, op: Op, k: VoucherKey)
    requires UniqueNames(db.ledger) && LineOwnedBy(db.ledger, k) && LineSynced(db, k)
    ensures LineOwnedBy(Step(db, op).ledger, k) && LineSynced(Step(db, op), k)
  {
    StepKeepsRows(db, op);
    var i := op.row;
    var valid := match op
      case Submit(_) => i < |db.ledger| && db.ledger[i].docstatus.Draft?
      case Cancel(_) => i < |db.ledger| && db.ledger[i].docstatus.Submitted?;
    if valid {
      var e := db.ledger[i];
      if op.Submit? { SubmitEffect(db, i, k); } else { CancelEffect(db, i, k); }
      if e.voucherDetailNo == k.voucherDetailNo {
        assert KeyOf(e) == k;
      } else {
        assert KeyOf(e) != k;
      }
    }
  }

  /** The running-sum invariant: over any sequence of submits and cancels, a
      line owned by one voucher key that starts in sync stays in sync, i.e.
      its total is the sum of `reserved_qty` over the rows still submitted. */
  lemma {:induction false} RunKeepsLineSynced(db: Db, ops: seq<Op>, k: VoucherKey)
    requires UniqueNames(db.ledger) && LineOwnedBy(db.ledger, k) && LineSynced(db, k)
    ensures LineOwnedBy(Run(db, ops).ledger, k) && LineSynced(Run(db, ops), k)
    ensures UniqueNames(Run(db, ops).ledger)
    decreases |ops|
  {
    if ops != [] {
      StepKeepsLineSynced(db, ops[0], k);
      StepKeepsRows(db, ops[0]);
      RunKeepsLineSynced(Step(db, ops[0]), ops[1..], k);
    }
  }

  /** Without `LineOwnedBy` the line can fall out of sync: a submitted row of
      10 for SO-1 and a draft of 5 for another voucher that names the same line
      SOI-1. Submitting the draft writes its own key's sum, 5, into SOI-1,
      while the sum for SO-1 is still 10. */
  lemma OwnershipNeeded()
    ensures var k := VoucherKey("Sales Order", "SO-1", "SOI-1");
      var db := Db([DraftFor("SRE-1", 10.0).(docstatus := Submitted),
                    DraftFor("SRE-2", 5.0).(voucherType := "Pick List", voucherNo := "PL-1")],
                   map["SOI-1" := 10.0]);
      && LineSynced(db, k) && !LineOwnedBy(db.ledger, k)
      && SubmitDb(db, 1).lines["SOI-1"] == 5.0
      && ReservedSum(SubmitDb(db, 1).ledger, k) == 10.0
      && !LineSynced(SubmitDb(db, 1), k)
  {
    var k := VoucherKey("Sales Order", "SO-1", "SOI-1");
    var a := DraftFor("SRE-1", 10.0).(docstatus := Submitted);
    var b := DraftFor("SRE-2", 5.0).(voucherType := "Pick List", voucherNo := "PL-1");
    var db := Db([a, b], map["SOI-1" := 10.0]);
    assert [a, b][..1] == [a] && [a][..0] == [];
    assert KeyOf(b) != k by { assert b.voucherType[0] == 'P' && k.voucherType[0] == 'S'; }
    assert ReservedSum([a], k) == ReservedSum([], k) + Contribution(a, k) == 10.0;
    assert ReservedSum(db.ledger, k) == ReservedSum([a], k) + Contribution(b, k) == 10.0;
    assert ReservedSum([a], KeyOf(b)) == ReservedSum([], KeyOf(b)) + Contribution(a, KeyOf(b)) == 0.0;
    assert ReservedSum(db.ledger, KeyOf(b)) == ReservedSum([a], KeyOf(b)) + Contribution(b, KeyOf(b)) == 0.0;
    assert KeyOf(db.ledger[1]) != k;
    SubmitEffect(db, 1, k);
    SubmitEffect(db, 1, KeyOf(b));
  }

  /** The store: the reservation ledger and the sales order lines' mirrored
      `stock_reserved_qty`, updated in place by the hooks. */
  class Store {
    var ledger: seq<Entry>
    var soItemReserved: map<string, real>

    ghost predicate Valid()
      reads this
    {
      UniqueNames(ledger)
    }

    function State(): Db
      reads this
    {
      Db(ledger, soItemReserved)
    }

    constructor (ledger0: seq<Entry>, lines0: map<string, real>)
      requires UniqueNames(ledger0)
      ensures Valid() && ledger == ledger0 && soItemReserved == lines0
    {
      ledger := ledger0;
      soItemReserved := lines0;
    }

    /** `update_status`: decide the status (or take the explicit one) and
        write it to the rows named like `doc`. */
    method UpdateStatus(doc: Entry, explicit: Option<string>)
      requires Valid()
      modifies this
      ensures Valid()
      ensures State() == StatusDb(old(State()), doc, explicit)
    {
      ledger := SetStatusWhere(ledger, doc.name, ResolveStatus(doc, explicit));
    }

    /** `update_reserved_qty_in_voucher`: sum the matching submitted rows and
        write the total into the sales order line named by `doc`. */
    method UpdateReservedQtyInVoucher(doc: Entry)
      requires Valid()
      modifies this
      ensures Valid()
      ensures State() == AggregateDb(old(State()), doc)
    {
      var total := QueryReservedQty(ledger, KeyOf(doc));
      soItemReserved := WriteLine(soItemReserved, doc.voucherDetailNo, total);
    }

    method OnSubmit(doc: Entry)
      requires Valid()
      modifies this
      ensures Valid()
      ensures State() == RunHooks(old(State()), doc)
    {
      UpdateReservedQtyInVoucher(doc);
      UpdateStatus(doc, None);
    }

    method OnCancel(doc: Entry)
      requires Valid()
      modifies this
      ensures Valid()
      ensures State() == RunHooks(old(State()), doc)
    {
      UpdateReservedQtyInVoucher(doc);
      UpdateStatus(doc, None);
    }

    /** The framework's submit of row `i`, followed by `on_submit`. */
    method Submit(i: nat) returns (ok: bool)
      requires Valid()
      modifies this
      ensures Valid()
      ensures ok == (i < |old(ledger)| && old(ledger)[i].docstatus.Draft?)
      ensures State() == SubmitDb(old(State()), i)
    {
      ok := i < |ledger| && ledger[i].docstatus.Draft?;
      if ok {
        var doc := ledger[i].(docstatus := Submitted);
        ledger := ledger[i := doc];
        assert forall j :: 0 <= j < |ledger| ==> ledger[j].name == old(ledger)[j].name;
        OnSubmit(doc);
      }
    }

    /** The framework's cancel of row `i`, followed by `on_cancel`. */
    method Cancel(i: nat) returns (ok: bool)
      requires Valid()
      modifies this
      ensures Valid()
      ensures ok == (i < |old(ledger)| && old(ledger)[i].docstatus.Submitted?)
      ensures State() == CancelDb(old(State()), i)
    {
      ok := i < |ledger| && ledger[i].docstatus.Submitted?;
      if ok {
        var doc := ledger[i].(docstatus := DocStatus.Cancelled);
        ledger := ledger[i := doc];
        assert forall j :: 0 <= j < |ledger| ==> ledger[j].name == old(ledger)[j].name;
        OnCancel(doc);
      }
    }
  }

  /** A draft reservation of `qty` against sales order line SOI-1 of SO-1. */
  function DraftFor(name: string, qty: real): Entry
  {
    Entry(name, "ITEM-1", "Stores", "2023-05-01", "10:00:00",
          "Sales Order", "SO-1", "SOI-1", 100.0, 20.0, "Nos", qty, 0.0, "ACME",
          DocStatus.Draft, "Draft")
  }

  /** Two reservations against one line: submitting 10 and then 5 brings the
      line to 10 and then 15, and cancelling the second brings it back to 10. */
  method TwoReservationsOneLine()
  {
    var k := VoucherKey("Sales Order", "SO-1", "SOI-1");
    var r1, r2 := DraftFor("SRE-1", 10.0), DraftFor("SRE-2", 5.0);
    var store := new Store([r1, r2], map["SOI-1" := 0.0]);
    ReservedSumNoMatch(store.ledger, k);

    var db := store.State();
    var ok := store.Submit(0);
    SubmitEffect(db, 0, k);
    assert ok && store.soItemReserved["SOI-1"] == 10.0;
    assert store.ledger[0].status == "Reserved";

    db := store.State();
    ok := store.Submit(1);
    SubmitEffect(db, 1, k);
    assert ok && store.soItemReserved["SOI-1"] == 15.0;

    db := store.State();
    ok := store.Cancel(1);
    CancelEffect(db, 1, k);
    assert ok && store.soItemReserved["SOI-1"] == 10.0;
    assert store.ledger[1].status == "Cancelled";

    db := store.State();
    ok := store.Submit(1);
    assert !ok && store.State() == db;
  }
}
