/** The reservation aggregator: the query of `update_reserved_qty_in_voucher`
    and the value it writes into the voucher line. */
module Aggregator {
  import opened ReservationEntry

  /** A ledger row enters the sum of `k` when it is submitted and matches all
      three voucher key fields. */
  predicate Counts(e: Entry, k: VoucherKey)
  {
    e.docstatus.Submitted? && KeyOf(e) == k
  }

  function Contribution(e: Entry, k: VoucherKey): real
  {
    if Counts(e, k) then e.reservedQty else 0.0
  }

  /** SUM(reserved_qty) over the matching submitted rows; an empty match is 0,
      as `update_reserved_qty_in_voucher` turns the SQL NULL into 0 with `or 0`. */
  function ReservedSum(ledger: seq<Entry>, k: VoucherKey): real
  {
    if ledger == [] then 0.0
    else ReservedSum(ledger[..|ledger| - 1], k) + Contribution(ledger[|ledger| - 1], k)
  }

  /** The sum of a concatenation is the sum of the parts. */
  lemma {:induction false} ReservedSumConcat(a: seq<Entry>, b: seq<Entry>, k: VoucherKey)
    ensures ReservedSum(a + b, k) == ReservedSum(a, k) + ReservedSum(b, k)
  {
    if b == [] {
      assert a + b == a;
    } else {
      var b' := b[..|b| - 1];
      assert (a + b)[..|a + b| - 1] == a + b';
      ReservedSumConcat(a, b', k);
    }
  }

  /** The sum ignores row order: any rearrangement of the ledger has the
      same sum. */
  lemma {:induction false} ReservedSumPerm(a: seq<Entry>, b: seq<Entry>, k: VoucherKey)
    requires multiset(a) == multiset(b)
    ensures ReservedSum(a, k) == ReservedSum(b, k)
    decreases |a|
  {
    if a == [] {
      assert |b| == |multiset(b)| == 0;
    } else {
      var x, a' := a[|a| - 1], a[..|a| - 1];
      assert a == a' + [x];
      assert x in multiset(b);
      var j :| 0 <= j < |b| && b[j] == x;
      var pre, post := b[..j], b[j + 1..];
      assert b == pre + [x] + post;
      var b' := pre + post;
      assert multiset(b') == multiset(b) - multiset{x};
      assert multiset(a') == multiset(a) - multiset{x};
      ReservedSumPerm(a', b', k);
      ReservedSumConcat(pre + [x], post, k);
      ReservedSumConcat(pre, post, k);
      assert (pre + [x])[..|pre + [x]| - 1] == pre;
    }
  }

  /** When no row matches the key (the empty ledger included), the sum is 0. */
  lemma {:induction false} ReservedSumNoMatch(ledger: seq<Entry>, k: VoucherKey)
    requires forall i :: 0 <= i < |ledger| ==> !Counts(ledger[i], k)
    ensures ReservedSum(ledger, k) == 0.0
  {
    if ledger != [] {
      ReservedSumNoMatch(ledger[..|ledger| - 1], k);
    }
  }

  /** Replacing one row changes the sum by exactly that row's change of
      contribution. */
  lemma ReservedSumReplace(ledger: seq<Entry>, i: nat, e: Entry, k: VoucherKey)
    requires i < |ledger|
    ensures ReservedSum(ledger[i := e], k)
      == ReservedSum(ledger, k) - Contribution(ledger[i], k) + Contribution(e, k)
  {
    var pre, post := ledger[..i], ledger[i + 1..];
    assert ledger == pre + [ledger[i]] + post;
    assert ledger[i := e] == pre + [e] + post;
    ReservedSumConcat(pre + [ledger[i]], post, k);
    ReservedSumConcat(pre + [e], post, k);
    assert (pre + [e])[..|pre + [e]| - 1] == pre;
    assert (pre + [ledger[i]])[..|pre + [ledger[i]]| - 1] == pre;
  }

  /** Rows whose docstatus, quantity and key agree contribute alike, so two
      ledgers that agree row by row on these have the same sums. */
  lemma {:induction false} ReservedSumAgree(a: seq<Entry>, b: seq<Entry>, k: VoucherKey)
    requires |a| == |b|
    requires forall i :: 0 <= i < |a| ==>
      a[i].docstatus == b[i].docstatus && a[i].reservedQty == b[i].reservedQty && KeyOf(a[i]) == KeyOf(b[i])
    ensures ReservedSum(a, k) == ReservedSum(b, k)
  {
    if a != [] {
      ReservedSumAgree(a[..|a| - 1], b[..|b| - 1], k);
    }
  }

  /** The query: walks the ledger and accumulates the matching quantities. */
  method QueryReservedQty(ledger: seq<Entry>, k: VoucherKey) returns (total: real)
    ensures total == ReservedSum(ledger, k)
  {
    total := 0.0;
    for i := 0 to |ledger|
      invariant total == ReservedSum(ledger[..i], k)
    {
      assert ledger[..i + 1][..i] == ledger[..i];
      if ledger[i].docstatus.Submitted? && KeyOf(ledger[i]) == k {
        total := total + ledger[i].reservedQty;
      }
    }
    assert ledger[..|ledger|] == ledger;
  }

  /** `frappe.db.set_value` on the voucher-line table: an UPDATE by name,
      which changes nothing when no line has that name. */
  function WriteLine(lines: map<string, real>, name: string, v: real): (r: map<string, real>)
    ensures r.Keys == lines.Keys
    ensures name in lines ==> r[name] == v
    ensures forall n :: n in lines && n != name ==> r[n] == lines[n]
  {
    if name in lines then lines[name := v] else lines
  }
}
