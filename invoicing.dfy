/** Invoices: the daily order number (`Invoice.generate_order_number`) and
    the per-invoice status update (`_update_invoice_status`). */
module Invoicing {
  import opened Wrappers
  import opened Decimal
  import opened Ledger
  import opened Inventory

  /** A calendar day, as a day number. */
  type Date = nat

  datatype Invoice = Invoice(
    id: InvoiceId,
    orderNumber: string,
    date: Date,
    customerId: Option<CustomerId>,
    customerName: Option<string>,
    totalAmount: int,
    totalItems: int,
    items: seq<LineItem>,
    status: PaymentStatus)

  /** Invoices listed in primary-key order. */
  predicate IdsIncreasing(invs: seq<Invoice>) {
    forall i, j :: 0 <= i < j < |invs| ==> invs[i].id < invs[j].id
  }

  // ---------------------------------------------------------------------
  // The daily order number.

  /** The invoice dated `day` with the highest id (`order_by(id.desc()).first()`):
      in a list in primary-key order, the last one dated `day`. */
  function LatestOn(invs: seq<Invoice>, day: Date): Option<Invoice> {
    if invs == [] then None
    else if invs[|invs| - 1].date == day then Some(invs[|invs| - 1])
    else LatestOn(invs[..|invs| - 1], day)
  }

  /** `generate_order_number`: "001" when nothing is dated today, otherwise
      the latest invoice's number read as an integer, plus one, zero-filled to
      three characters.  `None` when that number is not a string of digits
      (`int()` would raise). */
  function NextOrderNumber(invs: seq<Invoice>, today: Date): Option<string> {
    match LatestOn(invs, today)
    case None => Some("001")
    case Some(latest) =>
      match Parse(latest.orderNumber)
      case None => None
      case Some(n) => Some(ZFill(Show(n + 1), 3))
  }

  /** `str(k).zfill(3)`. */
  function Padded(k: nat): string {
    ZFill(Show(k), 3)
  }

  /** The order numbers of the invoices dated `day`, in id order. */
  function OrderNumbersOn(invs: seq<Invoice>, day: Date): seq<string> {
    if invs == [] then []
    else
      var last := invs[|invs| - 1];
      OrderNumbersOn(invs[..|invs| - 1], day) + (if last.date == day then [last.orderNumber] else [])
  }

  /** "001", "002", ..., `Padded(k)`. */
  function Run(k: nat): (r: seq<string>)
    ensures |r| == k
  {
    if k == 0 then [] else Run(k - 1) + [Padded(k)]
  }

  /** The latest invoice of a day is one of the list, dated that day, with
      the highest id of all invoices dated that day; there is none exactly
      when nothing is dated that day. */
  lemma {:induction false} LatestOnIsHighestId(invs: seq<Invoice>, day: Date)
    requires IdsIncreasing(invs)
    ensures LatestOn(invs, day).None? <==> forall i :: 0 <= i < |invs| ==> invs[i].date != day
    ensures LatestOn(invs, day).Some? ==>
      var latest := LatestOn(invs, day).value;
      && latest in invs && latest.date == day
      && forall i :: 0 <= i < |invs| && invs[i].date == day ==> invs[i].id <= latest.id
  {
    if invs != [] {
      var init := invs[..|invs| - 1];
      assert IdsIncreasing(init);
      LatestOnIsHighestId(init, day);
      if invs[|invs| - 1].date != day {
        assert forall i :: 0 <= i < |init| ==> init[i] == invs[i];
      }
    }
  }

  /** The first invoice of the day is numbered "001". */
  lemma FirstOfTheDay(invs: seq<Invoice>, today: Date)
    requires IdsIncreasing(invs)
    requires forall i :: 0 <= i < |invs| ==> invs[i].date != today
    ensures NextOrderNumber(invs, today) == Some("001") == Some(Padded(1))
  {
    LatestOnIsHighestId(invs, today);
    PaddedBelowTen(1);
  }

  /** `Padded(k)` for a one-digit `k` is "00" followed by that digit. */
  lemma PaddedBelowTen(k: nat)
    requires k < 10
    ensures Padded(k) == ['0', '0', DigitChar(k)]
  {
    assert Zeros(1) == Zeros(0) + ['0'];
    assert Zeros(2) == Zeros(1) + ['0'];
  }

  /** Otherwise the number is the latest one plus one, zero-filled to at
      least three characters and never cut: reading it back gives that
      successor. */
  lemma NextFollowsLatest(invs: seq<Invoice>, today: Date, n: nat)
    requires LatestOn(invs, today).Some?
    requires Parse(LatestOn(invs, today).value.orderNumber) == Some(n)
    ensures NextOrderNumber(invs, today).Some?
    ensures var r := NextOrderNumber(invs, today).value;
      && Parse(r) == Some(n + 1)
      && |r| == (if |Show(n + 1)| < 3 then 3 else |Show(n + 1)|)
      && r[|r| - |Show(n + 1)|..] == Show(n + 1)
  {
    ParseZFillShow(n + 1, 3);
    ZFillShape(Show(n + 1), 3);
  }

  /** The latest invoice of a day holds the last of that day's order numbers. */
  lemma {:induction false} LatestHoldsLastNumber(invs: seq<Invoice>, day: Date)
    ensures LatestOn(invs, day).None? <==> OrderNumbersOn(invs, day) == []
    ensures LatestOn(invs, day).Some? ==>
      OrderNumbersOn(invs, day)[|OrderNumbersOn(invs, day)| - 1] == LatestOn(invs, day).value.orderNumber
  {
    if invs != [] {
      LatestHoldsLastNumber(invs[..|invs| - 1], day);
    }
  }

  /** Invoices created one after another for today, with nothing deleted or
      re-dated, are numbered "001", "002", ...: if today's numbers so far are
      the first `k` of that run, the next invoice dated today extends it. */
  lemma DailyRunContinues(invs: seq<Invoice>, today: Date, k: nat, next: Invoice)
    requires OrderNumbersOn(invs, today) == Run(k)
    requires next.date == today && Some(next.orderNumber) == NextOrderNumber(invs, today)
    ensures next.orderNumber == Padded(k + 1)
    ensures OrderNumbersOn(invs + [next], today) == Run(k + 1)
  {
    LatestHoldsLastNumber(invs, today);
    if k == 0 {
      PaddedBelowTen(1);
    } else {
      ParseZFillShow(k, 3);
    }
    assert (invs + [next])[..|invs + [next]| - 1] == invs;
  }

  /** The numbers of such a run are all different. */
  lemma RunIsDistinct(k: nat)
    ensures forall i, j :: 0 <= i < j < k ==> Run(k)[i] != Run(k)[j]
  {
    forall i, j | 0 <= i < j < k ensures Run(k)[i] != Run(k)[j] {
      RunAt(k, i);
      RunAt(k, j);
      ParseZFillShow(i + 1, 3);
      ParseZFillShow(j + 1, 3);
    }
  }

  lemma {:induction false} RunAt(k: nat, i: nat)
    requires i < k
    ensures Run(k)[i] == Padded(i + 1)
  {
    if i < k - 1 {
      RunAt(k - 1, i);
    }
  }

  /** The number follows the latest invoice by id, not the highest number:
      after "005" and then "002" on the same day, the next is "003". */
  lemma LatestByIdNotHighest(today: Date)
    ensures NextOrderNumber([
      Invoice(1, "005", today, None, None, 0, 0, [], Pending),
      Invoice(2, "002", today, None, None, 0, 0, [], Pending)], today) == Some("003")
  {
    var invs := [
      Invoice(1, "005", today, None, None, 0, 0, [], Pending),
      Invoice(2, "002", today, None, None, 0, 0, [], Pending)];
    assert LatestOn(invs, today) == Some(invs[1]);
    PaddedBelowTen(2);
    PaddedBelowTen(3);
    ParseZFillShow(2, 3);
  }

  /** The counter looks at today's invoices, not at the submitted date: an
      invoice dated a day that already has "001", created on a day that has
      none, is numbered "001" again. */
  lemma BackdatedInvoiceRepeatsNumber(yesterday: Date)
    ensures var invs := [Invoice(1, "001", yesterday, None, None, 0, 0, [], Pending)];
      NextOrderNumber(invs, yesterday + 1) == Some("001")
  {
    var invs := [Invoice(1, "001", yesterday, None, None, 0, 0, [], Pending)];
    assert invs[..0] == [];
    assert LatestOn(invs[..0], yesterday + 1) == None;
    assert LatestOn(invs, yesterday + 1) == None;
  }

  // ---------------------------------------------------------------------
  // The status of one invoice.

  /** `_update_invoice_status(invoice)`: an invoice without a customer is
      left as it is; otherwise its status is recomputed from its customer's
      whole ledger. */
  function Reconcile(inv: Invoice, customers: map<CustomerId, Customer>,
                     rs: seq<Receivable>, ts: seq<Transaction>): (r: Invoice)
    ensures r.(status := inv.status) == inv
    ensures (inv.customerId.None? || inv.customerId.value !in customers) ==> r == inv
    ensures inv.customerId.Some? && inv.customerId.value in customers ==>
      r.status == CustomerStatus(rs, ts, inv.customerId.value)
  {
    if inv.customerId.Some? && inv.customerId.value in customers
    then inv.(status := CustomerStatus(rs, ts, inv.customerId.value))
    else inv
  }
}
