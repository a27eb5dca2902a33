/** The customer ledger: transactions (payments and refunds), receivables
    (amounts owed), the balance recomputed from them (`Customer.update_balance`)
    and the payment-status rule behind `_update_invoice_status`.
    Amounts are integer cents, so `round(..., 2)` is the identity. */
module Ledger {
  import opened Wrappers

  type CustomerId = nat
  type TransactionId = nat
  type ReceivableId = nat
  type InvoiceId = nat

  /** `transaction_type` is free text in the schema: only 'payment' and
      'refund' carry meaning; every other value is kept as it is. */
  datatype TransactionKind = Payment | Refund | OtherKind(name: string)

  datatype Customer = Customer(
    name: string,
    phone: Option<string>,
    email: Option<string>,
    address: Option<string>,
    balance: int)  // positive: the customer owes money; negative: surplus

  datatype Transaction = Transaction(
    id: TransactionId,
    customerId: CustomerId,
    amount: int,
    kind: TransactionKind,
    paymentMethod: Option<string>,
    referenceNumber: Option<string>,
    notes: Option<string>)

  datatype Receivable = Receivable(
    id: ReceivableId,
    customerId: CustomerId,
    amount: int,
    additionalAmount: int,
    notes: string,
    invoiceId: Option<InvoiceId>)

  datatype PaymentStatus = Pending | Partial | Paid

  // ---------------------------------------------------------------------
  // The relationship collections `customer.transactions` and
  // `customer.receivables`: the rows whose foreign key is the customer.

  function TransactionsOf(ts: seq<Transaction>, c: CustomerId): seq<Transaction> {
    if ts == [] then []
    else TransactionsOf(ts[..|ts| - 1], c) + (if ts[|ts| - 1].customerId == c then [ts[|ts| - 1]] else [])
  }

  function ReceivablesOf(rs: seq<Receivable>, c: CustomerId): seq<Receivable> {
    if rs == [] then []
    else ReceivablesOf(rs[..|rs| - 1], c) + (if rs[|rs| - 1].customerId == c then [rs[|rs| - 1]] else [])
  }

  // ---------------------------------------------------------------------
  // The three totals of the ledger.

  /** What one receivable adds to what is due. */
  function DueOn(r: Receivable): int {
    r.amount + r.additionalAmount
  }

  /** What one transaction counts as a payment. */
  function PaidBy(t: Transaction): int {
    if t.kind == Payment then t.amount else 0
  }

  /** What one transaction counts as a refund. */
  function RefundedBy(t: Transaction): int {
    if t.kind == Refund then t.amount else 0
  }

  /** Σ(receivable.amount + receivable.additional_amount). */
  function TotalDue(rs: seq<Receivable>): int {
    if rs == [] then 0 else TotalDue(rs[..|rs| - 1]) + DueOn(rs[|rs| - 1])
  }

  /** Σ(amount) over the transactions of type 'payment'. */
  function TotalPaid(ts: seq<Transaction>): int {
    if ts == [] then 0 else TotalPaid(ts[..|ts| - 1]) + PaidBy(ts[|ts| - 1])
  }

  /** Σ(amount) over the transactions of type 'refund'. */
  function TotalRefunded(ts: seq<Transaction>): int {
    if ts == [] then 0 else TotalRefunded(ts[..|ts| - 1]) + RefundedBy(ts[|ts| - 1])
  }

  /** The balance of record: dues, minus payments, plus refunds (a refund
      raises what the customer owes). */
  function Balance(rs: seq<Receivable>, ts: seq<Transaction>): int {
    TotalDue(rs) - TotalPaid(ts) + TotalRefunded(ts)
  }

  /** The balance of customer `c` recomputed from the whole ledger. */
  function CustomerBalance(rs: seq<Receivable>, ts: seq<Transaction>, c: CustomerId): int {
    Balance(ReceivablesOf(rs, c), TransactionsOf(ts, c))
  }

  /** `Customer.update_balance`: one pass over the receivables adding what is
      due, then one pass over the transactions subtracting payments and adding
      refunds; other transaction types are skipped. */
  method ComputeBalance(rs: seq<Receivable>, ts: seq<Transaction>) returns (total: int)
    ensures total == TotalDue(rs) - TotalPaid(ts) + TotalRefunded(ts)
  {
    total := 0;
    var i := 0;
    while i < |rs|
      invariant 0 <= i <= |rs|
      invariant total == TotalDue(rs[..i])
    {
      assert rs[..i + 1][..i] == rs[..i];
      total := total + rs[i].amount + rs[i].additionalAmount;
      i := i + 1;
    }
    assert rs[..i] == rs;
    var j := 0;
    while j < |ts|
      invariant 0 <= j <= |ts|
      invariant total == TotalDue(rs) - TotalPaid(ts[..j]) + TotalRefunded(ts[..j])
    {
      assert ts[..j + 1][..j] == ts[..j];
      if ts[j].kind == Payment {
        total := total - ts[j].amount;
      } else if ts[j].kind == Refund {
        total := total + ts[j].amount;
      }
      j := j + 1;
    }
    assert ts[..j] == ts;
  }

  /** The decision rule of `_update_invoice_status`, from the customer-wide
      payments and dues. */
  function StatusOf(payments: int, due: int): PaymentStatus {
    if payments >= due then Paid
    else if payments > 0 then Partial
    else Pending
  }

  /** The status an invoice of customer `c` is given from the whole ledger;
      refunds are not looked at. */
  function CustomerStatus(rs: seq<Receivable>, ts: seq<Transaction>, c: CustomerId): PaymentStatus {
    StatusOf(TotalPaid(TransactionsOf(ts, c)), TotalDue(ReceivablesOf(rs, c)))
  }

  // ---------------------------------------------------------------------
  // How the totals and the filters behave under the edits the routes make.

  lemma {:induction false} TotalDueConcat(a: seq<Receivable>, b: seq<Receivable>)
    ensures TotalDue(a + b) == TotalDue(a) + TotalDue(b)
    decreases |b|
  {
    if b == [] {
      assert a + b == a;
    } else {
      var b' := b[..|b| - 1];
      assert (a + b)[..|a + b| - 1] == a + b';
      TotalDueConcat(a, b');
    }
  }

  lemma {:induction false} TotalPaidConcat(a: seq<Transaction>, b: seq<Transaction>)
    ensures TotalPaid(a + b) == TotalPaid(a) + TotalPaid(b)
    ensures TotalRefunded(a + b) == TotalRefunded(a) + TotalRefunded(b)
    decreases |b|
  {
    if b == [] {
      assert a + b == a;
    } else {
      var b' := b[..|b| - 1];
      assert (a + b)[..|a + b| - 1] == a + b';
      TotalPaidConcat(a, b');
    }
  }

  lemma {:induction false} TransactionsOfConcat(a: seq<Transaction>, b: seq<Transaction>, c: CustomerId)
    ensures TransactionsOf(a + b, c) == TransactionsOf(a, c) + TransactionsOf(b, c)
    decreases |b|
  {
    if b == [] {
      assert a + b == a;
    } else {
      var b' := b[..|b| - 1];
      assert (a + b)[..|a + b| - 1] == a + b';
      TransactionsOfConcat(a, b', c);
    }
  }

  lemma {:induction false} ReceivablesOfConcat(a: seq<Receivable>, b: seq<Receivable>, c: CustomerId)
    ensures ReceivablesOf(a + b, c) == ReceivablesOf(a, c) + ReceivablesOf(b, c)
    decreases |b|
  {
    if b == [] {
      assert a + b == a;
    } else {
      var b' := b[..|b| - 1];
      assert (a + b)[..|a + b| - 1] == a + b';
      ReceivablesOfConcat(a, b', c);
    }
  }

  /** The filter keeps exactly the rows of `c`, in their order. */
  lemma {:induction false} TransactionsOfMembers(ts: seq<Transaction>, c: CustomerId)
    ensures forall t :: t in TransactionsOf(ts, c) <==> t in ts && t.customerId == c
  {
    if ts != [] {
      TransactionsOfMembers(ts[..|ts| - 1], c);
      assert ts == ts[..|ts| - 1] + [ts[|ts| - 1]];
    }
  }

  lemma {:induction false} ReceivablesOfMembers(rs: seq<Receivable>, c: CustomerId)
    ensures forall r :: r in ReceivablesOf(rs, c) <==> r in rs && r.customerId == c
  {
    if rs != [] {
      ReceivablesOfMembers(rs[..|rs| - 1], c);
      assert rs == rs[..|rs| - 1] + [rs[|rs| - 1]];
    }
  }

  /** A customer with no rows of its own has nothing in its collections. */
  lemma NoRowsNoBalance(rs: seq<Receivable>, ts: seq<Transaction>, c: CustomerId)
    requires forall i :: 0 <= i < |rs| ==> rs[i].customerId != c
    requires forall i :: 0 <= i < |ts| ==> ts[i].customerId != c
    ensures ReceivablesOf(rs, c) == [] && TransactionsOf(ts, c) == []
    ensures CustomerBalance(rs, ts, c) == 0
  {
    ReceivablesOfMembers(rs, c);
    TransactionsOfMembers(ts, c);
    if ReceivablesOf(rs, c) != [] {
      assert ReceivablesOf(rs, c)[0] in ReceivablesOf(rs, c);
    }
    if TransactionsOf(ts, c) != [] {
      assert TransactionsOf(ts, c)[0] in TransactionsOf(ts, c);
    }
  }

  /** Appending a row: the filter of its owner grows by it, every other
      customer's filter stays the same. */
  lemma AppendTransaction(ts: seq<Transaction>, t: Transaction, c: CustomerId)
    ensures TransactionsOf(ts + [t], c) ==
      TransactionsOf(ts, c) + (if t.customerId == c then [t] else [])
  {
    assert (ts + [t])[..|ts + [t]| - 1] == ts;
  }

  lemma AppendReceivable(rs: seq<Receivable>, r: Receivable, c: CustomerId)
    ensures ReceivablesOf(rs + [r], c) ==
      ReceivablesOf(rs, c) + (if r.customerId == c then [r] else [])
  {
    assert (rs + [r])[..|rs + [r]| - 1] == rs;
  }

  /** Removing the row at `i` removes it from its owner's collection only. */
  lemma RemoveTransaction(ts: seq<Transaction>, i: nat, c: CustomerId)
    requires i < |ts|
    ensures TransactionsOf(ts[..i] + ts[i + 1..], c) ==
      TransactionsOf(ts[..i], c) + TransactionsOf(ts[i + 1..], c)
    ensures TransactionsOf(ts, c) ==
      TransactionsOf(ts[..i], c) + (if ts[i].customerId == c then [ts[i]] else []) + TransactionsOf(ts[i + 1..], c)
  {
    TransactionsOfConcat(ts[..i], ts[i + 1..], c);
    assert ts == (ts[..i] + [ts[i]]) + ts[i + 1..];
    TransactionsOfConcat(ts[..i] + [ts[i]], ts[i + 1..], c);
    AppendTransaction(ts[..i], ts[i], c);
  }

  lemma RemoveReceivable(rs: seq<Receivable>, i: nat, c: CustomerId)
    requires i < |rs|
    ensures ReceivablesOf(rs[..i] + rs[i + 1..], c) ==
      ReceivablesOf(rs[..i], c) + ReceivablesOf(rs[i + 1..], c)
    ensures ReceivablesOf(rs, c) ==
      ReceivablesOf(rs[..i], c) + (if rs[i].customerId == c then [rs[i]] else []) + ReceivablesOf(rs[i + 1..], c)
  {
    ReceivablesOfConcat(rs[..i], rs[i + 1..], c);
    assert rs == (rs[..i] + [rs[i]]) + rs[i + 1..];
    ReceivablesOfConcat(rs[..i] + [rs[i]], rs[i + 1..], c);
    AppendReceivable(rs[..i], rs[i], c);
  }

  /** Replacing the row at `i` by one with the same owner. */
  lemma ReplaceTransaction(ts: seq<Transaction>, i: nat, t: Transaction, c: CustomerId)
    requires i < |ts| && t.customerId == ts[i].customerId
    ensures TransactionsOf(ts[i := t], c) ==
      TransactionsOf(ts[..i], c) + (if t.customerId == c then [t] else []) + TransactionsOf(ts[i + 1..], c)
    ensures ts[i].customerId != c ==> TransactionsOf(ts[i := t], c) == TransactionsOf(ts, c)
  {
    assert ts[i := t] == (ts[..i] + [t]) + ts[i + 1..];
    TransactionsOfConcat(ts[..i] + [t], ts[i + 1..], c);
    AppendTransaction(ts[..i], t, c);
    RemoveTransaction(ts, i, c);
  }

  lemma ReplaceReceivable(rs: seq<Receivable>, i: nat, r: Receivable, c: CustomerId)
    requires i < |rs| && r.customerId == rs[i].customerId
    ensures ReceivablesOf(rs[i := r], c) ==
      ReceivablesOf(rs[..i], c) + (if r.customerId == c then [r] else []) + ReceivablesOf(rs[i + 1..], c)
    ensures rs[i].customerId != c ==> ReceivablesOf(rs[i := r], c) == ReceivablesOf(rs, c)
  {
    assert rs[i := r] == (rs[..i] + [r]) + rs[i + 1..];
    ReceivablesOfConcat(rs[..i] + [r], rs[i + 1..], c);
    AppendReceivable(rs[..i], r, c);
    RemoveReceivable(rs, i, c);
  }

  // ---------------------------------------------------------------------
  // What each ledger edit does to the recomputed balance.

  /** Appending a transaction adds its payment and refund parts to its
      owner's totals and nothing to anyone else's. */
  lemma AppendTransactionTotals(ts: seq<Transaction>, t: Transaction, c: CustomerId)
    ensures TotalPaid(TransactionsOf(ts + [t], c)) ==
      TotalPaid(TransactionsOf(ts, c)) + (if t.customerId == c then PaidBy(t) else 0)
    ensures TotalRefunded(TransactionsOf(ts + [t], c)) ==
      TotalRefunded(TransactionsOf(ts, c)) + (if t.customerId == c then RefundedBy(t) else 0)
  {
    AppendTransaction(ts, t, c);
    var mine := TransactionsOf(ts, c);
    if t.customerId == c {
      TotalPaidConcat(mine, [t]);
      assert [t][..0] == [];
    } else {
      assert mine + [] == mine;
    }
  }

  /** Recording any transaction moves its owner's balance by its refund
      part minus its payment part, and no other balance. */
  lemma AppendedTransactionShiftsBalance(rs: seq<Receivable>, ts: seq<Transaction>, t: Transaction, c: CustomerId)
    ensures CustomerBalance(rs, ts + [t], c) ==
      CustomerBalance(rs, ts, c) + (if t.customerId == c then RefundedBy(t) - PaidBy(t) else 0)
  {
    AppendTransactionTotals(ts, t, c);
  }

  /** Recording a payment lowers the payer's balance by its amount and
      leaves every other customer's balance as it was. */
  lemma PaymentLowersBalance(rs: seq<Receivable>, ts: seq<Transaction>, t: Transaction, c: CustomerId)
    requires t.kind == Payment
    ensures CustomerBalance(rs, ts + [t], c) ==
      CustomerBalance(rs, ts, c) - (if t.customerId == c then t.amount else 0)
  {
    AppendTransactionTotals(ts, t, c);
  }

  /** A transaction whose type is neither 'payment' nor 'refund' contributes
      nothing to any balance. */
  lemma OtherKindsContributeNothing(rs: seq<Receivable>, ts: seq<Transaction>, t: Transaction, c: CustomerId)
    requires t.kind.OtherKind?
    ensures CustomerBalance(rs, ts + [t], c) == CustomerBalance(rs, ts, c)
  {
    assert PaidBy(t) == 0 && RefundedBy(t) == 0;
    AppendTransactionTotals(ts, t, c);
  }

  /** A refund raises the balance by its amount. */
  lemma RefundRaisesBalance(rs: seq<Receivable>, ts: seq<Transaction>, t: Transaction, c: CustomerId)
    requires t.kind == Refund && t.customerId == c
    ensures CustomerBalance(rs, ts + [t], c) == CustomerBalance(rs, ts, c) + t.amount
  {
    AppendTransactionTotals(ts, t, c);
  }

  /** Recording a receivable raises its customer's balance by amount plus
      additional amount, and no other customer's. */
  lemma ReceivableRaisesBalance(rs: seq<Receivable>, ts: seq<Transaction>, r: Receivable, c: CustomerId)
    ensures CustomerBalance(rs + [r], ts, c) ==
      CustomerBalance(rs, ts, c) + (if r.customerId == c then r.amount + r.additionalAmount else 0)
  {
    AppendReceivable(rs, r, c);
    var mine := ReceivablesOf(rs, c);
    if r.customerId == c {
      TotalDueConcat(mine, [r]);
      assert [r][..0] == [];
    } else {
      assert mine + [] == mine;
    }
  }

  /** Deleting the receivable at `i` takes exactly its amount plus
      additional amount off its customer's balance. */
  lemma DeletedReceivableLeavesBalance(rs: seq<Receivable>, ts: seq<Transaction>, i: nat, c: CustomerId)
    requires i < |rs|
    ensures CustomerBalance(rs[..i] + rs[i + 1..], ts, c) ==
      CustomerBalance(rs, ts, c) - (if rs[i].customerId == c then rs[i].amount + rs[i].additionalAmount else 0)
  {
    RemoveReceivable(rs, i, c);
    var pre, post := ReceivablesOf(rs[..i], c), ReceivablesOf(rs[i + 1..], c);
    var mid: seq<Receivable> := if rs[i].customerId == c then [rs[i]] else [];
    TotalDueConcat(pre, post);
    TotalDueConcat(pre + mid, post);
    TotalDueConcat(pre, mid);
    if rs[i].customerId == c {
      assert mid[..0] == [];
    }
  }

  /** Deleting the transaction at `i` undoes its effect on its customer's
      balance: a payment is added back, a refund taken off. */
  lemma DeletedTransactionLeavesBalance(rs: seq<Receivable>, ts: seq<Transaction>, i: nat, c: CustomerId)
    requires i < |ts|
    ensures CustomerBalance(rs, ts[..i] + ts[i + 1..], c) ==
      CustomerBalance(rs, ts, c) +
        (if ts[i].customerId == c then PaidBy(ts[i]) - RefundedBy(ts[i]) else 0)
  {
    RemoveTransaction(ts, i, c);
    var pre, post := TransactionsOf(ts[..i], c), TransactionsOf(ts[i + 1..], c);
    var mid: seq<Transaction> := if ts[i].customerId == c then [ts[i]] else [];
    TotalPaidConcat(pre, post);
    TotalPaidConcat(pre + mid, post);
    TotalPaidConcat(pre, mid);
    if ts[i].customerId == c {
      assert mid[..0] == [];
    }
  }

  /** Editing the transaction at `i` in place moves its customer's balance
      by the difference between the old and the new row's effect. */
  lemma EditedTransactionShiftsBalance(rs: seq<Receivable>, ts: seq<Transaction>, i: nat, t: Transaction, c: CustomerId)
    requires i < |ts| && t.customerId == ts[i].customerId
    ensures CustomerBalance(rs, ts[i := t], c) ==
      CustomerBalance(rs, ts, c) +
        (if t.customerId == c then (PaidBy(ts[i]) - RefundedBy(ts[i])) - (PaidBy(t) - RefundedBy(t)) else 0)
  {
    var ts' := ts[i := t];
    assert ts'[..i] + ts'[i + 1..] == ts[..i] + ts[i + 1..];
    DeletedTransactionLeavesBalance(rs, ts, i, c);
    DeletedTransactionLeavesBalance(rs, ts', i, c);
  }

  /** Editing the receivable at `i` in place moves its customer's balance
      by the new due minus the old. */
  lemma EditedReceivableShiftsBalance(rs: seq<Receivable>, ts: seq<Transaction>, i: nat, r: Receivable, c: CustomerId)
    requires i < |rs| && r.customerId == rs[i].customerId
    ensures CustomerBalance(rs[i := r], ts, c) ==
      CustomerBalance(rs, ts, c) + (if r.customerId == c then DueOn(r) - DueOn(rs[i]) else 0)
  {
    var rs' := rs[i := r];
    assert rs'[..i] + rs'[i + 1..] == rs[..i] + rs[i + 1..];
    DeletedReceivableLeavesBalance(rs, ts, i, c);
    DeletedReceivableLeavesBalance(rs', ts, i, c);
  }

  // ---------------------------------------------------------------------
  // The status rule.

  /** The rule gives each of the three statuses exactly in its own case. */
  lemma StatusCases(payments: int, due: int)
    ensures StatusOf(payments, due) == Paid <==> payments >= due
    ensures StatusOf(payments, due) == Partial <==> 0 < payments < due
    ensures StatusOf(payments, due) == Pending <==> payments <= 0 && payments < due
  {
  }

  /** A customer with nothing due has every invoice 'paid', even with no
      payment at all. */
  lemma NothingDueIsPaid(rs: seq<Receivable>, ts: seq<Transaction>, c: CustomerId)
    requires ReceivablesOf(rs, c) == []
    requires forall i :: 0 <= i < |ts| ==> PaidBy(ts[i]) >= 0
    ensures CustomerStatus(rs, ts, c) == Paid
  {
    TotalPaidNonNegative(TransactionsOf(ts, c));
    TransactionsOfMembers(ts, c);
    forall t | t in TransactionsOf(ts, c) ensures PaidBy(t) >= 0 {
      var k :| 0 <= k < |ts| && ts[k] == t;
    }
  }

  /** The route accepts a negative payment amount; with one, a customer
      with nothing due is 'pending', so `NothingDueIsPaid` needs its
      hypothesis. */
  lemma NegativePaymentIsPending(c: CustomerId)
    ensures var t := Transaction(1, c, -500, Payment, Some("cash"), None, None);
      CustomerStatus([], [t], c) == Pending && CustomerBalance([], [t], c) == 500
  {
    var t := Transaction(1, c, -500, Payment, Some("cash"), None, None);
    PaymentLowersBalance([], [], t, c);
    AppendTransactionTotals([], t, c);
    assert [] + [t] == [t];
  }

  lemma {:induction false} TotalPaidNonNegative(ts: seq<Transaction>)
    ensures (forall t :: t in ts ==> PaidBy(t) >= 0) ==> TotalPaid(ts) >= 0
  {
    if ts != [] {
      TotalPaidNonNegative(ts[..|ts| - 1]);
      assert forall t :: t in ts[..|ts| - 1] ==> t in ts;
      assert ts[|ts| - 1] in ts;
    }
  }

  /** Without refunds the status agrees with the balance: 'paid' exactly when
      the balance is not positive. */
  lemma StatusAgreesWithBalance(rs: seq<Receivable>, ts: seq<Transaction>, c: CustomerId)
    requires TotalRefunded(TransactionsOf(ts, c)) == 0
    ensures CustomerStatus(rs, ts, c) == Paid <==> CustomerBalance(rs, ts, c) <= 0
  {
  }

  /** Refunds move the balance but never the status. */
  lemma RefundLeavesStatus(rs: seq<Receivable>, ts: seq<Transaction>, t: Transaction, c: CustomerId)
    requires t.kind == Refund
    ensures CustomerStatus(rs, ts + [t], c) == CustomerStatus(rs, ts, c)
  {
    AppendTransactionTotals(ts, t, c);
  }

  /** A worked ledger: 500.00 due, then a payment of 300.00 (balance
      200.00, 'partial'), then one of 200.00 (balance 0, 'paid'). */
  lemma ExampleLedger(c: CustomerId)
    ensures var rs := [Receivable(1, c, 50000, 0, "order", None)];
            var t1 := Transaction(1, c, 30000, Payment, Some("cash"), None, None);
            var t2 := Transaction(2, c, 20000, Payment, Some("cash"), None, None);
            && CustomerStatus(rs, [], c) == Pending && CustomerBalance(rs, [], c) == 50000
            && CustomerStatus(rs, [t1], c) == Partial && CustomerBalance(rs, [t1], c) == 20000
            && CustomerStatus(rs, [t1, t2], c) == Paid && CustomerBalance(rs, [t1, t2], c) == 0
  {
    var rs := [Receivable(1, c, 50000, 0, "order", None)];
    var t1 := Transaction(1, c, 30000, Payment, Some("cash"), None, None);
    var t2 := Transaction(2, c, 20000, Payment, Some("cash"), None, None);
    ReceivableRaisesBalance([], [], rs[0], c);
    assert [] + [rs[0]] == rs;
    AppendReceivable([], rs[0], c);
    assert TotalDue(ReceivablesOf(rs, c)) == 50000;
    PaymentLowersBalance(rs, [], t1, c);
    AppendTransactionTotals([], t1, c);
    assert [] + [t1] == [t1];
    PaymentLowersBalance(rs, [t1], t2, c);
    AppendTransactionTotals([t1], t2, c);
    assert [t1] + [t2] == [t1, t2];
  }
}
