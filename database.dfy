/** The application's database as one object, with each HTTP route that
    changes it as a method.  A route either fails and leaves every table as
    it was (the session is rolled back), or commits all of its effects.
    Every method keeps `Valid()`: the table constraints of the schema and
    the rule that each stored customer balance is the recomputed one. */
module Database {
  import opened Wrappers
  import opened Ledger
  import opened Inventory
  import opened Invoicing
  import opened Integrity
  import opened Accounts
  import opened Catalog

  /** The body of `POST /customers/payment`; a field is `None` when the
      request does not carry it.  The payment method is required as a key
      but may be JSON `null`: the outer `Option` says whether the key was
      sent, the inner one is its value, stored as it is. */
  datatype PaymentRequest = PaymentRequest(
    customerId: Option<CustomerId>,
    amount: Option<int>,
    paymentMethod: Option<Option<string>>,
    referenceNumber: Option<string>,
    notes: Option<string>)

  /** The body of `POST /new_invoice`. */
  datatype InvoiceRequest = InvoiceRequest(
    date: Date,
    customerId: Option<CustomerId>,
    customerName: Option<string>,
    totalAmount: int,
    totalItems: int,
    items: seq<LineItem>)

  /** The body of `PUT /invoices/<id>`. */
  datatype InvoiceEdit = InvoiceEdit(
    date: Date,
    customerName: Option<string>,
    totalAmount: int,
    totalItems: int,
    items: seq<LineItem>)

  /** What `float(None)` raises, reported as the request's error. */
  const FloatOfNone := "float() argument must be a string or a real number, not 'NoneType'"

  /** Stand-ins for the texts of the exceptions that fail the invoice and
      product routes. */
  const BadOrderNumber := "invalid literal for int() with base 10"
  const InvoiceStillReferenced := "violates foreign key constraint: receivable.invoice_id references invoice"
  const DuplicateItemCode := "violates unique constraint: product.item_code"

  /** Another product already has the item code `code`. */
  predicate CodeTaken(products: map<ProductId, Product>, p: ProductId, code: string) {
    exists q :: q in products && q != p && products[q].itemCode == code
  }

  /** `customer.balance = total` on customer `c`. */
  function WithBalance(customers: map<CustomerId, Customer>, c: CustomerId, total: int): map<CustomerId, Customer>
    requires c in customers
  {
    customers[c := customers[c].(balance := total)]
  }

  /** Some receivable still refers to an invoice. */
  predicate AnyLinked(rs: seq<Receivable>) {
    exists i :: 0 <= i < |rs| && rs[i].invoiceId.Some?
  }

  /** `customer.invoices` is not empty. */
  predicate OwnsInvoices(invs: seq<Invoice>, c: CustomerId) {
    exists i :: 0 <= i < |invs| && invs[i].customerId == Some(c)
  }

  // ---------------------------------------------------------------------
  // The table constraints after each kind of route.

  /** The table constraints of the schema over the tables and their id
      counters: keys below the counter and in increasing order, every
      foreign key resolving, `item_code` unique, and every stored balance
      the recomputed one. */
  predicate Tables(customers: map<CustomerId, Customer>, products: map<ProductId, Product>,
                   ts: seq<Transaction>, rs: seq<Receivable>, invs: seq<Invoice>,
                   nc: nat, nt: nat, nr: nat, ni: nat)
  {
    && (forall c :: c in customers ==> c < nc)
    && Increasing(ts, TransactionKey, nt)
    && Increasing(rs, ReceivableKey, nr)
    && Increasing(invs, InvoiceKey, ni)
    && RowsOwned(customers, ts, rs)
    && InvoicesOwned(customers, invs)
    && LinksResolve(rs, invs)
    && BalancesCurrent(customers, rs, ts)
    && CodesUnique(products)
  }

  /** A new customer, with balance 0 and the next key, owns no rows yet. */
  lemma NewCustomerKeeps(customers: map<CustomerId, Customer>, products: map<ProductId, Product>,
                         ts: seq<Transaction>, rs: seq<Receivable>, invs: seq<Invoice>,
                         nc: nat, nt: nat, nr: nat, ni: nat, cust: Customer)
    requires Tables(customers, products, ts, rs, invs, nc, nt, nr, ni)
    requires cust.balance == 0
    ensures nc !in customers
    ensures Tables(customers[nc := cust], products, ts, rs, invs, nc + 1, nt, nr, ni)
  {
    NoRowsNoBalance(rs, ts, nc);
  }

  /** Removing a customer without invoices together with its rows keeps
      every foreign key resolving. */
  lemma ForgetCustomerOwned(customers: map<CustomerId, Customer>, ts: seq<Transaction>, rs: seq<Receivable>,
                            invs: seq<Invoice>, c: CustomerId)
    requires RowsOwned(customers, ts, rs) && InvoicesOwned(customers, invs) && LinksResolve(rs, invs)
    requires !OwnsInvoices(invs, c)
    ensures var ts', rs' := TransactionsNotOf(ts, c), ReceivablesNotOf(rs, c);
      && RowsOwned(customers - {c}, ts', rs') && InvoicesOwned(customers - {c}, invs)
      && LinksResolve(rs', invs)
  {
    var ts', rs' := TransactionsNotOf(ts, c), ReceivablesNotOf(rs, c);
    TransactionsNotOfFacts(ts, c);
    ReceivablesNotOfFacts(rs, c);
    forall i | 0 <= i < |ts'|
      ensures ts'[i].customerId in customers - {c}
    {
      assert ts'[i] in ts';
      var j :| 0 <= j < |ts| && ts[j] == ts'[i];
    }
    forall i | 0 <= i < |rs'|
      ensures rs'[i].customerId in customers - {c} && (rs'[i].invoiceId.Some? ==> HasInvoice(invs, rs'[i].invoiceId.value))
    {
      assert rs'[i] in rs';
      var j :| 0 <= j < |rs| && rs[j] == rs'[i];
    }
  }

  /** ... and every remaining balance current. */
  lemma ForgetCustomerBalances(customers: map<CustomerId, Customer>, ts: seq<Transaction>, rs: seq<Receivable>, c: CustomerId)
    requires BalancesCurrent(customers, rs, ts)
    ensures BalancesCurrent(customers - {c}, ReceivablesNotOf(rs, c), TransactionsNotOf(ts, c))
  {
    TransactionsNotOfFacts(ts, c);
    ReceivablesNotOfFacts(rs, c);
    forall d | d in customers - {c}
      ensures (customers - {c})[d].balance == CustomerBalance(ReceivablesNotOf(rs, c), TransactionsNotOf(ts, c), d)
    {
      assert CustomerBalance(rs, ts, d) == customers[d].balance;
    }
  }

  /** A new balance for one customer keeps every foreign key resolving. */
  lemma RebalanceKeepsOwners(customers: map<CustomerId, Customer>, c: CustomerId, total: int,
                             ts: seq<Transaction>, rs: seq<Receivable>, invs: seq<Invoice>)
    requires c in customers && RowsOwned(customers, ts, rs) && InvoicesOwned(customers, invs)
    ensures var cs := WithBalance(customers, c, total);
      && (forall d :: d in cs <==> d in customers)
      && RowsOwned(cs, ts, rs) && InvoicesOwned(cs, invs)
  {
  }

  /** A new transaction of `t.customerId` with the next key, and that
      balance recomputed. */
  lemma AppendTransactionKeeps(customers: map<CustomerId, Customer>, products: map<ProductId, Product>,
                               ts: seq<Transaction>, rs: seq<Receivable>, invs: seq<Invoice>,
                               nc: nat, nt: nat, nr: nat, ni: nat, t: Transaction)
    requires Tables(customers, products, ts, rs, invs, nc, nt, nr, ni)
    requires t.id == nt && t.customerId in customers
    ensures CustomerBalance(rs, ts + [t], t.customerId) == customers[t.customerId].balance + RefundedBy(t) - PaidBy(t)
    ensures Tables(WithBalance(customers, t.customerId, CustomerBalance(rs, ts + [t], t.customerId)),
                   products, ts + [t], rs, invs, nc, nt + 1, nr, ni)
  {
    AppendedTransactionShiftsBalance(rs, ts, t, t.customerId);
    IncreasingAppend(ts, TransactionKey, nt, t);
    assert RowsOwned(customers, ts + [t], rs) by {
      assert forall k :: 0 <= k < |ts| ==> (ts + [t])[k] == ts[k];
    }
    RebalanceKeepsOwners(customers, t.customerId, CustomerBalance(rs, ts + [t], t.customerId), ts + [t], rs, invs);
    OthersAfterAppendTransaction(ts, t);
    BalancesAfterEdit(customers, rs, ts, rs, ts + [t], t.customerId);
  }

  /** The transaction at `i` replaced by one with the same key and owner,
      the owner's balance recomputed and the owner's invoices reconciled. */
  lemma ReplaceTransactionKeeps(customers: map<CustomerId, Customer>, products: map<ProductId, Product>,
                                ts: seq<Transaction>, rs: seq<Receivable>, invs: seq<Invoice>,
                                nc: nat, nt: nat, nr: nat, ni: nat, i: nat, t: Transaction)
    requires Tables(customers, products, ts, rs, invs, nc, nt, nr, ni)
    requires i < |ts| && t.id == ts[i].id && t.customerId == ts[i].customerId
    ensures t.customerId in customers
    ensures CustomerBalance(rs, ts[i := t], t.customerId) ==
      customers[t.customerId].balance + (PaidBy(ts[i]) - RefundedBy(ts[i])) - (PaidBy(t) - RefundedBy(t))
    ensures var c, ts' := t.customerId, ts[i := t];
      var cs := WithBalance(customers, c, CustomerBalance(rs, ts', c));
      Tables(cs, products, ts', rs, ReconcileOwnedBy(invs, c, cs, rs, ts'), nc, nt, nr, ni)
  {
    var c, ts' := t.customerId, ts[i := t];
    EditedTransactionShiftsBalance(rs, ts, i, t, c);
    IncreasingSameKeys(ts, ts', TransactionKey, nt);
    assert RowsOwned(customers, ts', rs) by {
      assert forall k :: 0 <= k < |ts| ==> ts'[k].customerId == ts[k].customerId;
    }
    var cs := WithBalance(customers, c, CustomerBalance(rs, ts', c));
    RebalanceKeepsOwners(customers, c, CustomerBalance(rs, ts', c), ts', rs, invs);
    OthersAfterReplaceTransaction(ts, i, t);
    BalancesAfterEdit(customers, rs, ts, rs, ts', c);
    ReconcileKeepsTables(invs, c, cs, rs, ts', ni);
  }

  /** The transaction at `i` removed, the owner's balance recomputed and
      the owner's invoices reconciled. */
  lemma RemoveTransactionKeeps(customers: map<CustomerId, Customer>, products: map<ProductId, Product>,
                               ts: seq<Transaction>, rs: seq<Receivable>, invs: seq<Invoice>,
                               nc: nat, nt: nat, nr: nat, ni: nat, i: nat)
    requires Tables(customers, products, ts, rs, invs, nc, nt, nr, ni)
    requires i < |ts|
    ensures ts[i].customerId in customers
    ensures CustomerBalance(rs, ts[..i] + ts[i + 1..], ts[i].customerId) ==
      customers[ts[i].customerId].balance + PaidBy(ts[i]) - RefundedBy(ts[i])
    ensures var c, ts' := ts[i].customerId, ts[..i] + ts[i + 1..];
      var cs := WithBalance(customers, c, CustomerBalance(rs, ts', c));
      Tables(cs, products, ts', rs, ReconcileOwnedBy(invs, c, cs, rs, ts'), nc, nt, nr, ni)
  {
    var c, ts' := ts[i].customerId, ts[..i] + ts[i + 1..];
    DeletedTransactionLeavesBalance(rs, ts, i, c);
    IncreasingRemove(ts, TransactionKey, nt, i);
    assert forall k :: 0 <= k < |ts'| ==> ts'[k] == if k < i then ts[k] else ts[k + 1];
    assert RowsOwned(customers, ts', rs);
    var cs := WithBalance(customers, c, CustomerBalance(rs, ts', c));
    RebalanceKeepsOwners(customers, c, CustomerBalance(rs, ts', c), ts', rs, invs);
    OthersAfterRemoveTransaction(ts, i);
    BalancesAfterEdit(customers, rs, ts, rs, ts', c);
    ReconcileKeepsTables(invs, c, cs, rs, ts', ni);
  }

  /** A new receivable of `r.customerId` with the next key, and that
      balance recomputed. */
  lemma AppendReceivableKeeps(customers: map<CustomerId, Customer>, products: map<ProductId, Product>,
                              ts: seq<Transaction>, rs: seq<Receivable>, invs: seq<Invoice>,
                              nc: nat, nt: nat, nr: nat, ni: nat, r: Receivable)
    requires Tables(customers, products, ts, rs, invs, nc, nt, nr, ni)
    requires r.id == nr && r.customerId in customers
    requires r.invoiceId.Some? ==> HasInvoice(invs, r.invoiceId.value)
    ensures CustomerBalance(rs + [r], ts, r.customerId) == customers[r.customerId].balance + DueOn(r)
    ensures Tables(WithBalance(customers, r.customerId, CustomerBalance(rs + [r], ts, r.customerId)),
                   products, ts, rs + [r], invs, nc, nt, nr + 1, ni)
  {
    ReceivableRaisesBalance(rs, ts, r, r.customerId);
    IncreasingAppend(rs, ReceivableKey, nr, r);
    assert RowsOwned(customers, ts, rs + [r]) && LinksResolve(rs + [r], invs) by {
      assert forall k :: 0 <= k < |rs| ==> (rs + [r])[k] == rs[k];
    }
    RebalanceKeepsOwners(customers, r.customerId, CustomerBalance(rs + [r], ts, r.customerId), ts, rs + [r], invs);
    OthersAfterAppendReceivable(rs, r);
    BalancesAfterEdit(customers, rs, ts, rs + [r], ts, r.customerId);
  }

  /** The receivable at `i` replaced by one with the same key, owner and
      invoice, and the owner's balance recomputed. */
  lemma ReplaceReceivableKeeps(customers: map<CustomerId, Customer>, products: map<ProductId, Product>,
                               ts: seq<Transaction>, rs: seq<Receivable>, invs: seq<Invoice>,
                               nc: nat, nt: nat, nr: nat, ni: nat, i: nat, r: Receivable)
    requires Tables(customers, products, ts, rs, invs, nc, nt, nr, ni)
    requires i < |rs| && r.id == rs[i].id && r.customerId == rs[i].customerId && r.invoiceId == rs[i].invoiceId
    ensures r.customerId in customers
    ensures CustomerBalance(rs[i := r], ts, r.customerId) == customers[r.customerId].balance + DueOn(r) - DueOn(rs[i])
    ensures Tables(WithBalance(customers, r.customerId, CustomerBalance(rs[i := r], ts, r.customerId)),
                   products, ts, rs[i := r], invs, nc, nt, nr, ni)
  {
    EditedReceivableShiftsBalance(rs, ts, i, r, r.customerId);
    IncreasingSameKeys(rs, rs[i := r], ReceivableKey, nr);
    assert RowsOwned(customers, ts, rs[i := r]) && LinksResolve(rs[i := r], invs) by {
      assert forall k :: 0 <= k < |rs| ==> rs[i := r][k].customerId == rs[k].customerId && rs[i := r][k].invoiceId == rs[k].invoiceId;
    }
    RebalanceKeepsOwners(customers, r.customerId, CustomerBalance(rs[i := r], ts, r.customerId), ts, rs[i := r], invs);
    OthersAfterReplaceReceivable(rs, i, r);
    BalancesAfterEdit(customers, rs, ts, rs[i := r], ts, r.customerId);
  }

  /** The receivable at `i` removed, and its owner's balance recomputed. */
  lemma RemoveReceivableKeeps(customers: map<CustomerId, Customer>, products: map<ProductId, Product>,
                              ts: seq<Transaction>, rs: seq<Receivable>, invs: seq<Invoice>,
                              nc: nat, nt: nat, nr: nat, ni: nat, i: nat)
    requires Tables(customers, products, ts, rs, invs, nc, nt, nr, ni)
    requires i < |rs|
    ensures rs[i].customerId in customers
    ensures CustomerBalance(rs[..i] + rs[i + 1..], ts, rs[i].customerId) == customers[rs[i].customerId].balance - DueOn(rs[i])
    ensures var c, rs' := rs[i].customerId, rs[..i] + rs[i + 1..];
      Tables(WithBalance(customers, c, CustomerBalance(rs', ts, c)), products, ts, rs', invs, nc, nt, nr, ni)
  {
    var c, rs' := rs[i].customerId, rs[..i] + rs[i + 1..];
    DeletedReceivableLeavesBalance(rs, ts, i, c);
    IncreasingRemove(rs, ReceivableKey, nr, i);
    assert forall k :: 0 <= k < |rs'| ==> rs'[k] == if k < i then rs[k] else rs[k + 1];
    assert RowsOwned(customers, ts, rs') && LinksResolve(rs', invs);
    RebalanceKeepsOwners(customers, c, CustomerBalance(rs', ts, c), ts, rs', invs);
    OthersAfterRemoveReceivable(rs, i);
    BalancesAfterEdit(customers, rs, ts, rs', ts, c);
  }

  /** The invoice at `j` replaced by one with the same key whose customer,
      if any, exists, and new stock figures for the catalogue. */
  lemma ReplaceInvoiceKeeps(customers: map<CustomerId, Customer>, products: map<ProductId, Product>,
                            ts: seq<Transaction>, rs: seq<Receivable>, invs: seq<Invoice>,
                            nc: nat, nt: nat, nr: nat, ni: nat, j: nat, inv: Invoice, stock: map<ProductId, Product>)
    requires Tables(customers, products, ts, rs, invs, nc, nt, nr, ni)
    requires j < |invs| && inv.id == invs[j].id
    requires inv.customerId.Some? ==> inv.customerId.value in customers
    requires CodesUnique(stock)
    ensures Tables(customers, stock, ts, rs, invs[j := inv], nc, nt, nr, ni)
  {
    IncreasingSameKeys(invs, invs[j := inv], InvoiceKey, ni);
    LinksSameIds(rs, invs, invs[j := inv]);
  }

  /** A new invoice with the next key whose customer, if any, exists, and
      new stock figures for the catalogue. */
  lemma AppendInvoiceKeeps(customers: map<CustomerId, Customer>, products: map<ProductId, Product>,
                           ts: seq<Transaction>, rs: seq<Receivable>, invs: seq<Invoice>,
                           nc: nat, nt: nat, nr: nat, ni: nat, inv: Invoice, stock: map<ProductId, Product>)
    requires Tables(customers, products, ts, rs, invs, nc, nt, nr, ni)
    requires inv.id == ni && (inv.customerId.Some? ==> inv.customerId.value in customers)
    requires CodesUnique(stock)
    ensures Tables(customers, stock, ts, rs, invs + [inv], nc, nt, nr, ni + 1)
  {
    IncreasingAppend(invs, InvoiceKey, ni, inv);
    LinksAppendInvoice(rs, invs, inv);
  }

  /** The invoice at `j` deleted, the references to it cleared, and new
      stock figures for the catalogue. */
  lemma RemoveInvoiceKeeps(customers: map<CustomerId, Customer>, products: map<ProductId, Product>,
                           ts: seq<Transaction>, rs: seq<Receivable>, invs: seq<Invoice>,
                           nc: nat, nt: nat, nr: nat, ni: nat, j: nat, stock: map<ProductId, Product>)
    requires Tables(customers, products, ts, rs, invs, nc, nt, nr, ni)
    requires j < |invs| && CodesUnique(stock)
    ensures Tables(customers, stock, ts, Unlink(rs, invs[j].id), invs[..j] + invs[j + 1..], nc, nt, nr, ni)
  {
    var rest, rs' := invs[..j] + invs[j + 1..], Unlink(rs, invs[j].id);
    IncreasingRemove(invs, InvoiceKey, ni, j);
    IncreasingSameKeys(rs, rs', ReceivableKey, nr);
    assert forall k :: 0 <= k < |rest| ==> rest[k] == if k < j then invs[k] else invs[k + 1];
    UnlinkResolves(rs, invs, j);
    UnlinkKeepsLedger(customers, rs, ts, invs[j].id);
  }

  /** Every invoice gone while no receivable refers to one, and new stock
      figures for the catalogue. */
  lemma ClearInvoicesKeeps(customers: map<CustomerId, Customer>, products: map<ProductId, Product>,
                           ts: seq<Transaction>, rs: seq<Receivable>, invs: seq<Invoice>,
                           nc: nat, nt: nat, nr: nat, ni: nat, stock: map<ProductId, Product>)
    requires Tables(customers, products, ts, rs, invs, nc, nt, nr, ni)
    requires !AnyLinked(rs) && CodesUnique(stock)
    ensures Tables(customers, stock, ts, rs, [], nc, nt, nr, ni)
  {
  }

  /** A new stock figure for one product keeps every item code. */
  lemma ShiftKeepsCodes(products: map<ProductId, Product>, p: ProductId, delta: int)
    requires CodesUnique(products) && p in products
    ensures CodesUnique(Shift(products, p, delta))
  {
    var shifted := Shift(products, p, delta);
    assert shifted.Keys == products.Keys;
    CodesSameCodes(products, shifted);
  }

  /** A product edit keeps `item_code` unique when no other product has
      the new code. */
  lemma EditKeepsCodes(products: map<ProductId, Product>, p: ProductId, prod: Product)
    requires CodesUnique(products) && p in products
    requires forall q :: q in products && q != p ==> products[q].itemCode != prod.itemCode
    ensures CodesUnique(products[p := prod])
  {
  }

  /** `update_balance` on a store whose balances are current writes back
      the balance the customer already has. */
  lemma RecomputeIsIdentity(customers: map<CustomerId, Customer>, rs: seq<Receivable>, ts: seq<Transaction>, c: CustomerId)
    requires BalancesCurrent(customers, rs, ts) && c in customers
    ensures WithBalance(customers, c, CustomerBalance(rs, ts, c)) == customers
  {
    assert customers[c].balance == CustomerBalance(rs, ts, c);
  }

  /** With every line's product present in the catalogue, so is every line
      of a prefix of the invoices. */
  lemma {:induction false} AllItemsPrefix(products: map<ProductId, Product>, invs: seq<Invoice>, k: nat)
    requires k <= |invs| && AllListed(products, AllItems(invs))
    ensures AllListed(products, AllItems(invs[..k]))
    decreases |invs|
  {
    if k < |invs| {
      var init := invs[..|invs| - 1];
      assert AllItems(invs) == AllItems(init) + invs[|invs| - 1].items;
      assert forall i :: 0 <= i < |AllItems(init)| ==> AllItems(init)[i] == AllItems(invs)[i];
      assert init[..k] == invs[..k];
      AllItemsPrefix(products, init, k);
    } else {
      assert invs[..k] == invs;
    }
  }

  /** The lines of the invoice at `k` are among the lines of all invoices. */
  lemma AllItemsHasMember(products: map<ProductId, Product>, invs: seq<Invoice>, k: nat)
    requires k < |invs| && AllListed(products, AllItems(invs))
    ensures AllListed(products, invs[k].items)
  {
    AllItemsPrefix(products, invs, k + 1);
    assert invs[..k + 1][..k] == invs[..k];
    var before := AllItems(invs[..k]);
    assert AllItems(invs[..k + 1]) == before + invs[k].items;
    assert forall i :: 0 <= i < |invs[k].items| ==> invs[k].items[i] == AllItems(invs[..k + 1])[|before| + i];
  }

  /** The restoring loop of `delete_all_invoices`: every line of every
      invoice gives its quantity back; a line whose product no longer exists
      fails the request. */
  method RestoreAll(products: map<ProductId, Product>, invs: seq<Invoice>) returns (r: Option<map<ProductId, Product>>)
    ensures r.None? <==> !AllListed(products, AllItems(invs))
    ensures r.Some? ==> AllListed(products, AllItems(invs)) && r.value == Restock(products, AllItems(invs))
  {
    var current := products;
    var k := 0;
    while k < |invs|
      invariant 0 <= k <= |invs|
      invariant AllListed(products, AllItems(invs[..k]))
      invariant current == Restock(products, AllItems(invs[..k]))
    {
      var before := AllItems(invs[..k]);
      assert invs[..k + 1][..k] == invs[..k];
      assert AllItems(invs[..k + 1]) == before + invs[k].items;
      var restored := RestoreLines(current, invs[k].items);
      if restored.None? {
        if AllListed(products, AllItems(invs)) {
          AllItemsHasMember(products, invs, k);
          assert AllListed(current, invs[k].items);
        }
        return None;
      }
      assert forall i :: 0 <= i < |before| ==> before[i] == (before + invs[k].items)[i];
      assert forall i :: 0 <= i < |invs[k].items| ==> invs[k].items[i] == (before + invs[k].items)[|before| + i];
      assert AllListed(products, before + invs[k].items);
      RestockConcat(products, before, invs[k].items);
      current := restored.value;
      k := k + 1;
    }
    assert invs[..k] == invs;
    return Some(current);
  }

  /** `for invoice in customer.invoices: _update_invoice_status(invoice)`. */
  method ReconcileAll(invs: seq<Invoice>, c: CustomerId, customers: map<CustomerId, Customer>,
                      rs: seq<Receivable>, ts: seq<Transaction>) returns (done: seq<Invoice>)
    ensures done == ReconcileOwnedBy(invs, c, customers, rs, ts)
  {
    done := [];
    var i := 0;
    while i < |invs|
      invariant 0 <= i <= |invs| && |done| == i
      invariant forall k :: 0 <= k < i ==>
        done[k] == if invs[k].customerId == Some(c) then Reconcile(invs[k], customers, rs, ts) else invs[k]
    {
      var inv := invs[i];
      if inv.customerId == Some(c) {
        inv := Reconcile(inv, customers, rs, ts);
      }
      done := done + [inv];
      i := i + 1;
    }
  }

  class Store {
    var customers: map<CustomerId, Customer>
    var products: map<ProductId, Product>
    var transactions: seq<Transaction>
    var receivables: seq<Receivable>
    var invoices: seq<Invoice>
    var nextCustomer: nat
    var nextTransaction: nat
    var nextReceivable: nat
    var nextInvoice: nat

    ghost predicate Valid()
      reads this
    {
      Tables(customers, products, transactions, receivables, invoices,
             nextCustomer, nextTransaction, nextReceivable, nextInvoice)
    }

    /** An empty ledger over an existing product catalogue. */
    constructor (catalog: map<ProductId, Product>)
      requires CodesUnique(catalog)
      ensures Valid()
      ensures customers == map[] && products == catalog
      ensures transactions == [] && receivables == [] && invoices == []
    {
      customers := map[];
      products := catalog;
      transactions := [];
      receivables := [];
      invoices := [];
      nextCustomer := 1;
      nextTransaction := 1;
      nextReceivable := 1;
      nextInvoice := 1;
    }

    // -------------------------------------------------------------------
    // The steps the routes are made of.  Each one keeps `Valid()`.

    /** `db.session.add(transaction)`, then the owner's `update_balance()`. */
    method RecordTransaction(t: Transaction)
      requires Valid() && t.id == nextTransaction && t.customerId in customers
      modifies this
      ensures Valid()
      ensures transactions == old(transactions) + [t] && nextTransaction == old(nextTransaction) + 1
      ensures customers == WithBalance(old(customers), t.customerId, old(customers)[t.customerId].balance + RefundedBy(t) - PaidBy(t))
      ensures unchanged(this`products, this`receivables, this`invoices)
      ensures unchanged(this`nextCustomer, this`nextReceivable, this`nextInvoice)
    {
      var c := t.customerId;
      AppendTransactionKeeps(customers, products, transactions, receivables, invoices, nextCustomer, nextTransaction, nextReceivable, nextInvoice, t);
      var ts := transactions + [t];
      var total := ComputeBalance(ReceivablesOf(receivables, c), TransactionsOf(ts, c));
      assert total == CustomerBalance(receivables, ts, c);
      customers, transactions, nextTransaction := WithBalance(customers, c, total), ts, nextTransaction + 1;
    }

    /** The edited transaction at `i`, then the owner's `update_balance()`
        and `_update_invoice_status` on each of the owner's invoices. */
    method ReviseTransaction(i: nat, t: Transaction)
      requires Valid() && i < |transactions| && t.id == transactions[i].id && t.customerId == transactions[i].customerId
      modifies this
      ensures Valid()
      ensures transactions == old(transactions)[i := t]
      ensures t.customerId in old(customers)
      ensures customers == WithBalance(old(customers), t.customerId, old(customers)[t.customerId].balance + (PaidBy(old(transactions)[i]) - RefundedBy(old(transactions)[i])) - (PaidBy(t) - RefundedBy(t)))
      ensures invoices == ReconcileOwnedBy(old(invoices), t.customerId, customers, receivables, transactions)
      ensures unchanged(this`products, this`receivables)
      ensures unchanged(this`nextCustomer, this`nextTransaction, this`nextReceivable, this`nextInvoice)
    {
      var c := t.customerId;
      ReplaceTransactionKeeps(customers, products, transactions, receivables, invoices, nextCustomer, nextTransaction, nextReceivable, nextInvoice, i, t);
      var ts := transactions[i := t];
      var total := ComputeBalance(ReceivablesOf(receivables, c), TransactionsOf(ts, c));
      assert total == CustomerBalance(receivables, ts, c);
      var cs := WithBalance(customers, c, total);
      var invs := ReconcileAll(invoices, c, cs, receivables, ts);
      customers, transactions, invoices := cs, ts, invs;
    }

    /** `db.session.delete(transaction)`, then the owner's `update_balance()`
        and `_update_invoice_status` on each of the owner's invoices. */
    method DropTransaction(i: nat)
      requires Valid() && i < |transactions|
      modifies this
      ensures Valid()
      ensures transactions == old(transactions)[..i] + old(transactions)[i + 1..]
      ensures old(transactions)[i].customerId in old(customers)
      ensures customers == WithBalance(old(customers), old(transactions)[i].customerId, old(customers)[old(transactions)[i].customerId].balance + PaidBy(old(transactions)[i]) - RefundedBy(old(transactions)[i]))
      ensures invoices == ReconcileOwnedBy(old(invoices), old(transactions)[i].customerId, customers, receivables, transactions)
      ensures unchanged(this`products, this`receivables)
      ensures unchanged(this`nextCustomer, this`nextTransaction, this`nextReceivable, this`nextInvoice)
    {
      var c := transactions[i].customerId;
      RemoveTransactionKeeps(customers, products, transactions, receivables, invoices, nextCustomer, nextTransaction, nextReceivable, nextInvoice, i);
      var ts := transactions[..i] + transactions[i + 1..];
      var total := ComputeBalance(ReceivablesOf(receivables, c), TransactionsOf(ts, c));
      assert total == CustomerBalance(receivables, ts, c);
      var cs := WithBalance(customers, c, total);
      var invs := ReconcileAll(invoices, c, cs, receivables, ts);
      customers, transactions, invoices := cs, ts, invs;
    }

    /** `db.session.add(receivable)`, then the owner's `update_balance()`. */
    method RecordReceivable(r: Receivable)
      requires Valid() && r.id == nextReceivable && r.customerId in customers
      requires r.invoiceId.Some? ==> HasInvoice(invoices, r.invoiceId.value)
      modifies this
      ensures Valid()
      ensures receivables == old(receivables) + [r] && nextReceivable == old(nextReceivable) + 1
      ensures customers == WithBalance(old(customers), r.customerId, old(customers)[r.customerId].balance + DueOn(r))
      ensures unchanged(this`products, this`transactions, this`invoices)
      ensures unchanged(this`nextCustomer, this`nextTransaction, this`nextInvoice)
    {
      var c := r.customerId;
      AppendReceivableKeeps(customers, products, transactions, receivables, invoices, nextCustomer, nextTransaction, nextReceivable, nextInvoice, r);
      var rs := receivables + [r];
      var total := ComputeBalance(ReceivablesOf(rs, c), TransactionsOf(transactions, c));
      assert total == CustomerBalance(rs, transactions, c);
      customers, receivables, nextReceivable := WithBalance(customers, c, total), rs, nextReceivable + 1;
    }

    /** The edited receivable at `i`, then the owner's `update_balance()`. */
    method ReviseReceivable(i: nat, r: Receivable)
      requires Valid() && i < |receivables|
      requires r.id == receivables[i].id && r.customerId == receivables[i].customerId && r.invoiceId == receivables[i].invoiceId
      modifies this
      ensures Valid()
      ensures receivables == old(receivables)[i := r]
      ensures r.customerId in old(customers)
      ensures customers == WithBalance(old(customers), r.customerId, old(customers)[r.customerId].balance + DueOn(r) - DueOn(old(receivables)[i]))
      ensures unchanged(this`products, this`transactions, this`invoices)
      ensures unchanged(this`nextCustomer, this`nextTransaction, this`nextReceivable, this`nextInvoice)
    {
      var c := r.customerId;
      ReplaceReceivableKeeps(customers, products, transactions, receivables, invoices, nextCustomer, nextTransaction, nextReceivable, nextInvoice, i, r);
      var rs := receivables[i := r];
      var total := ComputeBalance(ReceivablesOf(rs, c), TransactionsOf(transactions, c));
      assert total == CustomerBalance(rs, transactions, c);
      customers, receivables := WithBalance(customers, c, total), rs;
    }

    /** `_update_invoice_status(receivable.invoice)` for the linked
        receivable at `i`. */
    method ReconcileLinked(i: nat)
      requires Valid() && i < |receivables| && receivables[i].invoiceId.Some?
      modifies this`invoices
      ensures Valid()
      ensures var j := Find(old(invoices), InvoiceKey, receivables[i].invoiceId.value).value;
        && j < |old(invoices)| && old(invoices)[j].id == receivables[i].invoiceId.value
        && invoices == old(invoices)[j := Reconcile(old(invoices)[j], customers, receivables, transactions)]
    {
      var k := receivables[i].invoiceId.value;
      assert HasInvoice(invoices, k);
      var j := Find(invoices, InvoiceKey, k).value;
      var inv := Reconcile(invoices[j], customers, receivables, transactions);
      ReplaceInvoiceKeeps(customers, products, transactions, receivables, invoices, nextCustomer, nextTransaction, nextReceivable, nextInvoice, j, inv, products);
      invoices := invoices[j := inv];
    }

    /** `invoice.customer_id = None`, `invoice.customer_name = None`,
        `invoice.payment_status = 'pending'` on the invoice the linked
        receivable at `i` refers to. */
    method DetachInvoice(i: nat)
      requires Valid() && i < |receivables| && receivables[i].invoiceId.Some?
      modifies this`invoices
      ensures Valid()
      ensures var j := Find(old(invoices), InvoiceKey, receivables[i].invoiceId.value).value;
        && j < |old(invoices)| && old(invoices)[j].id == receivables[i].invoiceId.value
        && invoices == old(invoices)[j := old(invoices)[j].(customerId := None, customerName := None, status := Pending)]
    {
      var k := receivables[i].invoiceId.value;
      assert HasInvoice(invoices, k);
      var j := Find(invoices, InvoiceKey, k).value;
      var inv := invoices[j].(customerId := None, customerName := None, status := Pending);
      ReplaceInvoiceKeeps(customers, products, transactions, receivables, invoices, nextCustomer, nextTransaction, nextReceivable, nextInvoice, j, inv, products);
      invoices := invoices[j := inv];
    }

    /** `db.session.delete(receivable)`, then the owner's `update_balance()`. */
    method DropReceivable(i: nat)
      requires Valid() && i < |receivables|
      modifies this
      ensures Valid()
      ensures receivables == old(receivables)[..i] + old(receivables)[i + 1..]
      ensures old(receivables)[i].customerId in old(customers)
      ensures customers == WithBalance(old(customers), old(receivables)[i].customerId, old(customers)[old(receivables)[i].customerId].balance - DueOn(old(receivables)[i]))
      ensures unchanged(this`products, this`transactions, this`invoices)
      ensures unchanged(this`nextCustomer, this`nextTransaction, this`nextReceivable, this`nextInvoice)
    {
      var c := receivables[i].customerId;
      RemoveReceivableKeeps(customers, products, transactions, receivables, invoices, nextCustomer, nextTransaction, nextReceivable, nextInvoice, i);
      var rs := receivables[..i] + receivables[i + 1..];
      var total := ComputeBalance(ReceivablesOf(rs, c), TransactionsOf(transactions, c));
      assert total == CustomerBalance(rs, transactions, c);
      customers, receivables := WithBalance(customers, c, total), rs;
    }

    /** The invoice at `j` overwritten by one with the same key, and new
        stock figures. */
    method ReviseInvoice(j: nat, inv: Invoice, stock: map<ProductId, Product>)
      requires Valid() && j < |invoices| && inv.id == invoices[j].id
      requires inv.customerId.Some? ==> inv.customerId.value in customers
      requires CodesUnique(stock)
      modifies this`invoices, this`products
      ensures Valid()
      ensures invoices == old(invoices)[j := inv] && products == stock
    {
      ReplaceInvoiceKeeps(customers, products, transactions, receivables, invoices, nextCustomer, nextTransaction, nextReceivable, nextInvoice, j, inv, stock);
      invoices, products := invoices[j := inv], stock;
    }

    /** `db.session.add(invoice)` with the next key, and new stock figures. */
    method RecordInvoice(inv: Invoice, stock: map<ProductId, Product>)
      requires Valid() && inv.id == nextInvoice
      requires inv.customerId.Some? ==> inv.customerId.value in customers
      requires CodesUnique(stock)
      modifies this`invoices, this`nextInvoice, this`products
      ensures Valid()
      ensures invoices == old(invoices) + [inv] && nextInvoice == old(nextInvoice) + 1 && products == stock
    {
      AppendInvoiceKeeps(customers, products, transactions, receivables, invoices, nextCustomer, nextTransaction, nextReceivable, nextInvoice, inv, stock);
      invoices, nextInvoice, products := invoices + [inv], nextInvoice + 1, stock;
    }

    /** `db.session.delete(invoice)`: its items go with it, the receivables
        that referred to it lose the reference; and new stock figures. */
    method DropInvoice(j: nat, stock: map<ProductId, Product>)
      requires Valid() && j < |invoices| && CodesUnique(stock)
      modifies this`invoices, this`receivables, this`products
      ensures Valid()
      ensures invoices == old(invoices)[..j] + old(invoices)[j + 1..]
      ensures receivables == Unlink(old(receivables), old(invoices)[j].id)
      ensures products == stock
    {
      RemoveInvoiceKeeps(customers, products, transactions, receivables, invoices, nextCustomer, nextTransaction, nextReceivable, nextInvoice, j, stock);
      invoices, receivables, products := invoices[..j] + invoices[j + 1..], Unlink(receivables, invoices[j].id), stock;
    }

    /** `Invoice.query.delete()` while nothing refers to an invoice, and
        new stock figures. */
    method ClearInvoices(stock: map<ProductId, Product>)
      requires Valid() && !AnyLinked(receivables) && CodesUnique(stock)
      modifies this`invoices, this`products
      ensures Valid()
      ensures invoices == [] && products == stock
    {
      ClearInvoicesKeeps(customers, products, transactions, receivables, invoices, nextCustomer, nextTransaction, nextReceivable, nextInvoice, stock);
      invoices, products := [], stock;
    }

    /** New stock figures that keep every item code unique. */
    method Restocked(stock: map<ProductId, Product>)
      requires Valid() && CodesUnique(stock)
      modifies this`products
      ensures Valid() && products == stock
    {
      products := stock;
    }

    /** `customer.update_balance()` on a customer whose balance is current:
        it writes back what is already there. */
    method UpdateBalance(c: CustomerId)
      requires Valid() && c in customers
      modifies this`customers
      ensures Valid() && customers == old(customers)
    {
      var total := ComputeBalance(ReceivablesOf(receivables, c), TransactionsOf(transactions, c));
      assert total == CustomerBalance(receivables, transactions, c);
      RecomputeIsIdentity(customers, receivables, transactions, c);
      customers := WithBalance(customers, c, total);
    }

    // -------------------------------------------------------------------
    // Customers.

    /** `POST /customers`. */
    method AddCustomer(name: Option<string>, phone: Option<string>, email: Option<string>, address: Option<string>)
      returns (r: Result<CustomerId>)
      requires Valid()
      modifies this
      ensures Valid()
      ensures r.Failure? <==> name.None? || name == Some("")
      ensures r.Failure? ==> r.error == Invalid("Name is required") && unchanged(this)
      ensures r.Success? ==>
        && r.value == old(nextCustomer) && r.value !in old(customers)
        && customers == old(customers)[r.value := Customer(name.value, phone, email, address, 0)]
        && nextCustomer == old(nextCustomer) + 1
        && unchanged(this`products, this`transactions, this`receivables, this`invoices)
        && unchanged(this`nextTransaction, this`nextReceivable, this`nextInvoice)
    {
      if name.None? || name.value == "" {
        return Failure(Invalid("Name is required"));
      }
      var id := nextCustomer;
      var cust := Customer(name.value, phone, email, address, 0);
      NewCustomerKeeps(customers, products, transactions, receivables, invoices, nextCustomer, nextTransaction, nextReceivable, nextInvoice, cust);
      customers := customers[id := cust];
      nextCustomer := nextCustomer + 1;
      r := Success(id);
    }

    /** `PUT /customers/<id>`: the contact fields are replaced (an absent
        one becomes empty); the balance is kept. */
    method UpdateCustomer(id: CustomerId, name: Option<string>, phone: Option<string>, email: Option<string>, address: Option<string>)
      returns (r: Outcome)
      requires Valid()
      modifies this
      ensures Valid()
      ensures id !in old(customers) ==> r == Fail(NotFound)
      ensures id in old(customers) && (name.None? || name == Some("")) ==> r == Fail(Invalid("Name is required"))
      ensures r.Ok? <==> id in old(customers) && name.Some? && name != Some("")
      ensures r.Fail? ==> unchanged(this)
      ensures r.Ok? ==>
        && customers == old(customers)[id := old(customers)[id].(name := name.value, phone := phone, email := email, address := address)]
        && unchanged(this`products, this`transactions, this`receivables, this`invoices)
        && unchanged(this`nextCustomer, this`nextTransaction, this`nextReceivable, this`nextInvoice)
    {
      if id !in customers {
        return Fail(NotFound);
      }
      if name.None? || name.value == "" {
        return Fail(Invalid("Name is required"));
      }
      customers := customers[id := customers[id].(name := name.value, phone := phone, email := email, address := address)];
      r := Ok;
    }

    /** `DELETE /customers/<id>`: refused while the customer has invoices;
        otherwise its transactions, its receivables and the customer go. */
    method DeleteCustomer(id: CustomerId) returns (r: Outcome)
      requires Valid()
      modifies this
      ensures Valid()
      ensures id !in old(customers) ==> r == Fail(NotFound)
      ensures id in old(customers) && OwnsInvoices(old(invoices), id) ==>
        r == Fail(Conflict("Cannot delete customer with existing invoices"))
      ensures r.Ok? <==> id in old(customers) && !OwnsInvoices(old(invoices), id)
      ensures r.Fail? ==> unchanged(this)
      ensures r.Ok? ==>
        && customers == old(customers) - {id}
        && transactions == TransactionsNotOf(old(transactions), id)
        && receivables == ReceivablesNotOf(old(receivables), id)
        && unchanged(this`products, this`invoices)
        && unchanged(this`nextCustomer, this`nextTransaction, this`nextReceivable, this`nextInvoice)
      ensures r.Ok? ==>
        && (forall i :: 0 <= i < |transactions| ==> transactions[i].customerId != id)
        && (forall i :: 0 <= i < |receivables| ==> receivables[i].customerId != id)
        && (forall d :: d != id ==> TransactionsOf(transactions, d) == TransactionsOf(old(transactions), d))
        && (forall d :: d != id ==> ReceivablesOf(receivables, d) == ReceivablesOf(old(receivables), d))
    {
      if id !in customers {
        return Fail(NotFound);
      }
      if exists i :: 0 <= i < |invoices| && invoices[i].customerId == Some(id) {
        return Fail(Conflict("Cannot delete customer with existing invoices"));
      }
      ForgetCustomerOwned(customers, transactions, receivables, invoices, id);
      ForgetCustomerBalances(customers, transactions, receivables, id);
      TransactionsNotOfIncreasing(transactions, id, nextTransaction);
      ReceivablesNotOfIncreasing(receivables, id, nextReceivable);
      TransactionsNotOfFacts(transactions, id);
      ReceivablesNotOfFacts(receivables, id);
      ghost var ts, rs := transactions, receivables;
      transactions := TransactionsNotOf(transactions, id);
      receivables := ReceivablesNotOf(receivables, id);
      customers := customers - {id};
      assert forall i :: 0 <= i < |transactions| ==> transactions[i] in transactions;
      assert forall i :: 0 <= i < |receivables| ==> receivables[i] in receivables;
      r := Ok;
    }

    // -------------------------------------------------------------------
    // Payments and receivables.

    /** `POST /customers/payment`: a 'payment' transaction, then the
        payer's balance recomputed.  Invoice statuses are not touched. */
    method AddPayment(req: PaymentRequest) returns (r: Outcome)
      requires Valid()
      modifies this
      ensures Valid()
      ensures req.customerId.None? || req.amount.None? || req.paymentMethod.None? ==>
        r == Fail(Invalid("Missing required fields"))
      ensures req.customerId.Some? && req.amount.Some? && req.paymentMethod.Some? && req.customerId.value !in old(customers) ==>
        r == Fail(NotFound)
      ensures r.Ok? <==>
        req.customerId.Some? && req.amount.Some? && req.paymentMethod.Some? && req.customerId.value in old(customers)
      ensures r.Fail? ==> unchanged(this)
      ensures r.Ok? ==>
        var c := req.customerId.value;
        && transactions == old(transactions) +
             [Transaction(old(nextTransaction), c, req.amount.value, Payment, req.paymentMethod.value, req.referenceNumber, req.notes)]
        && nextTransaction == old(nextTransaction) + 1
        && c in old(customers) && customers == WithBalance(old(customers), c, old(customers)[c].balance - req.amount.value)
        && unchanged(this`products, this`receivables, this`invoices)
        && unchanged(this`nextCustomer, this`nextReceivable, this`nextInvoice)
    {
      if req.customerId.None? || req.amount.None? || req.paymentMethod.None? {
        return Fail(Invalid("Missing required fields"));
      }
      var c := req.customerId.value;
      if c !in customers {
        return Fail(NotFound);
      }
      var t := Transaction(nextTransaction, c, req.amount.value, Payment, req.paymentMethod.value, req.referenceNumber, req.notes);
      assert RefundedBy(t) - PaidBy(t) == -req.amount.value;
      RecordTransaction(t);
      r := Ok;
    }

    /** `POST /customers/<id>/receivable`: an amount owed with its
        notes.  A missing amount fails `float()`; zero or empty notes are
        refused. */
    method AddReceivable(id: CustomerId, amount: Option<int>, notes: Option<string>) returns (r: Outcome)
      requires Valid()
      modifies this
      ensures Valid()
      ensures amount.None? ==> r == Fail(Invalid(FloatOfNone))
      ensures amount.Some? && (amount.value == 0 || notes.None? || notes == Some("")) ==>
        r == Fail(Invalid("Amount and notes are required"))
      ensures amount.Some? && amount.value != 0 && notes.Some? && notes.value != "" && id !in old(customers) ==>
        r == Fail(NotFound)
      ensures r.Ok? <==> amount.Some? && amount.value != 0 && notes.Some? && notes.value != "" && id in old(customers)
      ensures r.Fail? ==> unchanged(this)
      ensures r.Ok? ==>
        && receivables == old(receivables) + [Receivable(old(nextReceivable), id, amount.value, 0, notes.value, None)]
        && nextReceivable == old(nextReceivable) + 1
        && id in old(customers) && customers == WithBalance(old(customers), id, old(customers)[id].balance + amount.value)
        && unchanged(this`products, this`transactions, this`invoices)
        && unchanged(this`nextCustomer, this`nextTransaction, this`nextInvoice)
    {
      if amount.None? {
        return Fail(Invalid(FloatOfNone));
      }
      if amount.value == 0 || notes.None? || notes.value == "" {
        return Fail(Invalid("Amount and notes are required"));
      }
      if id !in customers {
        return Fail(NotFound);
      }
      var rec := Receivable(nextReceivable, id, amount.value, 0, notes.value, None);
      assert DueOn(rec) == amount.value;
      RecordReceivable(rec);
      r := Ok;
    }

    /** `POST /customers/<id>/link-invoice`: the invoice is given to the
        customer and a receivable for its total (plus `additional`) is
        recorded against it.  The invoice's status is not recomputed. */
    method LinkInvoice(id: CustomerId, invoiceId: Option<InvoiceId>, additional: int, notes: string) returns (r: Outcome)
      requires Valid()
      modifies this
      ensures Valid()
      ensures invoiceId.None? || !HasInvoice(old(invoices), invoiceId.value) || id !in old(customers) ==> r == Fail(NotFound)
      ensures r.Ok? <==> invoiceId.Some? && HasInvoice(old(invoices), invoiceId.value) && id in old(customers)
      ensures r.Fail? ==> unchanged(this)
      ensures r.Ok? ==>
        var k := invoiceId.value;
        var j := Find(old(invoices), InvoiceKey, k).value;
        && j < |old(invoices)| && old(invoices)[j].id == k
        && invoices == old(invoices)[j := old(invoices)[j].(customerId := Some(id), customerName := Some(old(customers)[id].name))]
        && receivables == old(receivables) + [Receivable(old(nextReceivable), id, old(invoices)[j].totalAmount, additional, notes, Some(k))]
        && nextReceivable == old(nextReceivable) + 1
        && id in old(customers) && customers == WithBalance(old(customers), id, old(customers)[id].balance + old(invoices)[j].totalAmount + additional)
        && unchanged(this`products, this`transactions)
        && unchanged(this`nextCustomer, this`nextTransaction, this`nextInvoice)
    {
      if invoiceId.None? {
        return Fail(NotFound);
      }
      var k := invoiceId.value;
      var found := Find(invoices, InvoiceKey, k);
      if found.None? {
        return Fail(NotFound);
      }
      if id !in customers {
        return Fail(NotFound);
      }
      var j := found.value;
      var inv := invoices[j];
      ReviseInvoice(j, inv.(customerId := Some(id), customerName := Some(customers[id].name)), products);
      assert HasInvoice(invoices, k) by {
        assert invoices[j].id == k;
      }
      var rec := Receivable(nextReceivable, id, inv.totalAmount, additional, notes, Some(k));
      assert DueOn(rec) == inv.totalAmount + additional;
      RecordReceivable(rec);
      r := Ok;
    }

    // -------------------------------------------------------------------
    // Editing and deleting ledger rows.

    /** `PUT /customers/transaction/<id>`: amount and payment method are
        required keys (the method may be `null`, stored as it is),
        reference and notes replaced; the type is kept.  The
        owner's balance is recomputed and each of the owner's invoices gets
        the owner's status. */
    method EditTransaction(id: TransactionId, amount: Option<int>, paymentMethod: Option<Option<string>>,
                           referenceNumber: Option<string>, notes: Option<string>) returns (r: Outcome)
      requires Valid()
      modifies this
      ensures Valid()
      ensures Find(old(transactions), TransactionKey, id).None? ==> r == Fail(NotFound)
      ensures Find(old(transactions), TransactionKey, id).Some? && amount.None? ==> r == Fail(Invalid("'amount'"))
      ensures Find(old(transactions), TransactionKey, id).Some? && amount.Some? && paymentMethod.None? ==>
        r == Fail(Invalid("'payment_method'"))
      ensures r.Ok? <==> Find(old(transactions), TransactionKey, id).Some? && amount.Some? && paymentMethod.Some?
      ensures r.Fail? ==> unchanged(this)
      ensures r.Ok? ==>
        var i := Find(old(transactions), TransactionKey, id).value;
        var was := old(transactions)[i];
        var t := was.(amount := amount.value, paymentMethod := paymentMethod.value, referenceNumber := referenceNumber, notes := notes);
        var c := was.customerId;
        && transactions == old(transactions)[i := t]
        && c in old(customers) && customers == WithBalance(old(customers), c, old(customers)[c].balance + (PaidBy(was) - RefundedBy(was)) - (PaidBy(t) - RefundedBy(t)))
        && invoices == ReconcileOwnedBy(old(invoices), c, customers, receivables, transactions)
        && unchanged(this`products, this`receivables)
        && unchanged(this`nextCustomer, this`nextTransaction, this`nextReceivable, this`nextInvoice)
    {
      var found := Find(transactions, TransactionKey, id);
      if found.None? {
        return Fail(NotFound);
      }
      if amount.None? {
        return Fail(Invalid("'amount'"));
      }
      if paymentMethod.None? {
        return Fail(Invalid("'payment_method'"));
      }
      var i := found.value;
      var was := transactions[i];
      ReviseTransaction(i, was.(amount := amount.value, paymentMethod := paymentMethod.value, referenceNumber := referenceNumber, notes := notes));
      r := Ok;
    }

    /** `DELETE /customers/transaction/<id>`: the row goes, the owner's
        balance is recomputed and the owner's invoices reconciled. */
    method DeleteTransaction(id: TransactionId) returns (r: Outcome)
      requires Valid()
      modifies this
      ensures Valid()
      ensures r.Ok? <==> Find(old(transactions), TransactionKey, id).Some?
      ensures r.Fail? ==> r == Fail(NotFound) && unchanged(this)
      ensures r.Ok? ==>
        var i := Find(old(transactions), TransactionKey, id).value;
        var was := old(transactions)[i];
        var c := was.customerId;
        && transactions == old(transactions)[..i] + old(transactions)[i + 1..]
        && c in old(customers) && customers == WithBalance(old(customers), c, old(customers)[c].balance + PaidBy(was) - RefundedBy(was))
        && invoices == ReconcileOwnedBy(old(invoices), c, customers, receivables, transactions)
        && unchanged(this`products, this`receivables)
        && unchanged(this`nextCustomer, this`nextTransaction, this`nextReceivable, this`nextInvoice)
    {
      var found := Find(transactions, TransactionKey, id);
      if found.None? {
        return Fail(NotFound);
      }
      DropTransaction(found.value);
      r := Ok;
    }

    /** `PUT /customers/receivable/<id>`: amount and notes are required,
        the additional amount replaced.  The owner's balance is recomputed;
        a linked invoice gets the status of its own customer. */
    method EditReceivable(id: ReceivableId, amount: Option<int>, additional: int, notes: Option<string>) returns (r: Outcome)
      requires Valid()
      modifies this
      ensures Valid()
      ensures Find(old(receivables), ReceivableKey, id).None? ==> r == Fail(NotFound)
      ensures Find(old(receivables), ReceivableKey, id).Some? && amount.None? ==> r == Fail(Invalid("'amount'"))
      ensures Find(old(receivables), ReceivableKey, id).Some? && amount.Some? && notes.None? ==> r == Fail(Invalid("'notes'"))
      ensures r.Ok? <==> Find(old(receivables), ReceivableKey, id).Some? && amount.Some? && notes.Some?
      ensures r.Fail? ==> unchanged(this)
      ensures r.Ok? ==>
        var i := Find(old(receivables), ReceivableKey, id).value;
        var was := old(receivables)[i];
        var rec := was.(amount := amount.value, additionalAmount := additional, notes := notes.value);
        var c := was.customerId;
        && receivables == old(receivables)[i := rec]
        && c in old(customers) && customers == WithBalance(old(customers), c, old(customers)[c].balance + DueOn(rec) - DueOn(was))
        && (was.invoiceId.None? ==> invoices == old(invoices))
        && (was.invoiceId.Some? ==>
              var j := Find(old(invoices), InvoiceKey, was.invoiceId.value).value;
              && j < |old(invoices)| && old(invoices)[j].id == was.invoiceId.value
              && invoices == old(invoices)[j := Reconcile(old(invoices)[j], customers, receivables, transactions)])
        && unchanged(this`products, this`transactions)
        && unchanged(this`nextCustomer, this`nextTransaction, this`nextReceivable, this`nextInvoice)
    {
      var found := Find(receivables, ReceivableKey, id);
      if found.None? {
        return Fail(NotFound);
      }
      if amount.None? {
        return Fail(Invalid("'amount'"));
      }
      if notes.None? {
        return Fail(Invalid("'notes'"));
      }
      var i := found.value;
      var was := receivables[i];
      ReviseReceivable(i, was.(amount := amount.value, additionalAmount := additional, notes := notes.value));
      if was.invoiceId.Some? {
        ReconcileLinked(i);
      }
      r := Ok;
    }

    /** `DELETE /customers/receivable/<id>`: a linked invoice loses its
        customer and goes back to 'pending'; the row goes and the owner's
        balance is recomputed. */
    method DeleteReceivable(id: ReceivableId) returns (r: Outcome)
      requires Valid()
      modifies this
      ensures Valid()
      ensures r.Ok? <==> Find(old(receivables), ReceivableKey, id).Some?
      ensures r.Fail? ==> r == Fail(NotFound) && unchanged(this)
      ensures r.Ok? ==>
        var i := Find(old(receivables), ReceivableKey, id).value;
        var was := old(receivables)[i];
        var c := was.customerId;
        && receivables == old(receivables)[..i] + old(receivables)[i + 1..]
        && c in old(customers) && customers == WithBalance(old(customers), c, old(customers)[c].balance - DueOn(was))
        && (was.invoiceId.None? ==> invoices == old(invoices))
        && (was.invoiceId.Some? ==>
              var j := Find(old(invoices), InvoiceKey, was.invoiceId.value).value;
              && j < |old(invoices)| && old(invoices)[j].id == was.invoiceId.value
              && invoices == old(invoices)[j := old(invoices)[j].(customerId := None, customerName := None, status := Pending)])
        && unchanged(this`products, this`transactions)
        && unchanged(this`nextCustomer, this`nextTransaction, this`nextReceivable, this`nextInvoice)
    {
      var found := Find(receivables, ReceivableKey, id);
      if found.None? {
        return Fail(NotFound);
      }
      var i := found.value;
      if receivables[i].invoiceId.Some? {
        DetachInvoice(i);
      }
      DropReceivable(i);
      r := Ok;
    }

    // -------------------------------------------------------------------
    // Invoices and stock.

    /** `POST /new_invoice`: today's next order number, each line's quantity
        taken off its product's stock, and the invoice saved as 'pending'
        for the customer, if one is named. */
    method CreateInvoice(req: InvoiceRequest, today: Date) returns (r: Result<InvoiceId>)
      requires Valid()
      modifies this
      ensures Valid()
      ensures NextOrderNumber(old(invoices), today).None? ==> r == Failure(Invalid(BadOrderNumber))
      ensures NextOrderNumber(old(invoices), today).Some? && !AllListed(old(products), req.items) ==> r == Failure(NotFound)
      ensures (&& NextOrderNumber(old(invoices), today).Some? && AllListed(old(products), req.items)
               && req.customerId.Some? && req.customerId.value !in old(customers)) ==> r == Failure(NotFound)
      ensures r.Success? <==> (&& NextOrderNumber(old(invoices), today).Some? && AllListed(old(products), req.items)
                               && (req.customerId.Some? ==> req.customerId.value in old(customers)))
      ensures r.Failure? ==> unchanged(this)
      ensures r.Success? ==>
        && r.value == old(nextInvoice)
        && invoices == old(invoices) + [Invoice(old(nextInvoice), NextOrderNumber(old(invoices), today).value, req.date,
                                                req.customerId, req.customerName, req.totalAmount, req.totalItems, req.items, Pending)]
        && nextInvoice == old(nextInvoice) + 1
        && AllListed(old(products), req.items) && products == Withdraw(old(products), req.items)
        && unchanged(this`customers, this`transactions, this`receivables)
        && unchanged(this`nextCustomer, this`nextTransaction, this`nextReceivable)
    {
      var number := NextOrderNumber(invoices, today);
      if number.None? {
        return Failure(Invalid(BadOrderNumber));
      }
      var sold := SellLines(products, req.items);
      if sold.None? {
        return Failure(NotFound);
      }
      if req.customerId.Some? && req.customerId.value !in customers {
        return Failure(NotFound);
      }
      WithdrawKeepsCodes(products, req.items);
      var id := nextInvoice;
      RecordInvoice(Invoice(id, number.value, req.date, req.customerId, req.customerName, req.totalAmount, req.totalItems, req.items, Pending),
                    sold.value);
      if req.customerId.Some? {
        UpdateBalance(req.customerId.value);
      }
      r := Success(id);
    }

    /** `PUT /invoices/<id>`: the old lines give their quantities back, the
        new lines take theirs, and date, name, totals and lines are replaced;
        the customer and the status stay. */
    method EditInvoice(id: InvoiceId, edit: InvoiceEdit) returns (r: Outcome)
      requires Valid()
      modifies this
      ensures Valid()
      ensures r.Ok? <==> (&& Find(old(invoices), InvoiceKey, id).Some?
                          && AllListed(old(products), old(invoices)[Find(old(invoices), InvoiceKey, id).value].items)
                          && AllListed(old(products), edit.items))
      ensures r.Fail? ==> r == Fail(NotFound) && unchanged(this)
      ensures r.Ok? ==>
        var j := Find(old(invoices), InvoiceKey, id).value;
        var was := old(invoices)[j];
        && invoices == old(invoices)[j := was.(date := edit.date, customerName := edit.customerName, totalAmount := edit.totalAmount,
                                               totalItems := edit.totalItems, items := edit.items)]
        && AllListed(old(products), was.items) && AllListed(Restock(old(products), was.items), edit.items)
        && products == Withdraw(Restock(old(products), was.items), edit.items)
        && products.Keys == old(products).Keys
        && (forall p :: p in old(products) ==>
              products[p] == old(products)[p].(stock := old(products)[p].stock + QtyOf(was.items, p) - QtyOf(edit.items, p)))
        && unchanged(this`customers, this`transactions, this`receivables)
        && unchanged(this`nextCustomer, this`nextTransaction, this`nextReceivable, this`nextInvoice)
    {
      var found := Find(invoices, InvoiceKey, id);
      if found.None? {
        return Fail(NotFound);
      }
      var j := found.value;
      var was := invoices[j];
      var restored := RestoreLines(products, was.items);
      if restored.None? {
        return Fail(NotFound);
      }
      var sold := SellLines(restored.value, edit.items);
      if sold.None? {
        return Fail(NotFound);
      }
      EditEffect(products, was.items, edit.items);
      RestockKeepsCodes(products, was.items);
      WithdrawKeepsCodes(restored.value, edit.items);
      ReviseInvoice(j, was.(date := edit.date, customerName := edit.customerName, totalAmount := edit.totalAmount,
                            totalItems := edit.totalItems, items := edit.items), sold.value);
      r := Ok;
    }

    /** `DELETE /invoices/<id>`: with `restore_stock` the lines give their
        quantities back; the invoice and its lines go, and receivables that
        referred to it keep their amounts but lose the reference. */
    method DeleteInvoice(id: InvoiceId, restoreStock: bool) returns (r: Outcome)
      requires Valid()
      modifies this
      ensures Valid()
      ensures r.Ok? <==> (&& Find(old(invoices), InvoiceKey, id).Some?
                          && (restoreStock ==> AllListed(old(products), old(invoices)[Find(old(invoices), InvoiceKey, id).value].items)))
      ensures r.Fail? ==> r == Fail(NotFound) && unchanged(this)
      ensures r.Ok? ==>
        var j := Find(old(invoices), InvoiceKey, id).value;
        var was := old(invoices)[j];
        && invoices == old(invoices)[..j] + old(invoices)[j + 1..]
        && receivables == Unlink(old(receivables), id)
        && (restoreStock ==> AllListed(old(products), was.items) && products == Restock(old(products), was.items))
        && (!restoreStock ==> products == old(products))
        && unchanged(this`customers, this`transactions)
        && unchanged(this`nextCustomer, this`nextTransaction, this`nextReceivable, this`nextInvoice)
    {
      var found := Find(invoices, InvoiceKey, id);
      if found.None? {
        return Fail(NotFound);
      }
      var j := found.value;
      var stock := products;
      if restoreStock {
        var restored := RestoreLines(products, invoices[j].items);
        if restored.None? {
          return Fail(NotFound);
        }
        RestockKeepsCodes(products, invoices[j].items);
        stock := restored.value;
      }
      DropInvoice(j, stock);
      r := Ok;
    }

    /** `DELETE /invoices/delete_all`: with `restore_stock` every line of
        every invoice gives its quantity back; then all invoices go, which
        the foreign key refuses while a receivable still refers to one. */
    method DeleteAllInvoices(restoreStock: bool) returns (r: Outcome)
      requires Valid()
      modifies this
      ensures Valid()
      ensures restoreStock && !AllListed(old(products), AllItems(old(invoices))) ==> r == Fail(NotFound)
      ensures (!restoreStock || AllListed(old(products), AllItems(old(invoices)))) && AnyLinked(old(receivables)) ==>
        r == Fail(Conflict(InvoiceStillReferenced))
      ensures r.Ok? <==> (!restoreStock || AllListed(old(products), AllItems(old(invoices)))) && !AnyLinked(old(receivables))
      ensures r.Fail? ==> unchanged(this)
      ensures r.Ok? ==>
        && invoices == []
        && (restoreStock ==> AllListed(old(products), AllItems(old(invoices))) && products == Restock(old(products), AllItems(old(invoices))))
        && (!restoreStock ==> products == old(products))
        && unchanged(this`customers, this`transactions, this`receivables)
        && unchanged(this`nextCustomer, this`nextTransaction, this`nextReceivable, this`nextInvoice)
    {
      var stock := products;
      if restoreStock {
        var restored := RestoreAll(products, invoices);
        if restored.None? {
          return Fail(NotFound);
        }
        RestockKeepsCodes(products, AllItems(invoices));
        stock := restored.value;
      }
      if AnyLinked(receivables) {
        return Fail(Conflict(InvoiceStillReferenced));
      }
      ClearInvoices(stock);
      r := Ok;
    }

    /** `POST /products/<id>/stock`: `change` (0 when absent) is added to
        the stock, with no floor; the new stock is returned. */
    method AdjustStock(id: ProductId, change: Option<int>) returns (r: Result<int>)
      requires Valid()
      modifies this
      ensures Valid()
      ensures r.Success? <==> id in old(products)
      ensures r.Failure? ==> r == Failure(NotFound) && unchanged(this)
      ensures r.Success? ==>
        var delta := if change.Some? then change.value else 0;
        && r.value == old(products)[id].stock + delta
        && products == old(products)[id := old(products)[id].(stock := r.value)]
        && unchanged(this`customers, this`transactions, this`receivables, this`invoices)
        && unchanged(this`nextCustomer, this`nextTransaction, this`nextReceivable, this`nextInvoice)
    {
      if id !in products {
        return Failure(NotFound);
      }
      var delta := if change.Some? then change.value else 0;
      ShiftKeepsCodes(products, id, delta);
      Restocked(Shift(products, id, delta));
      r := Success(products[id].stock);
    }

    /** `PUT /products/<id>`: refused as a whole when the user may not edit
        one of the fields sent; otherwise the fields sent are written, which
        the unique item code refuses when another product has the new code. */
    method UpdateProduct(u: User, id: ProductId, patch: Patch) returns (r: Outcome)
      requires Valid()
      modifies this
      ensures Valid()
      ensures id !in old(products) ==> r == Fail(NotFound)
      ensures id in old(products) && Gate(u, old(products)[id], patch).Failure? ==>
        r == Fail(Gate(u, old(products)[id], patch).error)
      ensures (&& id in old(products) && Gate(u, old(products)[id], patch).Success?
               && CodeTaken(old(products), id, Gate(u, old(products)[id], patch).value.itemCode)) ==> r == Fail(Conflict(DuplicateItemCode))
      ensures r.Ok? <==> (&& id in old(products) && Gate(u, old(products)[id], patch).Success?
                          && !CodeTaken(old(products), id, Gate(u, old(products)[id], patch).value.itemCode))
      ensures r.Fail? ==> unchanged(this)
      ensures r.Ok? ==>
        && products == old(products)[id := Apply(old(products)[id], patch)]
        && unchanged(this`customers, this`transactions, this`receivables, this`invoices)
        && unchanged(this`nextCustomer, this`nextTransaction, this`nextReceivable, this`nextInvoice)
    {
      if id !in products {
        return Fail(NotFound);
      }
      var gated := Gate(u, products[id], patch);
      if gated.Failure? {
        return Fail(gated.error);
      }
      if CodeTaken(products, id, gated.value.itemCode) {
        return Fail(Conflict(DuplicateItemCode));
      }
      EditKeepsCodes(products, id, gated.value);
      Restocked(products[id := gated.value]);
      r := Ok;
    }
  }
}
