/** The constraints the database keeps between its tables — primary keys,
    foreign keys, the unique item code — together with the rule that every
    stored customer balance is the one recomputed from the ledger, stated
    on table values, and the facts that show each kind of edit keeps them. */
module Integrity {
  import opened Wrappers
  import opened Ledger
  import opened Inventory
  import opened Invoicing

  // ---------------------------------------------------------------------
  // Primary keys: the `id` column of a table holds strictly increasing
  // keys, every one below the next one the table's sequence hands out.

  function TransactionKey(t: Transaction): nat { t.id }
  function ReceivableKey(r: Receivable): nat { r.id }
  function InvoiceKey(inv: Invoice): nat { inv.id }

  /** Each row's key is below the key of the row after it, and the last
      one below `next`. */
  predicate Increasing<T>(xs: seq<T>, key: T -> nat, next: nat) {
    xs == [] || (key(xs[|xs| - 1]) < next && Increasing(xs[..|xs| - 1], key, key(xs[|xs| - 1])))
  }

  /** The pairwise reading: later rows have larger keys, all below `next`. */
  lemma {:induction false} IncreasingPairwise<T>(xs: seq<T>, key: T -> nat, next: nat)
    requires Increasing(xs, key, next)
    ensures forall i, j :: 0 <= i < j < |xs| ==> key(xs[i]) < key(xs[j])
    ensures forall i :: 0 <= i < |xs| ==> key(xs[i]) < next
  {
    if xs != [] {
      var init := xs[..|xs| - 1];
      IncreasingPairwise(init, key, key(xs[|xs| - 1]));
      assert forall i :: 0 <= i < |init| ==> xs[i] == init[i];
    }
  }

  lemma {:induction false} PairwiseIncreasing<T>(xs: seq<T>, key: T -> nat, next: nat)
    requires forall i, j :: 0 <= i < j < |xs| ==> key(xs[i]) < key(xs[j])
    requires forall i :: 0 <= i < |xs| ==> key(xs[i]) < next
    ensures Increasing(xs, key, next)
  {
    if xs != [] {
      var init := xs[..|xs| - 1];
      assert forall i :: 0 <= i < |init| ==> init[i] == xs[i];
      PairwiseIncreasing(init, key, key(xs[|xs| - 1]));
    }
  }

  /** `Query.get(k)`: the position of the row with key `k`. */
  function Find<T>(xs: seq<T>, key: T -> nat, k: nat): (r: Option<nat>)
    ensures r.None? <==> forall i :: 0 <= i < |xs| ==> key(xs[i]) != k
    ensures r.Some? ==> r.value < |xs| && key(xs[r.value]) == k
  {
    if xs == [] then None
    else if key(xs[|xs| - 1]) == k then Some(|xs| - 1)
    else Find(xs[..|xs| - 1], key, k)
  }

  /** With increasing keys the row found is the only one with that key. */
  lemma FindIsUnique<T>(xs: seq<T>, key: T -> nat, next: nat, i: nat)
    requires Increasing(xs, key, next) && i < |xs|
    ensures Find(xs, key, key(xs[i])) == Some(i)
  {
    IncreasingPairwise(xs, key, next);
    var j := Find(xs, key, key(xs[i])).value;
    assert !(i < j) && !(j < i);
  }

  /** A row with the key the sequence hands out goes at the end. */
  lemma IncreasingAppend<T>(xs: seq<T>, key: T -> nat, next: nat, x: T)
    requires Increasing(xs, key, next) && key(x) == next
    ensures Increasing(xs + [x], key, next + 1)
  {
    assert (xs + [x])[..|xs|] == xs;
  }

  lemma IncreasingRemove<T>(xs: seq<T>, key: T -> nat, next: nat, i: nat)
    requires Increasing(xs, key, next) && i < |xs|
    ensures Increasing(xs[..i] + xs[i + 1..], key, next)
  {
    IncreasingPairwise(xs, key, next);
    var ys := xs[..i] + xs[i + 1..];
    assert forall k :: 0 <= k < |ys| ==> ys[k] == if k < i then xs[k] else xs[k + 1];
    PairwiseIncreasing(ys, key, next);
  }

  /** Rows edited without touching their keys keep the order. */
  lemma {:induction false} IncreasingSameKeys<T>(xs: seq<T>, ys: seq<T>, key: T -> nat, next: nat)
    requires Increasing(xs, key, next) && |ys| == |xs|
    requires forall i :: 0 <= i < |xs| ==> key(ys[i]) == key(xs[i])
    ensures Increasing(ys, key, next)
  {
    IncreasingPairwise(xs, key, next);
    PairwiseIncreasing(ys, key, next);
  }

  /** A larger bound is also a bound. */
  lemma IncreasingRaise<T>(xs: seq<T>, key: T -> nat, next: nat, next': nat)
    requires Increasing(xs, key, next) && next <= next'
    ensures Increasing(xs, key, next')
  {
  }

  // ---------------------------------------------------------------------
  // Foreign keys and the unique column.

  /** `customer_id` of every transaction and receivable names a customer. */
  predicate RowsOwned(customers: map<CustomerId, Customer>, ts: seq<Transaction>, rs: seq<Receivable>) {
    && (forall i :: 0 <= i < |ts| ==> ts[i].customerId in customers)
    && (forall i :: 0 <= i < |rs| ==> rs[i].customerId in customers)
  }

  /** An invoice's `customer_id`, when set, names a customer. */
  predicate InvoicesOwned(customers: map<CustomerId, Customer>, invs: seq<Invoice>) {
    forall i :: 0 <= i < |invs| && invs[i].customerId.Some? ==> invs[i].customerId.value in customers
  }

  predicate HasInvoice(invs: seq<Invoice>, k: InvoiceId) {
    exists j :: 0 <= j < |invs| && invs[j].id == k
  }

  /** A receivable's `invoice_id`, when set, names an invoice. */
  predicate LinksResolve(rs: seq<Receivable>, invs: seq<Invoice>) {
    forall i :: 0 <= i < |rs| && rs[i].invoiceId.Some? ==> HasInvoice(invs, rs[i].invoiceId.value)
  }

  /** `item_code` is `unique=True`. */
  predicate CodesUnique(products: map<ProductId, Product>) {
    forall p, q :: p in products && q in products && p != q ==> products[p].itemCode != products[q].itemCode
  }

  /** Every stored balance is the one `update_balance` would compute. */
  predicate BalancesCurrent(customers: map<CustomerId, Customer>, rs: seq<Receivable>, ts: seq<Transaction>) {
    forall c {:trigger CustomerBalance(rs, ts, c)} :: c in customers ==> customers[c].balance == CustomerBalance(rs, ts, c)
  }

  /** Invoices edited without touching their ids still resolve every link. */
  lemma LinksSameIds(rs: seq<Receivable>, invs: seq<Invoice>, invs': seq<Invoice>)
    requires LinksResolve(rs, invs) && |invs'| == |invs|
    requires forall j :: 0 <= j < |invs| ==> invs'[j].id == invs[j].id
    ensures LinksResolve(rs, invs')
  {
    forall i | 0 <= i < |rs| && rs[i].invoiceId.Some?
      ensures HasInvoice(invs', rs[i].invoiceId.value)
    {
      var j :| 0 <= j < |invs| && invs[j].id == rs[i].invoiceId.value;
      assert invs'[j].id == rs[i].invoiceId.value;
    }
  }

  /** An appended invoice keeps every link resolving. */
  lemma LinksAppendInvoice(rs: seq<Receivable>, invs: seq<Invoice>, inv: Invoice)
    requires LinksResolve(rs, invs)
    ensures LinksResolve(rs, invs + [inv])
  {
    forall i | 0 <= i < |rs| && rs[i].invoiceId.Some?
      ensures HasInvoice(invs + [inv], rs[i].invoiceId.value)
    {
      var j :| 0 <= j < |invs| && invs[j].id == rs[i].invoiceId.value;
      assert (invs + [inv])[j] == invs[j];
    }
  }

  /** Stock edits keep the item codes, hence their uniqueness. */
  lemma CodesSameCodes(products: map<ProductId, Product>, products': map<ProductId, Product>)
    requires CodesUnique(products) && products'.Keys == products.Keys
    requires forall p :: p in products ==> products'[p].itemCode == products[p].itemCode
    ensures CodesUnique(products')
  {
  }

  lemma WithdrawKeepsCodes(products: map<ProductId, Product>, lines: seq<LineItem>)
    requires CodesUnique(products) && AllListed(products, lines)
    ensures CodesUnique(Withdraw(products, lines))
  {
    WithdrawEffect(products, lines);
    CodesSameCodes(products, Withdraw(products, lines));
  }

  lemma RestockKeepsCodes(products: map<ProductId, Product>, lines: seq<LineItem>)
    requires CodesUnique(products) && AllListed(products, lines)
    ensures CodesUnique(Restock(products, lines))
  {
    RestockEffect(products, lines);
    CodesSameCodes(products, Restock(products, lines));
  }

  // ---------------------------------------------------------------------
  // Balances under an edit of one customer's rows.

  /** If only customer `c`'s rows changed, recomputing `c`'s balance makes
      every balance current again. */
  lemma BalancesAfterEdit(customers: map<CustomerId, Customer>, rs: seq<Receivable>, ts: seq<Transaction>,
                          rs': seq<Receivable>, ts': seq<Transaction>, c: CustomerId)
    requires BalancesCurrent(customers, rs, ts) && c in customers
    requires forall d :: d in customers && d != c ==>
      ReceivablesOf(rs', d) == ReceivablesOf(rs, d) && TransactionsOf(ts', d) == TransactionsOf(ts, d)
    ensures BalancesCurrent(customers[c := customers[c].(balance := CustomerBalance(rs', ts', c))], rs', ts')
  {
    var after := customers[c := customers[c].(balance := CustomerBalance(rs', ts', c))];
    forall d | d in after
      ensures after[d].balance == CustomerBalance(rs', ts', d)
    {
      if d != c {
        assert after[d] == customers[d];
        assert customers[d].balance == CustomerBalance(rs, ts, d);
      }
    }
  }

  lemma OthersAfterAppendTransaction(ts: seq<Transaction>, t: Transaction)
    ensures forall d :: d != t.customerId ==> TransactionsOf(ts + [t], d) == TransactionsOf(ts, d)
  {
    forall d | d != t.customerId
      ensures TransactionsOf(ts + [t], d) == TransactionsOf(ts, d)
    {
      AppendTransaction(ts, t, d);
      assert TransactionsOf(ts, d) + [] == TransactionsOf(ts, d);
    }
  }

  lemma OthersAfterAppendReceivable(rs: seq<Receivable>, r: Receivable)
    ensures forall d :: d != r.customerId ==> ReceivablesOf(rs + [r], d) == ReceivablesOf(rs, d)
  {
    forall d | d != r.customerId
      ensures ReceivablesOf(rs + [r], d) == ReceivablesOf(rs, d)
    {
      AppendReceivable(rs, r, d);
      assert ReceivablesOf(rs, d) + [] == ReceivablesOf(rs, d);
    }
  }

  lemma OthersAfterReplaceTransaction(ts: seq<Transaction>, i: nat, t: Transaction)
    requires i < |ts| && t.customerId == ts[i].customerId
    ensures forall d :: d != t.customerId ==> TransactionsOf(ts[i := t], d) == TransactionsOf(ts, d)
  {
    forall d | d != t.customerId
      ensures TransactionsOf(ts[i := t], d) == TransactionsOf(ts, d)
    {
      ReplaceTransaction(ts, i, t, d);
    }
  }

  lemma OthersAfterReplaceReceivable(rs: seq<Receivable>, i: nat, r: Receivable)
    requires i < |rs| && r.customerId == rs[i].customerId
    ensures forall d :: d != r.customerId ==> ReceivablesOf(rs[i := r], d) == ReceivablesOf(rs, d)
  {
    forall d | d != r.customerId
      ensures ReceivablesOf(rs[i := r], d) == ReceivablesOf(rs, d)
    {
      ReplaceReceivable(rs, i, r, d);
    }
  }

  lemma OthersAfterRemoveTransaction(ts: seq<Transaction>, i: nat)
    requires i < |ts|
    ensures forall d :: d != ts[i].customerId ==> TransactionsOf(ts[..i] + ts[i + 1..], d) == TransactionsOf(ts, d)
  {
    forall d | d != ts[i].customerId
      ensures TransactionsOf(ts[..i] + ts[i + 1..], d) == TransactionsOf(ts, d)
    {
      RemoveTransaction(ts, i, d);
      assert TransactionsOf(ts[..i], d) + [] == TransactionsOf(ts[..i], d);
    }
  }

  lemma OthersAfterRemoveReceivable(rs: seq<Receivable>, i: nat)
    requires i < |rs|
    ensures forall d :: d != rs[i].customerId ==> ReceivablesOf(rs[..i] + rs[i + 1..], d) == ReceivablesOf(rs, d)
  {
    forall d | d != rs[i].customerId
      ensures ReceivablesOf(rs[..i] + rs[i + 1..], d) == ReceivablesOf(rs, d)
    {
      RemoveReceivable(rs, i, d);
      assert ReceivablesOf(rs[..i], d) + [] == ReceivablesOf(rs[..i], d);
    }
  }

  // ---------------------------------------------------------------------
  // Deleting a customer's rows (`filter_by(customer_id=id).delete()`).

  /** The transactions that do not belong to `c`, in their order. */
  function TransactionsNotOf(ts: seq<Transaction>, c: CustomerId): seq<Transaction> {
    if ts == [] then []
    else TransactionsNotOf(ts[..|ts| - 1], c) + (if ts[|ts| - 1].customerId != c then [ts[|ts| - 1]] else [])
  }

  function ReceivablesNotOf(rs: seq<Receivable>, c: CustomerId): seq<Receivable> {
    if rs == [] then []
    else ReceivablesNotOf(rs[..|rs| - 1], c) + (if rs[|rs| - 1].customerId != c then [rs[|rs| - 1]] else [])
  }

  /** The bulk delete removes exactly `c`'s transactions and leaves every
      other customer's collection as it was. */
  lemma {:induction false} TransactionsNotOfFacts(ts: seq<Transaction>, c: CustomerId)
    ensures forall t :: t in TransactionsNotOf(ts, c) <==> t in ts && t.customerId != c
    ensures forall d :: d != c ==> TransactionsOf(TransactionsNotOf(ts, c), d) == TransactionsOf(ts, d)
  {
    if ts != [] {
      var init, last := ts[..|ts| - 1], ts[|ts| - 1];
      TransactionsNotOfFacts(init, c);
      assert ts == init + [last];
      var kept := TransactionsNotOf(init, c);
      var tail: seq<Transaction> := if last.customerId != c then [last] else [];
      forall d | d != c
        ensures TransactionsOf(TransactionsNotOf(ts, c), d) == TransactionsOf(ts, d)
      {
        TransactionsOfConcat(kept, tail, d);
        assert tail == [] ==> TransactionsOf(tail, d) == [];
        assert tail != [] ==> TransactionsOf(tail, d) == TransactionsOf([], d) + (if last.customerId == d then [last] else []) by {
          assert tail != [] ==> tail[..0] == [];
        }
        AppendTransaction(init, last, d);
      }
    }
  }

  lemma {:induction false} ReceivablesNotOfFacts(rs: seq<Receivable>, c: CustomerId)
    ensures forall r :: r in ReceivablesNotOf(rs, c) <==> r in rs && r.customerId != c
    ensures forall d :: d != c ==> ReceivablesOf(ReceivablesNotOf(rs, c), d) == ReceivablesOf(rs, d)
  {
    if rs != [] {
      var init, last := rs[..|rs| - 1], rs[|rs| - 1];
      ReceivablesNotOfFacts(init, c);
      assert rs == init + [last];
      var kept := ReceivablesNotOf(init, c);
      var tail: seq<Receivable> := if last.customerId != c then [last] else [];
      forall d | d != c
        ensures ReceivablesOf(ReceivablesNotOf(rs, c), d) == ReceivablesOf(rs, d)
      {
        ReceivablesOfConcat(kept, tail, d);
        assert tail == [] ==> ReceivablesOf(tail, d) == [];
        assert tail != [] ==> ReceivablesOf(tail, d) == ReceivablesOf([], d) + (if last.customerId == d then [last] else []) by {
          assert tail != [] ==> tail[..0] == [];
        }
        AppendReceivable(init, last, d);
      }
    }
  }

  /** The rows left behind keep their keys in increasing order. */
  lemma {:induction false} TransactionsNotOfIncreasing(ts: seq<Transaction>, c: CustomerId, next: nat)
    requires Increasing(ts, TransactionKey, next)
    ensures Increasing(TransactionsNotOf(ts, c), TransactionKey, next)
  {
    if ts != [] {
      var init, last := ts[..|ts| - 1], ts[|ts| - 1];
      TransactionsNotOfIncreasing(init, c, last.id);
      var kept := TransactionsNotOf(init, c);
      if last.customerId != c {
        assert TransactionsNotOf(ts, c) == kept + [last];
        IncreasingAppend(kept, TransactionKey, last.id, last);
        IncreasingRaise(kept + [last], TransactionKey, last.id + 1, next);
      } else {
        assert TransactionsNotOf(ts, c) == kept + [] == kept;
        IncreasingRaise(kept, TransactionKey, last.id, next);
      }
    }
  }

  lemma {:induction false} ReceivablesNotOfIncreasing(rs: seq<Receivable>, c: CustomerId, next: nat)
    requires Increasing(rs, ReceivableKey, next)
    ensures Increasing(ReceivablesNotOf(rs, c), ReceivableKey, next)
  {
    if rs != [] {
      var init, last := rs[..|rs| - 1], rs[|rs| - 1];
      ReceivablesNotOfIncreasing(init, c, last.id);
      var kept := ReceivablesNotOf(init, c);
      if last.customerId != c {
        assert ReceivablesNotOf(rs, c) == kept + [last];
        IncreasingAppend(kept, ReceivableKey, last.id, last);
        IncreasingRaise(kept + [last], ReceivableKey, last.id + 1, next);
      } else {
        assert ReceivablesNotOf(rs, c) == kept + [] == kept;
        IncreasingRaise(kept, ReceivableKey, last.id, next);
      }
    }
  }

  // ---------------------------------------------------------------------
  // Unlinking the receivables of a deleted invoice.

  /** The ORM's answer to deleting invoice `k`: receivables that referred
      to it keep their amounts and lose the reference. */
  function Unlink(rs: seq<Receivable>, k: InvoiceId): seq<Receivable> {
    seq(|rs|, i requires 0 <= i < |rs| => if rs[i].invoiceId == Some(k) then rs[i].(invoiceId := None) else rs[i])
  }

  /** Two receivable tables with the same owners and the same dues, row
      by row. */
  predicate SameDues(rs: seq<Receivable>, rs': seq<Receivable>) {
    |rs'| == |rs| &&
    forall i :: 0 <= i < |rs| ==> rs'[i].customerId == rs[i].customerId && DueOn(rs'[i]) == DueOn(rs[i])
  }

  lemma {:induction false} SameDuesSameTotals(rs: seq<Receivable>, rs': seq<Receivable>, c: CustomerId)
    requires SameDues(rs, rs')
    ensures TotalDue(ReceivablesOf(rs', c)) == TotalDue(ReceivablesOf(rs, c))
  {
    if rs != [] {
      var n := |rs| - 1;
      assert SameDues(rs[..n], rs'[..n]);
      SameDuesSameTotals(rs[..n], rs'[..n], c);
      var a: seq<Receivable> := if rs[n].customerId == c then [rs[n]] else [];
      var a': seq<Receivable> := if rs'[n].customerId == c then [rs'[n]] else [];
      TotalDueConcat(ReceivablesOf(rs[..n], c), a);
      TotalDueConcat(ReceivablesOf(rs'[..n], c), a');
      if rs[n].customerId == c {
        assert a[..0] == [] && a'[..0] == [];
      }
    }
  }

  /** Unlinking changes no balance and no status. */
  lemma UnlinkKeepsLedger(customers: map<CustomerId, Customer>, rs: seq<Receivable>, ts: seq<Transaction>, k: InvoiceId)
    requires BalancesCurrent(customers, rs, ts)
    ensures BalancesCurrent(customers, Unlink(rs, k), ts)
    ensures forall c :: CustomerStatus(Unlink(rs, k), ts, c) == CustomerStatus(rs, ts, c)
  {
    assert SameDues(rs, Unlink(rs, k));
    forall c
      ensures TotalDue(ReceivablesOf(Unlink(rs, k), c)) == TotalDue(ReceivablesOf(rs, c))
    {
      SameDuesSameTotals(rs, Unlink(rs, k), c);
    }
    forall c | c in customers
      ensures customers[c].balance == CustomerBalance(Unlink(rs, k), ts, c)
    {
      assert customers[c].balance == CustomerBalance(rs, ts, c);
    }
  }

  /** After deleting the invoice at `j`, every receivable still resolves. */
  lemma UnlinkResolves(rs: seq<Receivable>, invs: seq<Invoice>, j: nat)
    requires LinksResolve(rs, invs) && j < |invs|
    ensures LinksResolve(Unlink(rs, invs[j].id), invs[..j] + invs[j + 1..])
  {
    var k := invs[j].id;
    var rest := invs[..j] + invs[j + 1..];
    var rs' := Unlink(rs, k);
    forall i | 0 <= i < |rs'| && rs'[i].invoiceId.Some?
      ensures HasInvoice(rest, rs'[i].invoiceId.value)
    {
      var m :| 0 <= m < |invs| && invs[m].id == rs[i].invoiceId.value;
      assert m != j;
      if m < j {
        assert rest[m] == invs[m];
      } else {
        assert rest[m - 1] == invs[m];
      }
    }
  }

  // ---------------------------------------------------------------------
  // The invoices of one customer, reconciled.

  /** `for invoice in customer.invoices: _update_invoice_status(invoice)`. */
  function ReconcileOwnedBy(invs: seq<Invoice>, c: CustomerId, customers: map<CustomerId, Customer>,
                            rs: seq<Receivable>, ts: seq<Transaction>): seq<Invoice> {
    seq(|invs|, i requires 0 <= i < |invs| =>
      if invs[i].customerId == Some(c) then Reconcile(invs[i], customers, rs, ts) else invs[i])
  }

  /** Reconciling touches only the statuses of `c`'s invoices, and gives
      each of them the customer's status. */
  lemma ReconcileOwnedByFacts(invs: seq<Invoice>, c: CustomerId, customers: map<CustomerId, Customer>,
                              rs: seq<Receivable>, ts: seq<Transaction>)
    requires c in customers
    ensures var r := ReconcileOwnedBy(invs, c, customers, rs, ts);
      && |r| == |invs|
      && (forall i :: 0 <= i < |invs| ==> r[i].(status := invs[i].status) == invs[i])
      && (forall i :: 0 <= i < |invs| && invs[i].customerId == Some(c) ==> r[i].status == CustomerStatus(rs, ts, c))
      && (forall i :: 0 <= i < |invs| && invs[i].customerId != Some(c) ==> r[i] == invs[i])
  {
  }

  /** Reconciling keeps every table constraint. */
  lemma ReconcileKeepsTables(invs: seq<Invoice>, c: CustomerId, customers: map<CustomerId, Customer>,
                             rs: seq<Receivable>, ts: seq<Transaction>, next: nat)
    requires c in customers && Increasing(invs, InvoiceKey, next) && InvoicesOwned(customers, invs) && LinksResolve(rs, invs)
    ensures var r := ReconcileOwnedBy(invs, c, customers, rs, ts);
      Increasing(r, InvoiceKey, next) && InvoicesOwned(customers, r) && LinksResolve(rs, r)
  {
    var r := ReconcileOwnedBy(invs, c, customers, rs, ts);
    ReconcileOwnedByFacts(invs, c, customers, rs, ts);
    assert forall i :: 0 <= i < |invs| ==> r[i].id == invs[i].id && r[i].customerId == invs[i].customerId;
    IncreasingSameKeys(invs, r, InvoiceKey, next);
    LinksSameIds(rs, invs, r);
  }

  // ---------------------------------------------------------------------
  // All line items.

  /** The lines of every invoice, invoice after invoice. */
  function AllItems(invs: seq<Invoice>): seq<LineItem> {
    if invs == [] then [] else AllItems(invs[..|invs| - 1]) + invs[|invs| - 1].items
  }
}
