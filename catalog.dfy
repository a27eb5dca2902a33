/** The product catalogue logic that is not stock arithmetic: the
    per-field permission gate of `update_product`, the matching rule of
    `search_products`, and the buckets of `inventory_aging`. */
module Catalog {
  import opened Wrappers
  import opened Inventory
  import opened Invoicing
  import opened Accounts
  import opened Text

  // ---------------------------------------------------------------------
  // The field gate of `update_product`.

  /** The editable fields of a product, in the order the route checks them. */
  datatype Field = ItemCode | Description | TamilName | Uom | Price | Stock | RestockLevel | StockLocations | Tags | Notes

  const FieldOrder: seq<Field> := [ItemCode, Description, TamilName, Uom, Price, Stock, RestockLevel, StockLocations, Tags, Notes]

  /** The permission that allows editing a field. */
  function EditPermission(f: Field): string {
    match f
    case ItemCode => "edit_product_code"
    case Description => "edit_product_description"
    case TamilName => "edit_product_tamil"
    case Uom => "edit_product_uom"
    case Price => "edit_product_price"
    case Stock => "edit_product_stock"
    case RestockLevel => "edit_product_restock"
    case StockLocations => "edit_product_locations"
    case Tags => "edit_product_tags"
    case Notes => "edit_product_notes"
  }

  function DeniedMessage(f: Field): string {
    match f
    case ItemCode => "Permission denied: Cannot edit item code"
    case Description => "Permission denied: Cannot edit description"
    case TamilName => "Permission denied: Cannot edit Tamil name"
    case Uom => "Permission denied: Cannot edit UOM"
    case Price => "Permission denied: Cannot edit price"
    case Stock => "Permission denied: Cannot edit stock"
    case RestockLevel => "Permission denied: Cannot edit restock level"
    case StockLocations => "Permission denied: Cannot edit locations"
    case Tags => "Permission denied: Cannot edit tags"
    case Notes => "Permission denied: Cannot edit notes"
  }

  /** The JSON body of `update_product`: `None` for a key that is absent.
      The nullable columns take `Some(None)` for an explicit null. */
  datatype Patch = Patch(
    itemCode: Option<string>,
    description: Option<string>,
    tamilName: Option<Option<string>>,
    uom: Option<string>,
    price: Option<int>,
    stock: Option<int>,
    restockLevel: Option<int>,
    stockLocations: Option<Option<string>>,
    tags: Option<Option<string>>,
    notes: Option<Option<string>>)

  /** A field's value, whatever its column type. */
  datatype Value = Text(text: string) | MaybeText(maybe: Option<string>) | Number(number: int)

  /** The value a product holds in a field. */
  function Get(prod: Product, f: Field): Value {
    match f
    case ItemCode => Text(prod.itemCode)
    case Description => Text(prod.description)
    case TamilName => MaybeText(prod.tamilName)
    case Uom => Text(prod.uom)
    case Price => Number(prod.price)
    case Stock => Number(prod.stock)
    case RestockLevel => Number(prod.restockLevel)
    case StockLocations => MaybeText(prod.stockLocations)
    case Tags => MaybeText(prod.tags)
    case Notes => MaybeText(prod.notes)
  }

  /** The value a request sends for a field, if it sends the key. */
  function Requested(p: Patch, f: Field): Option<Value> {
    match f
    case ItemCode => if p.itemCode.Some? then Some(Text(p.itemCode.value)) else None
    case Description => if p.description.Some? then Some(Text(p.description.value)) else None
    case TamilName => if p.tamilName.Some? then Some(MaybeText(p.tamilName.value)) else None
    case Uom => if p.uom.Some? then Some(Text(p.uom.value)) else None
    case Price => if p.price.Some? then Some(Number(p.price.value)) else None
    case Stock => if p.stock.Some? then Some(Number(p.stock.value)) else None
    case RestockLevel => if p.restockLevel.Some? then Some(Number(p.restockLevel.value)) else None
    case StockLocations => if p.stockLocations.Some? then Some(MaybeText(p.stockLocations.value)) else None
    case Tags => if p.tags.Some? then Some(MaybeText(p.tags.value)) else None
    case Notes => if p.notes.Some? then Some(MaybeText(p.notes.value)) else None
  }

  /** The check `role == 'admin' or has_permission(...)`. */
  predicate MayEdit(u: User, f: Field) {
    IsAdmin(u) || HasPermission(u, EditPermission(f))
  }

  /** The first of `fields` that the request sends and the user may not
      edit. */
  function FirstDenied(u: User, p: Patch, fields: seq<Field>): (r: Option<Field>)
    ensures r.None? <==> forall i :: 0 <= i < |fields| ==> Requested(p, fields[i]).None? || MayEdit(u, fields[i])
    ensures r.Some? ==> exists i :: (0 <= i < |fields| && fields[i] == r.value &&
      Requested(p, r.value).Some? && !MayEdit(u, r.value) &&
      forall j :: 0 <= j < i ==> Requested(p, fields[j]).None? || MayEdit(u, fields[j]))
  {
    if fields == [] then None
    else if Requested(p, fields[0]).Some? && !MayEdit(u, fields[0]) then Some(fields[0])
    else
      var rest := FirstDenied(u, p, fields[1..]);
      assert rest.Some? ==> exists i :: (1 <= i < |fields| && fields[i] == rest.value &&
        forall j :: 1 <= j < i ==> Requested(p, fields[j]).None? || MayEdit(u, fields[j]));
      rest
  }

  /** The assignments of `update_product`: each field sent replaces the
      stored one (the ten assignments touch different columns, so their
      order does not matter). */
  function Apply(prod: Product, p: Patch): Product {
    Product(
      if p.itemCode.Some? then p.itemCode.value else prod.itemCode,
      if p.description.Some? then p.description.value else prod.description,
      if p.tamilName.Some? then p.tamilName.value else prod.tamilName,
      if p.uom.Some? then p.uom.value else prod.uom,
      if p.price.Some? then p.price.value else prod.price,
      if p.stock.Some? then p.stock.value else prod.stock,
      if p.restockLevel.Some? then p.restockLevel.value else prod.restockLevel,
      if p.stockLocations.Some? then p.stockLocations.value else prod.stockLocations,
      if p.tags.Some? then p.tags.value else prod.tags,
      if p.notes.Some? then p.notes.value else prod.notes)
  }

  /** The permission part of `update_product`: the first denied field, in
      the route's order, refuses the whole request; otherwise the patch is
      applied. */
  function Gate(u: User, prod: Product, p: Patch): Result<Product> {
    match FirstDenied(u, p, FieldOrder)
    case Some(f) => Failure(PermissionDenied(DeniedMessage(f)))
    case None => Success(Apply(prod, p))
  }

  lemma EveryFieldIsChecked(f: Field)
    ensures f in FieldOrder
  {
  }

  /** The request is refused exactly when it sends some field the user
      may not edit, and then with that field's message. */
  lemma GateRefuses(u: User, prod: Product, p: Patch)
    ensures Gate(u, prod, p).Failure? <==> exists f :: Requested(p, f).Some? && !MayEdit(u, f)
    ensures Gate(u, prod, p).Failure? ==>
      exists f :: Requested(p, f).Some? && !MayEdit(u, f) && Gate(u, prod, p).error == PermissionDenied(DeniedMessage(f))
  {
    if exists f :: Requested(p, f).Some? && !MayEdit(u, f) {
      var f :| Requested(p, f).Some? && !MayEdit(u, f);
      EveryFieldIsChecked(f);
    }
  }

  /** Applying a patch gives every sent field the sent value and leaves
      every other field as it was. */
  lemma ApplyChangesExactlySent(prod: Product, p: Patch)
    ensures forall f :: (Get(Apply(prod, p), f) ==
      if Requested(p, f).Some? then Requested(p, f).value else Get(prod, f))
  {
    forall f ensures Get(Apply(prod, p), f) == (if Requested(p, f).Some? then Requested(p, f).value else Get(prod, f)) {
      match f
      case ItemCode =>
      case Description =>
      case TamilName =>
      case Uom =>
      case Price =>
      case Stock =>
      case RestockLevel =>
      case StockLocations =>
      case Tags =>
      case Notes =>
    }
  }

  /** All or nothing: refused as a whole, or exactly the sent fields
      change. */
  lemma GateAllOrNothing(u: User, prod: Product, p: Patch)
    ensures Gate(u, prod, p).Failure? <==> exists f :: Requested(p, f).Some? && !MayEdit(u, f)
    ensures Gate(u, prod, p).Success? ==> forall f :: (Get(Gate(u, prod, p).value, f) ==
      if Requested(p, f).Some? then Requested(p, f).value else Get(prod, f))
  {
    GateRefuses(u, prod, p);
    ApplyChangesExactlySent(prod, p);
  }

  /** An admin passes every check, because `has_permission` is true for an
      admin whatever its permission list. */
  lemma AdminPassesGate(u: User, prod: Product, p: Patch)
    requires IsAdmin(u)
    ensures Gate(u, prod, p) == Success(Apply(prod, p))
  {
  }

  /** A user without permissions gets through only with an empty request,
      which changes nothing. */
  lemma NoGrantsNoEdits(u: User, prod: Product, p: Patch)
    requires !IsAdmin(u) && u.permissions == {}
    ensures Gate(u, prod, p).Success? <==> forall f :: Requested(p, f).None?
    ensures Gate(u, prod, p).Success? ==> Gate(u, prod, p).value == prod
  {
    GateRefuses(u, prod, p);
    if Gate(u, prod, p).Success? {
      assert Requested(p, ItemCode).None? && Requested(p, Description).None? && Requested(p, TamilName).None?;
      assert Requested(p, Uom).None? && Requested(p, Price).None? && Requested(p, Stock).None?;
      assert Requested(p, RestockLevel).None? && Requested(p, StockLocations).None?;
      assert Requested(p, Tags).None? && Requested(p, Notes).None?;
    }
  }

  // ---------------------------------------------------------------------
  // `search_products`.

  /** `s.split()`: the maximal runs of non-space characters; `current` is
      the run read so far. */
  function SplitFrom(s: string, current: string): seq<string>
    decreases |s|
  {
    if s == [] then (if current == [] then [] else [current])
    else if IsSpace(s[0]) then (if current == [] then [] else [current]) + SplitFrom(s[1..], [])
    else SplitFrom(s[1..], current + [s[0]])
  }

  function Split(s: string): seq<string> {
    SplitFrom(s, [])
  }

  predicate IsTerm(w: string) {
    w != [] && forall i :: 0 <= i < |w| ==> !IsSpace(w[i])
  }

  /** Every piece of a split is a non-empty word without spaces, so the
      route's `strip()` and the `if term.strip()` filter change nothing. */
  lemma {:induction false} SplitGivesTerms(s: string, current: string)
    requires forall i :: 0 <= i < |current| ==> !IsSpace(current[i])
    ensures forall k :: 0 <= k < |SplitFrom(s, current)| ==> IsTerm(SplitFrom(s, current)[k])
    decreases |s|
  {
    if s != [] {
      if IsSpace(s[0]) {
        SplitGivesTerms(s[1..], []);
      } else {
        SplitGivesTerms(s[1..], current + [s[0]]);
      }
    }
  }

  /** PostgreSQL `LIKE` with its default escape character: `%` matches any
      run of characters, `_` any one character, a backslash followed by a
      character matches that character literally, and every other
      character matches itself.  PostgreSQL refuses a pattern that ends in
      a lone backslash; such a pattern matches nothing here, and none of the
      route's `%term%` patterns ends that way. */
  function Like(s: string, pat: string): bool
    decreases |s| + |pat|
  {
    if pat == [] then s == []
    else if pat[0] == '%' then Like(s, pat[1..]) || (s != [] && Like(s[1..], pat))
    else if pat[0] == '\\' then |pat| >= 2 && s != [] && s[0] == pat[1] && Like(s[1..], pat[2..])
    else s != [] && (pat[0] == '_' || pat[0] == s[0]) && Like(s[1..], pat[1..])
  }

  /** `ILIKE`: `LIKE` after lower-casing both sides. */
  function ILike(s: string, pat: string): bool {
    Like(LowerString(s), LowerString(pat))
  }

  /** A term in which no character has a special meaning to `LIKE`. */
  predicate NoWildcards(t: string) {
    forall i :: 0 <= i < |t| ==> t[i] != '%' && t[i] != '_' && t[i] != '\\'
  }

  /** A backslash escapes the next character: the term `a\b` finds "ab"
      and not the text `a\b` itself. */
  lemma EscapedTermMatches()
    ensures ILike("ab", "%a\\b%") && !ILike("a\\b", "%a\\b%")
  {
    assert LowerString("ab") == "ab";
    assert LowerString("a\\b") == "a\\b";
    assert LowerString("%a\\b%") == "%a\\b%";
    assert Like("", "%");
    assert Like("b", "\\b%");
    assert Like("ab", "a\\b%");
    assert !Like("\\b", "\\b%");
    assert !Like("b", "a\\b%");
    assert !Like("", "a\\b%");
    assert !Like("\\b", "a\\b%");
  }

  /** `t` occurs in `s` at position `i`. */
  predicate OccursAt(t: string, s: string, i: nat) {
    i + |t| <= |s| && s[i..i + |t|] == t
  }

  predicate IsSubstring(t: string, s: string) {
    exists i: nat :: i <= |s| && OccursAt(t, s, i)
  }

  /** A pattern ending in `%` matches exactly the strings that start with
      the wildcard-free part in front of it. */
  lemma {:induction false} LikePrefix(s: string, t: string)
    requires NoWildcards(t)
    ensures Like(s, t + "%") <==> |t| <= |s| && s[..|t|] == t
    decreases |t|
  {
    if t == [] {
      assert t + "%" == "%";
      LikeAnything(s);
    } else {
      assert (t + "%")[1..] == t[1..] + "%";
      if s != [] {
        assert NoWildcards(t[1..]);
        LikePrefix(s[1..], t[1..]);
        if |t| <= |s| && s[..|t|] == t {
          assert s[1..][..|t| - 1] == t[1..];
        }
        if s[0] == t[0] && |t[1..]| <= |s[1..]| && s[1..][..|t[1..]|] == t[1..] {
          assert s[..|t|] == [s[0]] + s[1..][..|t[1..]|];
        }
      }
    }
  }

  /** `%` alone matches everything. */
  lemma {:induction false} LikeAnything(s: string)
    ensures Like(s, "%")
    decreases |s|
  {
    assert "%"[1..] == [];
    if s != [] {
      LikeAnything(s[1..]);
    }
  }

  /** A leading `%` lets the rest of the pattern match any suffix. */
  lemma {:induction false} LikeLeadingPercent(s: string, p: string)
    ensures Like(s, "%" + p) <==> exists i :: 0 <= i <= |s| && Like(s[i..], p)
    decreases |s|
  {
    assert ("%" + p)[1..] == p;
    if s == [] {
      assert s[0..] == s;
    } else {
      LikeLeadingPercent(s[1..], p);
      if Like(s[1..], "%" + p) {
        var i :| 0 <= i <= |s[1..]| && Like(s[1..][i..], p);
        assert s[1..][i..] == s[i + 1..];
      }
      if exists i :: 0 <= i <= |s| && Like(s[i..], p) {
        var i :| 0 <= i <= |s| && Like(s[i..], p);
        if i == 0 {
          assert s[0..] == s;
        } else {
          assert s[1..][i - 1..] == s[i..];
        }
      }
      assert s[0..] == s;
    }
  }

  /** Matching `%term%` with a term free of wildcards is substring search. */
  lemma ContainsLike(s: string, t: string)
    requires NoWildcards(t)
    ensures Like(s, "%" + t + "%") <==> IsSubstring(t, s)
  {
    assert "%" + t + "%" == "%" + (t + "%");
    LikeLeadingPercent(s, t + "%");
    if IsSubstring(t, s) {
      var i: nat :| i <= |s| && OccursAt(t, s, i);
      LikePrefix(s[i..], t);
      assert s[i..][..|t|] == s[i..i + |t|];
    }
    if Like(s, "%" + t + "%") {
      var i :| 0 <= i <= |s| && Like(s[i..], t + "%");
      LikePrefix(s[i..], t);
      assert s[i..][..|t|] == s[i..i + |t|];
      assert OccursAt(t, s, i);
    }
  }

  /** The text columns the search looks in (a NULL column matches
      nothing). */
  function SearchedColumns(prod: Product): seq<Option<string>> {
    [Some(prod.itemCode), Some(prod.description), prod.tamilName, prod.stockLocations,
     prod.tags, prod.notes, Some(prod.uom)]
  }

  /** One term's OR over the columns. */
  predicate TermMatches(prod: Product, term: string) {
    exists k :: 0 <= k < 7 && SearchedColumns(prod)[k].Some? &&
      ILike(SearchedColumns(prod)[k].value, "%" + term + "%")
  }

  /** The search terms of a query string: lower-cased, split on spaces. */
  function Terms(q: string): seq<string> {
    Split(LowerString(q))
  }

  /** `search_products`: nothing for a query without terms; otherwise the
      products that match every term in some column. */
  function Search(products: map<ProductId, Product>, q: string): set<ProductId> {
    var terms := Terms(q);
    if terms == [] then {}
    else set p | p in products && forall k :: 0 <= k < |terms| ==> TermMatches(products[p], terms[k])
  }

  /** With terms free of `%` and `_`, a product is found exactly when each
      term is, ignoring case, a substring of one of its non-NULL columns. */
  lemma SearchMeaning(products: map<ProductId, Product>, q: string, p: ProductId)
    requires forall k :: 0 <= k < |Terms(q)| ==> NoWildcards(Terms(q)[k])
    ensures p in Search(products, q) <==>
      && Terms(q) != [] && p in products
      && forall k :: 0 <= k < |Terms(q)| ==>
           exists c :: 0 <= c < 7 && SearchedColumns(products[p])[c].Some? &&
             IsSubstring(Terms(q)[k], LowerString(SearchedColumns(products[p])[c].value))
  {
    var terms := Terms(q);
    if p in products {
      var cols := SearchedColumns(products[p]);
      forall k | 0 <= k < |terms|
        ensures TermMatches(products[p], terms[k]) <==>
          exists c :: 0 <= c < 7 && cols[c].Some? && IsSubstring(terms[k], LowerString(cols[c].value))
      {
        TermIsLower(q, k);
        forall c | 0 <= c < 7 && cols[c].Some?
          ensures ILike(cols[c].value, "%" + terms[k] + "%") <==> IsSubstring(terms[k], LowerString(cols[c].value))
        {
          LowerConcat("%" + terms[k], "%");
          LowerConcat("%", terms[k]);
          assert LowerString("%") == "%";
          ContainsLike(LowerString(cols[c].value), terms[k]);
        }
      }
      assert p in Search(products, q) <==> terms != [] && forall k :: 0 <= k < |terms| ==> TermMatches(products[p], terms[k]);
    }
  }

  /** Every term of a query is already lower-case. */
  lemma TermIsLower(q: string, k: nat)
    requires k < |Terms(q)|
    ensures LowerString(Terms(q)[k]) == Terms(q)[k]
  {
    SplitIsLower(LowerString(q), []);
    LowerIdempotent(q);
  }

  lemma {:induction false} SplitIsLower(s: string, current: string)
    requires LowerString(s) == s && LowerString(current) == current
    ensures forall k :: 0 <= k < |SplitFrom(s, current)| ==>
      LowerString(SplitFrom(s, current)[k]) == SplitFrom(s, current)[k]
    decreases |s|
  {
    if s != [] {
      assert LowerString(s[1..]) == s[1..] by {
        assert forall i :: 0 <= i < |s| - 1 ==> s[1..][i] == s[i + 1];
      }
      if IsSpace(s[0]) {
        SplitIsLower(s[1..], []);
      } else {
        LowerConcat(current, [s[0]]);
        assert Lower(s[0]) == s[0] by {
          assert LowerString(s)[0] == Lower(s[0]);
        }
        SplitIsLower(s[1..], current + [s[0]]);
      }
    }
  }

  /** An empty or all-space query finds nothing, whatever the catalogue. */
  lemma BlankQueryFindsNothing(products: map<ProductId, Product>)
    ensures Search(products, "") == {} && Search(products, "  ") == {}
  {
    assert LowerString("  ") == "  ";
    assert SplitFrom("  "[1..][1..], []) == [];
  }

  // ---------------------------------------------------------------------
  // `inventory_aging`.

  datatype AgeBucket = UpTo30 | From31To60 | From61To90 | Over90

  /** The bracket of a day count: at most 30, at most 60, at most 90, more. */
  function Bucket(days: int): (b: AgeBucket)
    ensures b == UpTo30 <==> days <= 30
    ensures b == From31To60 <==> 30 < days <= 60
    ensures b == From61To90 <==> 60 < days <= 90
    ensures b == Over90 <==> 90 < days
  {
    if days <= 30 then UpTo30
    else if days <= 60 then From31To60
    else if days <= 90 then From61To90
    else Over90
  }

  /** The date of the latest invoice that has a line for product `p`. */
  function LastSale(invs: seq<Invoice>, p: ProductId): (r: Option<Date>)
    ensures r.None? <==> forall i :: 0 <= i < |invs| ==> QtyLines(invs[i], p) == 0
    ensures r.Some? ==>
      (exists i :: 0 <= i < |invs| && QtyLines(invs[i], p) > 0 && invs[i].date == r.value) &&
      (forall i :: 0 <= i < |invs| && QtyLines(invs[i], p) > 0 ==> invs[i].date <= r.value)
  {
    if invs == [] then None
    else
      var last := invs[|invs| - 1];
      var before := LastSale(invs[..|invs| - 1], p);
      assert forall i :: 0 <= i < |invs| - 1 ==> invs[..|invs| - 1][i] == invs[i];
      if QtyLines(last, p) == 0 then before
      else if before.Some? && before.value > last.date then before
      else Some(last.date)
  }

  /** How many lines of an invoice name product `p`. */
  function QtyLines(inv: Invoice, p: ProductId): nat {
    |set i | 0 <= i < |inv.items| && inv.items[i].productId == p|
  }

  /** Days since the last sale; a product never sold counts as 90 days. */
  function DaysSinceSale(invs: seq<Invoice>, p: ProductId, today: Date): int {
    match LastSale(invs, p)
    case None => 90
    case Some(d) => today - d
  }

  /** A product that never sold lands in the 61-90 bracket, never in 90+. */
  lemma NeverSoldIs61To90(invs: seq<Invoice>, p: ProductId, today: Date)
    requires forall i :: 0 <= i < |invs| ==> QtyLines(invs[i], p) == 0
    ensures Bucket(DaysSinceSale(invs, p, today)) == From61To90
  {
  }

  datatype Tally = Tally(upTo30: nat, from31To60: nat, from61To90: nat, over90: nat)

  function Count(t: Tally, b: AgeBucket): Tally {
    match b
    case UpTo30 => t.(upTo30 := t.upTo30 + 1)
    case From31To60 => t.(from31To60 := t.from31To60 + 1)
    case From61To90 => t.(from61To90 := t.from61To90 + 1)
    case Over90 => t.(over90 := t.over90 + 1)
  }

  /** The buckets of the products listed. */
  function Aging(ids: seq<ProductId>, invs: seq<Invoice>, today: Date): Tally {
    if ids == [] then Tally(0, 0, 0, 0)
    else Count(Aging(ids[..|ids| - 1], invs, today), Bucket(DaysSinceSale(invs, ids[|ids| - 1], today)))
  }

  function Total(t: Tally): nat {
    t.upTo30 + t.from31To60 + t.from61To90 + t.over90
  }

  /** Every product is counted in exactly one bracket. */
  lemma {:induction false} AgingCountsEveryProduct(ids: seq<ProductId>, invs: seq<Invoice>, today: Date)
    ensures Total(Aging(ids, invs, today)) == |ids|
  {
    if ids != [] {
      AgingCountsEveryProduct(ids[..|ids| - 1], invs, today);
    }
  }

  /** The counting loop of `inventory_aging`. */
  method CountAging(ids: seq<ProductId>, invs: seq<Invoice>, today: Date) returns (t: Tally)
    ensures t == Aging(ids, invs, today)
  {
    t := Tally(0, 0, 0, 0);
    var i := 0;
    while i < |ids|
      invariant 0 <= i <= |ids|
      invariant t == Aging(ids[..i], invs, today)
    {
      var days := DaysSinceSale(invs, ids[i], today);
      ghost var before := t;
      if days <= 30 {
        t := t.(upTo30 := t.upTo30 + 1);
      } else if days <= 60 {
        t := t.(from31To60 := t.from31To60 + 1);
      } else if days <= 90 {
        t := t.(from61To90 := t.from61To90 + 1);
      } else {
        t := t.(over90 := t.over90 + 1);
      }
      assert t == Count(before, Bucket(days));
      assert ids[..i + 1][..i] == ids[..i] && ids[..i + 1][i] == ids[i];
      i := i + 1;
    }
    assert ids[..i] == ids;
  }
}
