/** The SQL text that `excel_to_sql.py` writes for a product sheet: the
    string-literal escaper `clean_string`, the rendering of one row as a
    value tuple, and the `INSERT` command over all rows. */
module SqlExport {
  import opened Wrappers
  import opened Decimal
  import opened Text

  // ---------------------------------------------------------------------
  // String literals.

  /** `s.replace("'", "''")`. */
  function Escape(s: string): string {
    if s == [] then [] else (if s[0] == '\'' then "''" else [s[0]]) + Escape(s[1..])
  }

  /** The reading of a literal's body: each `''` stands for one `'`. */
  function Unescape(s: string): string
    decreases |s|
  {
    if s == [] then []
    else if |s| >= 2 && s[0] == '\'' && s[1] == '\'' then "'" + Unescape(s[2..])
    else [s[0]] + Unescape(s[1..])
  }

  /** Collapsing the doubled quotes gives back the escaped text. */
  lemma {:induction false} UnescapeEscape(s: string)
    ensures Unescape(Escape(s)) == s
  {
    if s != [] {
      UnescapeEscape(s[1..]);
      var rest := Escape(s[1..]);
      if s[0] == '\'' {
        assert Escape(s) == "''" + rest;
        assert ("''" + rest)[2..] == rest;
      } else {
        assert Escape(s) == [s[0]] + rest;
        assert ([s[0]] + rest)[1..] == rest;
      }
    }
  }

  /** Every quote in the text stands in an adjacent pair, so a SQL reader
      never sees the literal end before its closing quote. */
  predicate QuotesPaired(s: string)
    decreases |s|
  {
    if s == [] then true
    else if s[0] != '\'' then QuotesPaired(s[1..])
    else |s| >= 2 && s[1] == '\'' && QuotesPaired(s[2..])
  }

  lemma {:induction false} EscapePairsQuotes(s: string)
    ensures QuotesPaired(Escape(s))
  {
    if s != [] {
      EscapePairsQuotes(s[1..]);
      var rest := Escape(s[1..]);
      if s[0] == '\'' {
        assert ("''" + rest)[2..] == rest;
      } else {
        assert ([s[0]] + rest)[1..] == rest;
      }
    }
  }

  /** `clean_string`: a missing cell (`pd.isna`) is the bare word NULL;
      anything else is its stripped text, escaped, between quotes. */
  function CleanString(v: Option<string>): string {
    match v
    case None => "NULL"
    case Some(x) => "'" + Escape(Strip(x)) + "'"
  }

  /** How SQL reads a literal back: `Some(None)` for NULL, `Some(Some(t))`
      for a quoted string, `None` for anything else. */
  function ReadLiteral(lit: string): Option<Option<string>> {
    if lit == "NULL" then Some(None)
    else if |lit| >= 2 && lit[0] == '\'' && lit[|lit| - 1] == '\'' then Some(Some(Unescape(lit[1..|lit| - 1])))
    else None
  }

  /** Round trip: SQL reads back NULL for a missing cell and the stripped
      text for a present one; the quoted body never closes early. */
  lemma ReadCleanString(v: Option<string>)
    ensures v.None? ==> ReadLiteral(CleanString(v)) == Some(None)
    ensures v.Some? ==> ReadLiteral(CleanString(v)) == Some(Some(Strip(v.value)))
    ensures v.Some? ==> QuotesPaired(CleanString(v)[1..|CleanString(v)| - 1])
  {
    if v.Some? {
      var body := Escape(Strip(v.value));
      var lit := "'" + body + "'";
      assert lit[1..|lit| - 1] == body;
      assert lit != "NULL" by {
        assert lit[0] == '\'';
      }
      UnescapeEscape(Strip(v.value));
      EscapePairsQuotes(Strip(v.value));
    }
  }

  // ---------------------------------------------------------------------
  // Numeric cells.

  /** Python's `int(x)` on a float: truncation toward zero. */
  function Truncate(x: real): (r: int)
    ensures x >= 0.0 ==> r >= 0 && r as real <= x < r as real + 1.0
    ensures x < 0.0 ==> r <= 0 && r as real - 1.0 < x <= r as real
  {
    if x >= 0.0 then x.Floor else -((-x).Floor)
  }

  /** The Stock and Restock Level cells: `str(int(x))`, or `0` when missing. */
  function IntCell(v: Option<real>): string {
    match v
    case None => "0"
    case Some(x) => ShowInt(Truncate(x))
  }

  /** The Price cell: the cell's text, or `0` when missing. */
  function PriceCell(v: Option<string>): string {
    match v
    case None => "0"
    case Some(t) => t
  }

  /** Reading an integer cell back as a SQL number. */
  function ReadInt(s: string): Option<int> {
    if |s| >= 1 && s[0] == '-' then
      match Parse(s[1..])
      case None => None
      case Some(n) => Some(-(n as int))
    else
      match Parse(s)
      case None => None
      case Some(n) => Some(n)
  }

  /** An integer cell reads back as the truncated value; a missing one as 0. */
  lemma ReadIntCell(v: Option<real>)
    ensures ReadInt(IntCell(v)) == Some(if v.None? then 0 else Truncate(v.value))
  {
    var i := if v.None? then 0 else Truncate(v.value);
    assert v.None? ==> IntCell(v) == Show(0) by {
      assert Show(0) == "0";
    }
    ShowIsDecimal(if i < 0 then -i else i);
    ReadShow(if i < 0 then -i else i);
    if i < 0 {
      assert ("-" + Show(-i))[1..] == Show(-i);
    } else {
      assert Show(i)[0] != '-';
    }
  }

  // ---------------------------------------------------------------------
  // Rows and the command.

  /** One sheet row; text cells are `None` when empty. */
  datatype Row = Row(
    itemCode: Option<string>,
    description: Option<string>,
    tamilName: Option<string>,
    uom: Option<string>,
    price: Option<string>,
    stock: Option<real>,
    restockLevel: Option<real>,
    stockLocations: Option<string>,
    tags: Option<string>,
    notes: Option<string>)

  const Header: string :=
    "INSERT INTO product (item_code, description, tamil_name, uom, price, stock, restock_level, stock_locations, tags, notes) VALUES\n"

  /** `sep.join(xs)`. */
  function Join(xs: seq<string>, sep: string): string {
    if xs == [] then ""
    else if |xs| == 1 then xs[0]
    else Join(xs[..|xs| - 1], sep) + sep + xs[|xs| - 1]
  }

  /** The renderings of a row's cells, in the header's column order. */
  function Cells(r: Row): seq<string> {
    [CleanString(r.itemCode), CleanString(r.description), CleanString(r.tamilName), CleanString(r.uom),
     PriceCell(r.price), IntCell(r.stock), IntCell(r.restockLevel),
     CleanString(r.stockLocations), CleanString(r.tags), CleanString(r.notes)]
  }

  /** One value tuple. */
  function Tuple(r: Row): string {
    "(" + Join(Cells(r), ", ") + ")"
  }

  /** The value tuples, one per row, in sheet order. */
  function Tuples(rows: seq<Row>): (ts: seq<string>)
    ensures |ts| == |rows| && forall i :: 0 <= i < |rows| ==> ts[i] == Tuple(rows[i])
  {
    if rows == [] then [] else Tuples(rows[..|rows| - 1]) + [Tuple(rows[|rows| - 1])]
  }

  /** The whole command. */
  function Command(rows: seq<Row>): string {
    Header + Join(Tuples(rows), ",\n") + ";"
  }

  /** Missing Price, Stock and Restock Level cells are written as 0; a
      missing text cell as NULL. */
  lemma MissingCells(r: Row)
    ensures r.price.None? ==> Cells(r)[4] == "0"
    ensures r.stock.None? ==> Cells(r)[5] == "0"
    ensures r.restockLevel.None? ==> Cells(r)[6] == "0"
    ensures r.itemCode.None? ==> Cells(r)[0] == "NULL"
    ensures forall k :: 0 <= k < 10 && k != 4 && k != 5 && k != 6 ==> Cells(r)[k] == "NULL" || Cells(r)[k][0] == '\''
  {
  }

  /** Joining one more piece adds the separator and the piece. */
  lemma {:induction false} JoinAppend(xs: seq<string>, x: string, sep: string)
    ensures Join(xs + [x], sep) == if xs == [] then x else Join(xs, sep) + sep + x
  {
    assert (xs + [x])[..|xs|] == xs;
  }

  /** A further row adds a comma, a line break and its tuple to the body
      of the command. */
  lemma {:induction false} CommandAppend(rows: seq<Row>, r: Row)
    ensures Join(Tuples(rows + [r]), ",\n") ==
      if rows == [] then Tuple(r) else Join(Tuples(rows), ",\n") + ",\n" + Tuple(r)
  {
    assert (rows + [r])[..|rows|] == rows;
    assert Tuples(rows + [r]) == Tuples(rows) + [Tuple(r)];
    JoinAppend(Tuples(rows), Tuple(r), ",\n");
  }

  /** An empty sheet gives `VALUES` followed directly by the semicolon. */
  lemma EmptySheet()
    ensures Command([]) == Header + ";"
  {
  }

  /** `excel_to_sql_insert`: the loop that renders each row into `values`,
      then the concatenation. */
  method InsertCommand(rows: seq<Row>) returns (cmd: string)
    ensures cmd == Command(rows)
  {
    var values: seq<string> := [];
    var body := "";
    var i := 0;
    while i < |rows|
      invariant 0 <= i <= |rows|
      invariant values == Tuples(rows[..i])
      invariant body == Join(values, ",\n")
    {
      var value := Tuple(rows[i]);
      JoinAppend(values, value, ",\n");
      body := if values == [] then value else body + ",\n" + value;
      values := values + [value];
      assert rows[..i + 1][..i] == rows[..i];
      i := i + 1;
    }
    assert rows[..i] == rows;
    cmd := Header + body + ";";
  }
}
