/**
 The product catalogue: the rows of the product spreadsheet, the rows that
 survive dropping incomplete ones, and the `item_<row>` identifiers given to
 the products that remain (app.py, load_products).
 */
module Catalog {

  datatype Option<+T> = None | Some(value: T)

  /** One spreadsheet row; a missing cell (NaN) is None. The price column is numeric. */
  datatype Row = Row(name: Option<string>, price: Option<real>, image: Option<string>)

  /** A catalogue product, as load_products builds it. */
  datatype Product = Product(id: string, name: string, price: int, image: string)

  /** int() of a float: truncation toward zero. */
  function Truncate(x: real): (n: int)
    ensures 0.0 <= x ==> 0 <= n && n as real <= x < n as real + 1.0
    ensures x < 0.0 ==> n <= 0 && n as real - 1.0 < x <= n as real
  {
    if 0.0 <= x then x.Floor else -((-x).Floor)
  }

  function DigitChar(d: nat): (c: char)
    requires d < 10
    ensures '0' <= c <= '9' && c as int - '0' as int == d
  {
    (d + '0' as int) as char
  }

  /** The number a string of decimal digits denotes, most significant digit first. */
  function DecimalValue(s: string): nat
    requires forall i :: 0 <= i < |s| ==> '0' <= s[i] <= '9'
  {
    if s == [] then 0
    else DecimalValue(s[..|s| - 1]) * 10 + (s[|s| - 1] as int - '0' as int)
  }

  /** Decimal rendering of a row label, as an f-string prints a non-negative int. */
  function NatToString(n: nat): (s: string)
    ensures 1 <= |s|
    ensures forall i :: 0 <= i < |s| ==> '0' <= s[i] <= '9'
    ensures DecimalValue(s) == n
    ensures (|s| == 1) == (n < 10)
  {
    if n < 10 then [DigitChar(n)]
    else
      var high := NatToString(n / 10);
      var s := high + [DigitChar(n % 10)];
      assert s[..|s| - 1] == high;
      s
  }

  /** Different row labels render differently. */
  lemma NatToStringInjective(a: nat, b: nat)
    requires NatToString(a) == NatToString(b)
    ensures a == b
  {
    assert a == DecimalValue(NatToString(a)) == DecimalValue(NatToString(b)) == b;
  }

  /** The identifier of the product built from row label i: `item_` and the label's digits. */
  function ItemId(i: nat): (id: string)
    ensures |id| > 5 && id[..5] == "item_"
  {
    "item_" + NatToString(i)
  }

  lemma ItemIdInjective(i: nat, j: nat)
    requires i != j
    ensures ItemId(i) != ItemId(j)
  {
    assert ItemId(i)[5..] == NatToString(i) && ItemId(j)[5..] == NatToString(j);
    if NatToString(i) == NatToString(j) {
      NatToStringInjective(i, j);
    }
  }

  /** Dropping incomplete rows keeps exactly the rows with name, price and image present. */
  predicate Complete(r: Row)
  {
    r.name.Some? && r.price.Some? && r.image.Some?
  }

  /** The product built from the complete row with label i. */
  function FromRow(i: nat, r: Row): Product
    requires Complete(r)
  {
    Product(ItemId(i), r.name.value, Truncate(r.price.value), r.image.value)
  }

  /**
   load_products: one product per complete row, in row order. read_excel labels
   the rows 0, 1, 2, ... and dropna keeps the labels, so a product's id carries
   the position of its row in the whole sheet.
   */
  function LoadProducts(rows: seq<Row>): (ps: seq<Product>)
    ensures |ps| <= |rows|
  {
    if rows == [] then []
    else
      var n := |rows| - 1;
      LoadProducts(rows[..n]) + (if Complete(rows[n]) then [FromRow(n, rows[n])] else [])
  }

  /** Identifiers are pairwise different. */
  predicate DistinctIds(ps: seq<Product>)
  {
    forall i, j :: 0 <= i < j < |ps| ==> ps[i].id != ps[j].id
  }

  /** p is the product built from row i of the sheet, a complete row. */
  predicate BuiltFrom(rows: seq<Row>, i: int, p: Product)
  {
    0 <= i < |rows| && Complete(rows[i]) && p == FromRow(i, rows[i])
  }

  /** Every loaded product is built from a complete row. */
  lemma {:induction false} LoadedFromRow(rows: seq<Row>, p: Product)
    requires p in LoadProducts(rows)
    ensures exists i :: BuiltFrom(rows, i, p)
  {
    var n := |rows| - 1;
    var pre := rows[..n];
    if p in LoadProducts(pre) {
      LoadedFromRow(pre, p);
      var i :| BuiltFrom(pre, i, p);
      assert pre[i] == rows[i];
      assert BuiltFrom(rows, i, p);
    } else {
      assert BuiltFrom(rows, n, p);
    }
  }

  /** Every complete row gives a loaded product. */
  lemma {:induction false} RowLoaded(rows: seq<Row>, i: int, p: Product)
    requires BuiltFrom(rows, i, p)
    ensures p in LoadProducts(rows)
  {
    var n := |rows| - 1;
    var pre := rows[..n];
    if i < n {
      assert pre[i] == rows[i];
      RowLoaded(pre, i, p);
    }
  }

  /** A product is loaded iff it is built from a complete row. */
  lemma LoadProductsMembers(rows: seq<Row>, p: Product)
    ensures p in LoadProducts(rows) <==> exists i :: BuiltFrom(rows, i, p)
  {
    if p in LoadProducts(rows) {
      LoadedFromRow(rows, p);
    }
    if exists i :: BuiltFrom(rows, i, p) {
      var i :| BuiltFrom(rows, i, p);
      RowLoaded(rows, i, p);
    }
  }

  /** Every loaded id is the id of a complete row's label below |rows|. */
  lemma {:induction false} LoadedIdsBelow(rows: seq<Row>, k: nat)
    requires k < |LoadProducts(rows)|
    ensures exists i :: 0 <= i < |rows| && LoadProducts(rows)[k].id == ItemId(i)
  {
    var n := |rows| - 1;
    var pre := LoadProducts(rows[..n]);
    if k < |pre| {
      LoadedIdsBelow(rows[..n], k);
    } else {
      assert LoadProducts(rows)[k].id == ItemId(n);
    }
  }

  /** load_products never hands out the same id twice. */
  lemma {:induction false} LoadProductsDistinct(rows: seq<Row>)
    ensures DistinctIds(LoadProducts(rows))
  {
    if rows != [] {
      var n := |rows| - 1;
      var pre := LoadProducts(rows[..n]);
      LoadProductsDistinct(rows[..n]);
      var ps := LoadProducts(rows);
      forall i, j | 0 <= i < j < |ps| ensures ps[i].id != ps[j].id {
        if j >= |pre| {
          LoadedIdsBelow(rows[..n], i);
          var m :| 0 <= m < n && pre[i].id == ItemId(m);
          ItemIdInjective(m, n);
        }
      }
    }
  }
}
