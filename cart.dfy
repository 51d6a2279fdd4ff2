/**
 The cart: a dict from product id to an entry record, kept in the dict's
 insertion order, and its total against the budget (app.py lines 69-113).
 */
module Cart {
  import opened Catalog

  /** The budget every mission shares. */
  const BUDGET: int := 30000

  /** The record the cart stores under a product id. */
  datatype Entry = Entry(name: string, price: int, qty: int, image: string)

  function Subtotal(e: Entry): int
  {
    e.price * e.qty
  }

  /**
   `order` lists the keys of `cart` in the dict's iteration order: each key once,
   and nothing else.
   */
  ghost predicate Enumerates(cart: map<string, Entry>, order: seq<string>)
  {
    (forall i, j :: 0 <= i < j < |order| ==> order[i] != order[j]) &&
    (forall k :: k in cart <==> k in order)
  }

  /** The records of the cart, in iteration order. */
  function Values(cart: map<string, Entry>, order: seq<string>): (vs: seq<Entry>)
    requires forall k :: k in order ==> k in cart
    ensures |vs| == |order|
    ensures forall i :: 0 <= i < |order| ==> vs[i] == cart[order[i]]
  {
    seq(|order|, i requires 0 <= i < |order| => cart[order[i]])
  }

  /** Sum of price times quantity over the lines, added up from the left as Python's sum does. */
  function Sum(vs: seq<Entry>): (r: int)
    ensures (forall i :: 0 <= i < |vs| ==> vs[i].price >= 0 && vs[i].qty >= 0) ==> r >= 0
    ensures vs == [] ==> r == 0
  {
    if vs == [] then 0 else Sum(vs[..|vs| - 1]) + Subtotal(vs[|vs| - 1])
  }

  /** The total of a cart as a set of entries, independent of any order. */
  ghost function MapTotal(cart: map<string, Entry>): int
    decreases |cart|
  {
    if cart == map[] then 0
    else
      var k :| k in cart;
      assert |cart - {k}| < |cart| by { assert (cart - {k}).Keys == cart.Keys - {k}; }
      Subtotal(cart[k]) + MapTotal(cart - {k})
  }

  /** The budget gate: the submit button is offered for a non-empty cart within budget. */
  ghost predicate SubmitOffered(cart: map<string, Entry>)
  {
    cart != map[] && MapTotal(cart) <= BUDGET
  }

  /** Taking any one entry out of the cart lowers the total by exactly its subtotal. */
  lemma {:induction false} MapTotalRemove(cart: map<string, Entry>, k: string)
    requires k in cart
    ensures MapTotal(cart) == Subtotal(cart[k]) + MapTotal(cart - {k})
    decreases |cart|
  {
    var j :| j in cart && MapTotal(cart) == Subtotal(cart[j]) + MapTotal(cart - {j});
    if j != k {
      var rest := cart - {j};
      assert |rest| < |cart| by { assert rest.Keys == cart.Keys - {j}; }
      MapTotalRemove(rest, k);
      var other := cart - {k};
      assert |other| < |cart| by { assert other.Keys == cart.Keys - {k}; }
      MapTotalRemove(other, j);
      assert rest - {k} == other - {j};
    }
  }

  /** Inserting a new key raises the total by the new entry's subtotal. */
  lemma MapTotalInsert(cart: map<string, Entry>, k: string, e: Entry)
    requires k !in cart
    ensures MapTotal(cart[k := e]) == MapTotal(cart) + Subtotal(e)
  {
    MapTotalRemove(cart[k := e], k);
    assert cart[k := e] - {k} == cart;
  }

  lemma Distribute(a: int, b: int, c: int)
    ensures a * (b + c) == a * b + a * c
  {
  }

  /** Raising the quantity of one entry by q raises the total by price * q. */
  lemma MapTotalAddQty(cart: map<string, Entry>, k: string, q: int)
    requires k in cart
    ensures MapTotal(cart[k := cart[k].(qty := cart[k].qty + q)]) == MapTotal(cart) + cart[k].price * q
  {
    var e := cart[k];
    var e' := e.(qty := e.qty + q);
    var bumped := cart[k := e'];
    MapTotalRemove(cart, k);
    MapTotalRemove(bumped, k);
    assert bumped - {k} == cart - {k};
    Distribute(e.price, e.qty, q);
  }

  /** Dropping the last key of the order enumerates the cart without that key. */
  lemma DropLastKeepsEnumeration(cart: map<string, Entry>, order: seq<string>)
    requires Enumerates(cart, order) && order != []
    ensures Enumerates(cart - {order[|order| - 1]}, order[..|order| - 1])
  {
    var n := |order| - 1;
    var pre := order[..n];
    forall x ensures x in cart - {order[n]} <==> x in pre {
      if x in pre {
        var i :| 0 <= i < n && pre[i] == x;
        assert order[i] != order[n];
      }
      if x in order && x != order[n] {
        var i :| 0 <= i < |order| && order[i] == x;
        assert i < n && pre[i] == x;
      }
    }
  }

  /** The iteration order lists as many keys as the cart has entries. */
  lemma {:induction false} EnumerationSize(cart: map<string, Entry>, order: seq<string>)
    requires Enumerates(cart, order)
    ensures |cart| == |order|
  {
    if order == [] {
      assert cart == map[];
    } else {
      var k := order[|order| - 1];
      DropLastKeepsEnumeration(cart, order);
      EnumerationSize(cart - {k}, order[..|order| - 1]);
      assert (cart - {k}).Keys == cart.Keys - {k};
    }
  }

  /** The sum in iteration order equals the order-free total, whatever the order. */
  lemma {:induction false} SumIsMapTotal(cart: map<string, Entry>, order: seq<string>)
    requires Enumerates(cart, order)
    ensures Sum(Values(cart, order)) == MapTotal(cart)
  {
    if order == [] {
      assert cart == map[];
    } else {
      var n := |order| - 1;
      var k := order[n];
      var rest := cart - {k};
      var pre := order[..n];
      DropLastKeepsEnumeration(cart, order);
      SumIsMapTotal(rest, pre);
      var vs := Values(cart, order);
      assert vs[..n] == Values(rest, pre);
      assert Sum(vs) == Sum(Values(rest, pre)) + Subtotal(cart[k]);
      MapTotalRemove(cart, k);
    }
  }

  /** Two iteration orders of the same cart give the same total. */
  lemma SumOrderIndependent(cart: map<string, Entry>, o1: seq<string>, o2: seq<string>)
    requires Enumerates(cart, o1) && Enumerates(cart, o2)
    ensures Sum(Values(cart, o1)) == Sum(Values(cart, o2))
  {
    SumIsMapTotal(cart, o1);
    SumIsMapTotal(cart, o2);
  }

  /**
   The shopping screen's loop (lines 82-89): total starts at 0 and each entry's
   price * qty is added in iteration order.
   */
  method CartTotal(cart: map<string, Entry>, order: seq<string>) returns (total: int)
    requires Enumerates(cart, order)
    ensures total == Sum(Values(cart, order))
    ensures total == MapTotal(cart)
  {
    total := 0;
    ghost var vs := Values(cart, order);
    for i := 0 to |order|
      invariant total == Sum(vs[..i])
    {
      var it := cart[order[i]];
      var subtotal := it.price * it.qty;
      total := total + subtotal;
      assert vs[..i + 1][..i] == vs[..i];
    }
    assert vs[..|order|] == vs;
    SumIsMapTotal(cart, order);
  }

  /** Position of a key in the iteration order. */
  function IndexOf(order: seq<string>, k: string): (i: nat)
    requires k in order
    ensures i < |order| && order[i] == k
    ensures forall j :: 0 <= j < i ==> order[j] != k
  {
    if order[0] == k then 0 else 1 + IndexOf(order[1..], k)
  }

  /** The order with position i taken out; the others keep their relative order. */
  function RemoveAt(order: seq<string>, i: nat): (o: seq<string>)
    requires i < |order|
    ensures |o| == |order| - 1
    ensures forall a :: 0 <= a < i ==> o[a] == order[a]
    ensures forall a :: i <= a < |o| ==> o[a] == order[a + 1]
  {
    order[..i] + order[i + 1..]
  }

  /**
   Deleting a key leaves the other keys in their order; the enumeration
   property carries over to the cart without pid.
   */
  lemma RemoveKeepsEnumeration(cart: map<string, Entry>, order: seq<string>, k: string)
    requires Enumerates(cart, order) && k in cart
    ensures Enumerates(cart - {k}, RemoveAt(order, IndexOf(order, k)))
  {
    var i := IndexOf(order, k);
    var o := RemoveAt(order, i);
    forall a, b | 0 <= a < b < |o| ensures o[a] != o[b] {
      var a' := if a < i then a else a + 1;
      var b' := if b < i then b else b + 1;
      assert o[a] == order[a'] && o[b] == order[b'] && a' < b';
    }
    forall x ensures x in cart - {k} <==> x in o {
      if x in o {
        var a :| 0 <= a < |o| && o[a] == x;
        var a' := if a < i then a else a + 1;
        assert order[a'] == x && a' != i;
      }
      if x in cart && x != k {
        var a :| 0 <= a < |order| && order[a] == x;
        assert a != i;
        if a < i { assert o[a] == x; } else { assert o[a - 1] == x; }
      }
    }
  }

  /** Appending a new key to the order enumerates the cart with that key inserted. */
  lemma InsertKeepsEnumeration(cart: map<string, Entry>, order: seq<string>, k: string, e: Entry)
    requires Enumerates(cart, order) && k !in cart
    ensures Enumerates(cart[k := e], order + [k])
  {
    var o := order + [k];
    forall x ensures x in cart[k := e] <==> x in o {
      if x in order {
        var a :| 0 <= a < |order| && order[a] == x;
        assert o[a] == x;
      }
    }
  }

  /**
   The dict after the add button of product p with quantity q (lines 71-77):
   an id already present gets q more of it and keeps its name, price, image
   and place; a new id gets a record built from the product, appended at the
   end of the iteration order. No other key changes.
   */
  ghost predicate AddedTo(lines: map<string, Entry>, order: seq<string>, p: Product, q: int,
                          lines': map<string, Entry>, order': seq<string>)
  {
    if p.id in lines then
      lines' == lines[p.id := lines[p.id].(qty := lines[p.id].qty + q)] && order' == order
    else
      lines' == lines[p.id := Entry(p.name, p.price, q, p.image)] && order' == order + [p.id]
  }

  /**
   The cart dict of the session, mutated in place by the add and remove
   buttons. `lines` maps a product id to its record; `order` is the dict's
   insertion order, the order in which items are listed and drawn.
   */
  class ShoppingCart {
    var lines: map<string, Entry>
    var order: seq<string>

    ghost predicate Valid()
      reads this
    {
      Enumerates(lines, order) && forall id :: id in lines ==> lines[id].qty >= 1
    }

    /** A fresh empty dict. */
    constructor ()
      ensures Valid() && lines == map[] && order == []
    {
      lines, order := map[], [];
    }

    /** The add button (lines 71-77); the total grows by the stored price times q. */
    method Add(p: Product, q: int)
      requires Valid() && q >= 1
      modifies this
      ensures Valid()
      ensures AddedTo(old(lines), old(order), p, q, lines, order)
      ensures MapTotal(lines) ==
              old(MapTotal(lines)) + (if p.id in old(lines) then old(lines[p.id].price) else p.price) * q
    {
      if p.id in lines {
        var it := lines[p.id];
        MapTotalAddQty(lines, p.id, q);
        lines := lines[p.id := it.(qty := it.qty + q)];
      } else {
        var e := Entry(p.name, p.price, q, p.image);
        InsertKeepsEnumeration(lines, order, p.id, e);
        MapTotalInsert(lines, p.id, e);
        lines := lines[p.id := e];
        order := order + [p.id];
      }
    }

    /** Lines 95-96: exactly that key goes, the rest keep their records and order. */
    method Remove(pid: string)
      requires Valid() && pid in lines
      modifies this
      ensures Valid()
      ensures lines == old(lines) - {pid}
      ensures order == RemoveAt(old(order), IndexOf(old(order), pid))
      ensures MapTotal(lines) == old(MapTotal(lines)) - old(Subtotal(lines[pid]))
    {
      RemoveKeepsEnumeration(lines, order, pid);
      MapTotalRemove(lines, pid);
      order := RemoveAt(order, IndexOf(order, pid));
      lines := lines - {pid};
    }
  }
}
