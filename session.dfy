/**
 The per-session state of the page and the button presses that change it
 (app.py lines 13-199). The page shows one of three screens, chosen by the
 session fields on every rerun: mission selection, shopping, results.
 */
module App {
  import opened Catalog
  import opened Missions
  import opened Cart
  import opened Snapshot

  datatype Phase = MissionSelection | Shopping | Results

  /** The entry stored under id carries the name, price and image of the catalogue product with that id. */
  ghost predicate FromCatalog(products: seq<Product>, id: string, e: Entry)
  {
    exists i :: 0 <= i < |products| && products[i].id == id &&
      e.name == products[i].name && e.price == products[i].price && e.image == products[i].image
  }

  /** Every line of the cart has a quantity of at least 1 and catalogue name, price and image. */
  ghost predicate LinesFromCatalog(products: seq<Product>, cart: map<string, Entry>)
  {
    forall id :: id in cart ==> cart[id].qty >= 1 && FromCatalog(products, id, cart[id])
  }

  /** Storing one more catalogue line with a positive quantity keeps every line a catalogue line. */
  lemma LinesStayFromCatalog(products: seq<Product>, cart: map<string, Entry>, id: string, e: Entry)
    requires LinesFromCatalog(products, cart)
    requires e.qty >= 1 && FromCatalog(products, id, e)
    ensures LinesFromCatalog(products, cart[id := e])
  {
  }

  class SessionState {
    /** The loaded catalogue; it is cached outside the session and survives a reset. */
    const products: seq<Product>
    var mission: Option<Mission>
    /** st.session_state.cart: a dict object that the buttons change in place. */
    var cart: ShoppingCart
    var quantities: map<string, int>
    var submitted: bool
    var reason: string
    var reasonSubmitted: bool

    /** The screen the if/elif chain at lines 38, 46 and 110 renders. */
    function CurrentPhase(): (p: Phase)
      reads this
      ensures p == Results <==> submitted
      ensures p == MissionSelection <==> mission.None? && !submitted
      ensures p == Shopping <==> mission.Some? && !submitted
    {
      if mission.None? && !submitted then MissionSelection
      else if !submitted then Shopping
      else Results
    }

    /** The state the session is initialised to (lines 14-18). */
    ghost predicate Initial()
      reads this, cart
    {
      mission == None && cart.lines == map[] && cart.order == [] && quantities == map[] &&
      !submitted && reason == "" && !reasonSubmitted
    }

    /** The quantity inputs never go below 1. */
    ghost predicate QuantitiesValid()
      reads this
    {
      forall id :: id in quantities ==> quantities[id] >= 1
    }

    /**
     The session invariant. The one consequence the results screen relies on:
     whenever it is shown, the cart is non-empty and the remaining budget is
     not negative.
     */
    ghost predicate Valid()
      reads this, cart
      ensures Valid() ==> cart.Valid()
      ensures Valid() && CurrentPhase() == Results ==> cart.lines != map[] && BUDGET - MapTotal(cart.lines) >= 0
    {
      DistinctIds(products) &&
      cart.Valid() &&
      QuantitiesValid() &&
      LinesFromCatalog(products, cart.lines) &&
      // nothing is chosen or bought before a mission is started
      (mission.None? ==> !submitted && cart.lines == map[] && quantities == map[]) &&
      // the results screen is reached only through the budget gate
      (submitted ==> SubmitOffered(cart.lines)) &&
      // the reason belongs to the results screen
      (reasonSubmitted ==> submitted) &&
      (!submitted ==> reason == "")
    }

    /** A first visit: products are loaded and the session fields initialised. */
    constructor (rows: seq<Row>)
      ensures products == LoadProducts(rows)
      ensures Initial() && Valid() && CurrentPhase() == MissionSelection
      ensures fresh(cart)
    {
      products := LoadProducts(rows);
      mission := None;
      cart := new ShoppingCart();
      quantities := map[];
      submitted, reason, reasonSubmitted := false, "", false;
      LoadProductsDistinct(rows);
    }

    /** The value the quantity input of a product shows: the stored one, else 1. */
    function ChosenQuantity(id: string): (q: int)
      requires QuantitiesValid()
      reads this
      ensures q >= 1
      ensures id !in quantities ==> q == 1
    {
      if id in quantities then quantities[id] else 1
    }

    /** "Start mission" (lines 41-42). */
    method StartMission(choice: Mission)
      requires Valid() && CurrentPhase() == MissionSelection
      modifies this
      ensures Valid() && CurrentPhase() == Shopping
      ensures mission == Some(choice)
      ensures cart == old(cart) && quantities == old(quantities)
      ensures submitted == old(submitted) && reason == old(reason) && reasonSubmitted == old(reasonSubmitted)
    {
      mission := Some(choice);
    }

    /** The quantity input of product i (lines 61-66); the widget's minimum is 1. */
    method SetQuantity(i: nat, q: int)
      requires Valid() && CurrentPhase() == Shopping
      requires i < |products| && q >= 1
      modifies this
      ensures Valid() && CurrentPhase() == Shopping
      ensures quantities == old(quantities)[products[i].id := q]
      ensures mission == old(mission) && cart == old(cart)
      ensures submitted == old(submitted) && reason == old(reason) && reasonSubmitted == old(reasonSubmitted)
    {
      quantities := quantities[products[i].id := q];
    }

    /**
     Product i's "add" button (lines 69-77), with the quantity its input
     shows. The stored record always agrees with the catalogue, so the total
     grows by the product's price times that quantity.
     */
    method Add(i: nat)
      requires Valid() && CurrentPhase() == Shopping
      requires i < |products|
      modifies cart
      ensures Valid() && CurrentPhase() == Shopping
      ensures AddedTo(old(cart.lines), old(cart.order), products[i], old(ChosenQuantity(products[i].id)), cart.lines, cart.order)
      ensures MapTotal(cart.lines) == old(MapTotal(cart.lines)) + products[i].price * old(ChosenQuantity(products[i].id))
    {
      var item := products[i];
      var qty := ChosenQuantity(item.id);
      ghost var before := cart.lines;
      if item.id in cart.lines {
        var it := cart.lines[item.id];
        assert it.price == item.price by {
          var j :| 0 <= j < |products| && products[j].id == item.id && it.price == products[j].price;
          assert j == i;
        }
        LinesStayFromCatalog(products, cart.lines, item.id, it.(qty := it.qty + qty));
      } else {
        LinesStayFromCatalog(products, cart.lines, item.id, Entry(item.name, item.price, qty, item.image));
      }
      cart.Add(item, qty);
      assert MapTotal(cart.lines) == MapTotal(before) + item.price * qty;
    }

    /** The "remove" button of cart line pid (lines 95-96). */
    method Remove(pid: string)
      requires Valid() && CurrentPhase() == Shopping
      requires pid in cart.lines
      modifies cart
      ensures Valid() && CurrentPhase() == Shopping
      ensures cart.lines == old(cart.lines) - {pid}
      ensures cart.order == RemoveAt(old(cart.order), IndexOf(old(cart.order), pid))
      ensures MapTotal(cart.lines) == old(MapTotal(cart.lines)) - old(Subtotal(cart.lines[pid]))
    {
      cart.Remove(pid);
    }

    /**
     The submit button (lines 82-107). The loop total is computed; an empty
     cart or a total over budget shows a message instead of the button, and
     nothing changes. Otherwise the press moves the session to the results.
     */
    method Submit() returns (offered: bool)
      requires Valid() && CurrentPhase() == Shopping
      modifies this
      ensures Valid()
      ensures offered <==> cart.lines != map[] && MapTotal(cart.lines) <= BUDGET
      ensures submitted == offered
      ensures CurrentPhase() == if offered then Results else Shopping
      ensures mission == old(mission) && cart == old(cart) && quantities == old(quantities)
      ensures reason == old(reason) && reasonSubmitted == old(reasonSubmitted)
    {
      var total := CartTotal(cart.lines, cart.order);
      offered := cart.lines != map[] && total <= BUDGET;
      if offered {
        submitted := true;
      }
    }

    /** The results screen's figures (lines 111-113): the sum over cart.values() and what is left. */
    method Summary() returns (total: int, remaining: int)
      requires Valid() && CurrentPhase() == Results
      ensures total == MapTotal(cart.lines) && total <= BUDGET
      ensures remaining == BUDGET - total && remaining >= 0
    {
      SumIsMapTotal(cart.lines, cart.order);
      total := Sum(Values(cart.lines, cart.order));
      remaining := BUDGET - total;
    }

    /** "Submit reason" (lines 135-136). */
    method SubmitReason(text: string)
      requires Valid() && CurrentPhase() == Results
      modifies this
      ensures Valid() && CurrentPhase() == Results
      ensures reason == text && reasonSubmitted
      ensures mission == old(mission) && cart == old(cart)
      ensures quantities == old(quantities) && submitted == old(submitted)
    {
      reason, reasonSubmitted := text, true;
    }

    /**
     The result image (lines 148-182), offered once a reason is submitted.
     `titleWidth` is the measured title width; `fetched[k]` says whether the
     picture of the k-th line could be loaded.
     */
    method Snapshot(titleWidth: int, fetched: seq<bool>) returns (height: int, marks: seq<Mark>)
      requires Valid() && CurrentPhase() == Results && reasonSubmitted
      requires |fetched| == |cart.order|
      ensures height == CanvasHeight(|cart.lines|)
      ensures InBand(marks, 0, height)
      ensures marks == SnapshotMarks(mission.value, titleWidth, Values(cart.lines, cart.order), fetched,
                                     MapTotal(cart.lines), BUDGET - MapTotal(cart.lines), reason)
    {
      var total, remaining := Summary();
      var items := Values(cart.lines, cart.order);
      height, marks := DrawSnapshot(mission.value, titleWidth, items, fetched, total, remaining, reason);
      SnapshotFits(mission.value, titleWidth, items, fetched, total, remaining, reason);
      EnumerationSize(cart.lines, cart.order);
    }

    /** "Back to start" (lines 197-199): the session is cleared and initialised afresh. */
    method Reset()
      requires Valid() && CurrentPhase() == Results
      modifies this
      ensures Initial() && Valid() && CurrentPhase() == MissionSelection
      ensures fresh(cart)
    {
      mission := None;
      cart := new ShoppingCart();
      quantities := map[];
      submitted, reason, reasonSubmitted := false, "", false;
    }
  }
}
