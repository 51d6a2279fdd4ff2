# Rational-consumption shopping mission: cart and session model

This project models the logic of the shopping-mission page (`app.py`). A
student picks one of three missions, then adds catalogue products to a cart
in chosen quantities. The cart is checked against a budget of 30 000 won.
The student submits the cart, writes down a reason, and can download a
result image. The model covers:

- **Catalogue** (`catalog.dfy`, module `Catalog`). The spreadsheet is a
  sequence of rows with cells that may be missing. `load_products` drops the
  incomplete rows. It gives each remaining product the id `item_<row label>`,
  and its price is `int()` of the cell, which truncates toward zero. The
  model proves that the loaded products are exactly those built from complete
  rows, and that no two of them share an id.
- **Cart** (`cart.dfy`, module `Cart`). The cart dict is the class
  `ShoppingCart`. Its field `lines` maps a product id to an `Entry` record
  (name, price, qty, image). Its field `order` is the dict's insertion order.
  "Add" and "remove" change the dict in place. The total is defined three
  ways:
  - the shopping screen's accumulation loop (`CartTotal`);
  - the results screen's `sum(...)` over `cart.values()` (`Sum` of `Values`);
  - an order-free total over the map (`MapTotal`).

  The three are proved equal. Lemmas state how add and remove change the
  total.
- **Session** (`session.dfy`, module `App`). The class `SessionState` holds
  `mission`, `cart`, `quantities`, `submitted`, `reason` and
  `reasonSubmitted`. The screen shown is a function of these fields:
  mission selection, shopping, or results. Each button press is a method
  that may only be called while its screen is shown. The invariant `Valid()`
  states:
  - every quantity and every cart line is at least 1;
  - every cart line carries its catalogue product's name, price and image;
  - nothing is bought before a mission is chosen;
  - the session can be in the submitted state only with a non-empty cart
    whose total is within budget, so the remaining amount shown on the
    results screen is never negative;
  - a reason exists only after submission.

  Reset returns the session to its initial state.
- **Result image layout** (`snapshot.dfy`, module `Snapshot`). The canvas is
  `130 * (n + 4)` pixels high. Entry `idx` starts at `80 + (idx - 1) * 130`
  and the summary at `80 + n * 130`. Each paste or `draw.text` call becomes
  a `Mark` with an anchor and a vertical extent. The lemmas prove three
  things: distinct entries occupy disjoint 130-pixel bands, the title lies
  above the entries and the summary below them, and every mark lies inside
  the canvas. The title is centred with floor division, so either side is at
  most one pixel wider than the other.
- `missions.dfy` (module `Missions`) names the three missions.

Descriptions of this system speak of a budget attached to each mission. The
code has a single `BUDGET = 30_000` shared by all missions, and the model
follows the code. No keyword classifier of product names exists in `app.py`,
so none is modelled.

## Model

| member | source | states |
|---|---|---|
| `Catalog.Truncate` | app.py:25 | `int()` of a price cell truncates toward zero: the result has the sign of the cell and is less than 1 away from it, on the zero side |
| `Catalog.NatToString` | app.py:25 | the row label in the id is written as decimal digits that denote exactly that label (`DecimalValue(s) == n`); it is one character long exactly when the label is below 10 |
| `Catalog.NatToStringInjective` | app.py:25 | two different row labels never render as the same digit string |
| `Catalog.ItemIdInjective` | app.py:25 | `item_{i}` ids of different row labels differ |
| `Catalog.LoadProducts` | app.py:22-27 | at most one product per row of the sheet; what it loads is stated by the three lemmas below |
| `Catalog.LoadedFromRow` | app.py:23-26 | every loaded product is the one built from a complete row at that row's label |
| `Catalog.RowLoaded` | app.py:23-26 | the product built from every complete row is loaded |
| `Catalog.LoadProductsMembers` | app.py:22-27 | a product is loaded if and only if it is built from a row that has name, price and image |
| `Catalog.LoadedIdsBelow` | app.py:24-26 | every loaded id is `item_{i}` for the label i of a row of the sheet |
| `Catalog.LoadProductsDistinct` | app.py:22-27 | `load_products` never gives out the same id twice |
| `Cart.Values` | app.py:112 | `cart.values()`: one record per key of the iteration order, the one stored under that key |
| `Cart.Sum` | app.py:112 | the empty cart totals 0, and lines with non-negative price and qty never total below 0; `SumIsMapTotal` ties it to the order-free total |
| `Cart.MapTotalRemove` | app.py:95-96 | deleting one key lowers the total by exactly that line's price * qty |
| `Cart.MapTotalInsert` | app.py:73-77 | inserting a new line raises the total by its price * qty |
| `Cart.MapTotalAddQty` | app.py:71-72 | raising one line's qty by q raises the total by its price * q |
| `Cart.EnumerationSize` | app.py:149 | the iteration order lists exactly `len(cart)` keys |
| `Cart.SumIsMapTotal` | app.py:112 | the `sum(...)` over `cart.values()` in iteration order equals the order-free total of the cart |
| `Cart.SumOrderIndependent` | app.py:87-89 | any two iteration orders of the same cart give the same total |
| `Cart.CartTotal` | app.py:82-89 | the accumulation loop returns both the `sum(...)` expression and the order-free total |
| `Cart.RemoveKeepsEnumeration` | app.py:95-96 | after `del cart[pid]`, the remaining keys in their old relative order still list each key of the cart exactly once |
| `Cart.InsertKeepsEnumeration` | app.py:74-77 | a new key appended to the order keeps each key listed exactly once |
| `Cart.ShoppingCart.constructor` | app.py:16 | the cart starts as an empty dict |
| `Cart.ShoppingCart.Add` | app.py:69-77 | an existing id gets q more and keeps name, price, image and position; a new id gets the product's record with qty q at the end; no other key changes; qty stays at least 1; the total grows by price * q |
| `Cart.ShoppingCart.Remove` | app.py:95-96 | exactly key pid is deleted; the others keep their records and order; the total drops by that line's subtotal |
| `Snapshot.CanvasHeight` | app.py:148-149 | the canvas is exactly n + 4 whole 130-pixel bands high |
| `Snapshot.RowY` | app.py:163 | entry idx's band starts idx - 1 whole bands below y = 80 |
| `Snapshot.SummaryY` | app.py:179 | the summary starts n whole bands below y = 80, right after the last entry |
| `Snapshot.RowsMarks` | app.py:162-176 | the entry loop issues four calls per entry |
| `Snapshot.SnapshotMarks` | app.py:153-182 | the image is the title call, four calls per entry and three summary calls: 4n + 4 in all |
| `Snapshot.LayoutArithmetic` | app.py:148-182 | the title ends above row 1; consecutive rows are 130 apart and distinct rows never overlap; the summary starts right after the last row; the last summary line ends inside the canvas height `130 * (n + 4)` |
| `Snapshot.TitleX` | app.py:155-158 | a title no wider than the canvas is drawn inside it, and its left and right margins differ by at most one pixel |
| `Snapshot.RowMarks` | app.py:162-176 | the four calls for entry idx (picture or error text, name, quantity, price) lie inside that entry's 130-pixel band |
| `Snapshot.DrawRows` | app.py:162-176 | the entry loop produces exactly the calls of `RowsMarks`, entry by entry in iteration order |
| `Snapshot.DrawSnapshot` | app.py:148-182 | the canvas height is `130 * (n + 4)`, and the calls are the title, the entry calls and the three summary lines |
| `Snapshot.RowsMarksAt` | app.py:162-163 | the calls of entry idx are at positions `4 * (idx - 1)` to `4 * idx - 1` of the entry calls |
| `Snapshot.RowsMarksInBand` | app.py:162-179 | all entry calls lie between y = 80 and the summary |
| `Snapshot.RowsDoNotOverlap` | app.py:162-163 | every call of an earlier entry ends at or above every call of a later entry |
| `Snapshot.SnapshotFits` | app.py:148-182 | every call lies inside the canvas: the title above the first row, the entries before the summary, the summary above the bottom edge |
| `App.LinesStayFromCatalog` | app.py:69-77 | storing a catalogue record with qty at least 1 keeps every cart line a catalogue record with qty at least 1 |
| `App.SessionState.CurrentPhase` | app.py:38-110 | the results screen is shown exactly when submitted; mission selection exactly when there is no mission and nothing is submitted; shopping otherwise |
| `App.SessionState.Valid` | app.py:13-136 | the session invariant implies the cart's own invariant, and on the results screen a non-empty cart with a remaining budget of at least 0 |
| `App.SessionState.constructor` | app.py:13-29 | the products are `load_products` of the sheet, and the session starts with no mission, a new empty cart object, empty quantities, nothing submitted and an empty reason |
| `App.SessionState.ChosenQuantity` | app.py:62-66 | the quantity an add uses is the stored one, or 1 when none is stored, and never below 1 |
| `App.SessionState.StartMission` | app.py:38-43 | allowed only on the mission screen; it sets the mission and moves to shopping, and nothing else changes |
| `App.SessionState.SetQuantity` | app.py:61-66 | allowed only while shopping, with a value of at least 1; it stores that value for the product |
| `App.SessionState.Add` | app.py:69-77 | allowed only while shopping; the cart changes as `ShoppingCart.Add` with the chosen quantity; the stored price always equals the catalogue price, so the total grows by catalogue price * quantity; the invariants hold |
| `App.SessionState.Remove` | app.py:95-96 | allowed only while shopping, for a key in the cart; exactly that key goes and the total drops by its subtotal |
| `App.SessionState.Submit` | app.py:82-107 | the loop total is computed; the press submits if and only if the cart is non-empty and the total is at most `BUDGET`; otherwise nothing changes |
| `App.SessionState.Summary` | app.py:110-113 | on the results screen the total is at most `BUDGET`, and `remaining == BUDGET - total` is at least 0 |
| `App.SessionState.SubmitReason` | app.py:128-136 | allowed only on the results screen; it stores the reason and sets `reason_submitted` |
| `App.SessionState.Snapshot` | app.py:140-182 | only after a reason is submitted; the image is `SnapshotMarks` of the cart in iteration order, with the total and remaining, and every call lies inside the canvas |
| `App.SessionState.Reset` | app.py:197-199 | allowed only on the results screen; it returns the session to its initial state with a fresh empty cart |

## Left out

- Page rendering and widgets: page setup, titles, columns, images, markdown, captions, toasts and `st.experimental_rerun`. Only the effect of each button press or input value on the session is modelled. A rerun after "remove" ends the cart loop, so it is not the dict being changed while it is iterated.
- The quantity input's own widget state (key `qty_<id>`) is taken to be the same as `quantities[id]`. On every render of the shopping screen, line 66 stores the shown value of every product, so after the first render `quantities` holds every product id (with 1 for the untouched ones). The model stores a value only for a product whose input was changed (`SetQuantity`). `ChosenQuantity` reads a missing id as 1, so both give the same quantity for every add.
- Spreadsheet reading (`pd.read_excel`, its column handling and `@st.cache_data`) is foreign library code. The sheet is a given sequence of rows whose cells may be missing. A price cell is a real number, so floating-point rounding of the cell is not modelled. The cache is modelled only in the sense that the products survive a reset.
- Fonts, `textbbox`, image download (`requests.get`) and PIL decoding, resizing and pasting are I/O or foreign graphics. The measured title width and whether each picture loaded are parameters of `Snapshot`. A line of text is taken to be as tall as its font size (18, or 30 for the title).
- Text widths are not modelled, so horizontal overflow of long text is not covered. For example, the reason line is not wrapped.
- Snapshot.SnapshotFits and App.SessionState.Snapshot: every text call is treated as one line of font height. The reason comes from a text area and may hold line breaks, which `draw.text` draws as several lines; the 370 pixels below the reason's anchor hold about 17 lines of 18 pixels. A longer reason runs past the bottom edge, and a product name with a line break overlaps the quantity line. The fit is proved only for text without line breaks.
- PNG encoding, the download button and the time-stamped file name (`datetime.now()`): I/O and the clock.
- The blanket `try/except` blocks that show an error message (lines 142, 165-170, 192-194) are not modelled, except for the per-picture case, which becomes a `fetched` flag and the "image error" text. A failure to load the font, and the message shown for it, are not modelled.
- The Korean labels, mission descriptions and the `{total:,}` thousands formatting are presentation only. A drawn line carries the number or text it shows, not its formatted string.
