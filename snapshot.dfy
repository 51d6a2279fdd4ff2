/**
 The downloadable result image (app.py lines 148-182): a white canvas 700 wide
 and 130 * (n + 4) high for n cart entries, a centred title, one 130-pixel
 band per entry and three summary lines. Each paste or draw.text call is
 modelled as a Mark at its anchor, with the vertical extent it occupies.
 */
module Snapshot {
  import opened Missions
  import opened Cart

  const ITEM_H: int := 130
  const WIDTH: int := 700
  const TITLE_Y: int := 20
  const FIRST_ROW: int := 80
  /** Thumbnails are resized to THUMB x THUMB and pasted at x = THUMB_X. */
  const THUMB: int := 100
  const THUMB_X: int := 20
  /** Item text is drawn at x = TEXT_X. */
  const TEXT_X: int := 140
  /** Point sizes of the body and title fonts, taken as the height of a line. */
  const FONT: int := 18
  const TITLE_FONT: int := 30

  /** What one drawing call puts on the canvas. */
  datatype Content =
    | Title(mission: Mission)
    | Thumbnail(url: string)
    | ImageError
    | ItemName(name: string)
    | ItemQty(qty: int)
    | ItemPrice(price: int)
    | TotalSpent(total: int)
    | Remaining(remaining: int)
    | Reason(reason: string)

  /** A drawing call anchored at (x, y) that covers the rows y .. y + height - 1. */
  datatype Mark = Mark(x: int, y: int, height: int, content: Content)

  /** Every mark of ms lies in the horizontal band top .. bottom - 1. */
  predicate InBand(ms: seq<Mark>, top: int, bottom: int)
  {
    forall i :: 0 <= i < |ms| ==> top <= ms[i].y && ms[i].y + ms[i].height <= bottom
  }

  /** Canvas height: one band per entry and four more for the title and the summary. */
  function CanvasHeight(n: nat): (h: int)
    ensures h % ITEM_H == 0 && h / ITEM_H == n + 4
  {
    ITEM_H * (n + 4)
  }

  /** Top of the band of the idx-th entry, counting from 1. */
  function RowY(idx: nat): (y: int)
    requires 1 <= idx
    ensures FIRST_ROW <= y && (y - FIRST_ROW) % ITEM_H == 0 && (y - FIRST_ROW) / ITEM_H == idx - 1
  {
    FIRST_ROW + (idx - 1) * ITEM_H
  }

  /** Top of the summary: the band right after the last entry. */
  function SummaryY(n: nat): (y: int)
    ensures FIRST_ROW <= y && (y - FIRST_ROW) % ITEM_H == 0 && (y - FIRST_ROW) / ITEM_H == n
  {
    FIRST_ROW + n * ITEM_H
  }

  /**
   The closed-form offsets fit together: the title ends above the first entry,
   consecutive entries are one band apart so distinct bands never overlap,
   the summary starts right after the last entry, and the last summary line
   ends inside the canvas.
   */
  lemma LayoutArithmetic(n: nat)
    ensures TITLE_Y + TITLE_FONT <= FIRST_ROW
    ensures forall idx :: 1 <= idx < n ==> RowY(idx + 1) == RowY(idx) + ITEM_H
    ensures forall i, j :: 1 <= i < j ==> RowY(i) + ITEM_H <= RowY(j)
    ensures n >= 1 ==> SummaryY(n) == RowY(n) + ITEM_H
    ensures n == 0 ==> SummaryY(n) == FIRST_ROW
    ensures SummaryY(n) + 70 + FONT <= CanvasHeight(n)
  {
  }

  /**
   Left edge of the centred title: half the free width, rounded down. Python's
   floor division and Dafny's Euclidean division agree for the positive divisor 2.
   */
  function TitleX(textWidth: int): (x: int)
    ensures 0 <= textWidth <= WIDTH ==> 0 <= x && x + textWidth <= WIDTH
    ensures 0 <= (WIDTH - textWidth - x) - x <= 1
  {
    (WIDTH - textWidth) / 2
  }

  /** The four calls for one entry: picture (or the error text), name, quantity, unit price. */
  function RowMarks(idx: nat, e: Entry, fetched: bool): (ms: seq<Mark>)
    requires 1 <= idx
    ensures |ms| == 4
    ensures InBand(ms, RowY(idx), RowY(idx) + ITEM_H)
  {
    var y := RowY(idx);
    var textY := y + 10;
    [ if fetched then Mark(THUMB_X, y, THUMB, Thumbnail(e.image)) else Mark(THUMB_X, y + 40, FONT, ImageError),
      Mark(TEXT_X, textY, FONT, ItemName(e.name)),
      Mark(TEXT_X, textY + 35, FONT, ItemQty(e.qty)),
      Mark(TEXT_X, textY + 65, FONT, ItemPrice(e.price)) ]
  }

  /** The calls of the entry loop, for entries 1 .. |items| in iteration order. */
  function RowsMarks(items: seq<Entry>, fetched: seq<bool>): (ms: seq<Mark>)
    requires |fetched| == |items|
    ensures |ms| == 4 * |items|
  {
    if items == [] then []
    else
      var n := |items| - 1;
      RowsMarks(items[..n], fetched[..n]) + RowMarks(n + 1, items[n], fetched[n])
  }

  /** The three summary lines: total spent, remaining, the reason. */
  function SummaryMarks(n: nat, total: int, remaining: int, reason: string): (ms: seq<Mark>)
    ensures |ms| == 3
  {
    var y := SummaryY(n);
    [ Mark(THUMB_X, y, FONT, TotalSpent(total)),
      Mark(THUMB_X, y + 35, FONT, Remaining(remaining)),
      Mark(THUMB_X, y + 70, FONT, Reason(reason)) ]
  }

  function TitleMark(m: Mission, titleWidth: int): Mark
  {
    Mark(TitleX(titleWidth), TITLE_Y, TITLE_FONT, Title(m))
  }

  /** Everything drawn on the canvas, in drawing order. */
  function SnapshotMarks(m: Mission, titleWidth: int, items: seq<Entry>, fetched: seq<bool>,
                         total: int, remaining: int, reason: string): (ms: seq<Mark>)
    requires |fetched| == |items|
    ensures |ms| == 4 * |items| + 4
  {
    [TitleMark(m, titleWidth)] + RowsMarks(items, fetched) + SummaryMarks(|items|, total, remaining, reason)
  }

  /**
   The entry loop (lines 162-176), over the cart lines in iteration order,
   numbered from 1. The body issues the calls the way the source does, from
   the running y offset; `RowMarks` is the specification it is checked against.
   */
  method DrawRows(items: seq<Entry>, fetched: seq<bool>) returns (marks: seq<Mark>)
    requires |fetched| == |items|
    ensures marks == RowsMarks(items, fetched)
  {
    marks := [];
    for idx := 1 to |items| + 1
      invariant marks == RowsMarks(items[..idx - 1], fetched[..idx - 1])
    {
      var it := items[idx - 1];
      var y := FIRST_ROW + (idx - 1) * ITEM_H;
      var picture := if fetched[idx - 1] then Mark(THUMB_X, y, THUMB, Thumbnail(it.image))
                     else Mark(THUMB_X, y + 40, FONT, ImageError);
      var textY := y + 10;
      var row := [ picture,
                   Mark(TEXT_X, textY, FONT, ItemName(it.name)),
                   Mark(TEXT_X, textY + 35, FONT, ItemQty(it.qty)),
                   Mark(TEXT_X, textY + 65, FONT, ItemPrice(it.price)) ];
      assert row == RowMarks(idx, items[idx - 1], fetched[idx - 1]);
      RowsMarksSnoc(items, fetched, idx - 1);
      marks := marks + row;
    }
    assert items[..|items|] == items && fetched[..|fetched|] == fetched;
  }

  /**
   Builds the canvas height and the drawing calls. `titleWidth` is what
   textbbox measures for the title; `fetched[i]` says whether the i-th
   picture could be downloaded and decoded.
   */
  method DrawSnapshot(m: Mission, titleWidth: int, items: seq<Entry>, fetched: seq<bool>,
                      total: int, remaining: int, reason: string)
    returns (height: int, marks: seq<Mark>)
    requires |fetched| == |items|
    ensures height == CanvasHeight(|items|)
    ensures marks == SnapshotMarks(m, titleWidth, items, fetched, total, remaining, reason)
  {
    // Written out as the source computes it; `TitleMark`, `SummaryMarks` and
    // `CanvasHeight` are the specification this is checked against.
    height := ITEM_H * (|items| + 4);
    var title := Mark((WIDTH - titleWidth) / 2, TITLE_Y, TITLE_FONT, Title(m));
    var rows := DrawRows(items, fetched);
    var ySummary := FIRST_ROW + |items| * ITEM_H;
    marks := [title] + rows +
             [ Mark(THUMB_X, ySummary, FONT, TotalSpent(total)),
               Mark(THUMB_X, ySummary + 35, FONT, Remaining(remaining)),
               Mark(THUMB_X, ySummary + 70, FONT, Reason(reason)) ];
  }

  /** One more turn of the entry loop appends the calls of the next entry. */
  lemma RowsMarksSnoc(items: seq<Entry>, fetched: seq<bool>, i: nat)
    requires |fetched| == |items| && i < |items|
    ensures RowsMarks(items[..i + 1], fetched[..i + 1]) ==
            RowsMarks(items[..i], fetched[..i]) + RowMarks(i + 1, items[i], fetched[i])
  {
    assert items[..i + 1][..i] == items[..i] && fetched[..i + 1][..i] == fetched[..i];
  }

  /** The calls of entry idx sit at positions 4 * (idx - 1) .. 4 * idx - 1 of the entry loop's calls. */
  lemma {:induction false} RowsMarksAt(items: seq<Entry>, fetched: seq<bool>, idx: nat)
    requires |fetched| == |items| && 1 <= idx <= |items|
    ensures RowsMarks(items, fetched)[4 * idx - 4 .. 4 * idx] == RowMarks(idx, items[idx - 1], fetched[idx - 1])
  {
    var n := |items| - 1;
    var pre := RowsMarks(items[..n], fetched[..n]);
    var row := RowMarks(n + 1, items[n], fetched[n]);
    var lo, hi := 4 * idx - 4, 4 * idx;
    if idx <= n {
      RowsMarksAt(items[..n], fetched[..n], idx);
      assert items[..n][idx - 1] == items[idx - 1] && fetched[..n][idx - 1] == fetched[idx - 1];
      SliceOfConcat(pre, row, lo, hi);
    } else {
      SliceOfConcat(pre, row, lo, hi);
    }
  }

  lemma SliceOfConcat(a: seq<Mark>, b: seq<Mark>, lo: nat, hi: nat)
    requires lo <= hi <= |a| + |b| && (hi <= |a| || lo == |a|)
    ensures hi <= |a| ==> (a + b)[lo..hi] == a[lo..hi]
    ensures lo == |a| ==> (a + b)[lo..hi] == b[..hi - lo]
  {
  }

  /** All entry calls lie between the first row and the summary. */
  lemma {:induction false} RowsMarksInBand(items: seq<Entry>, fetched: seq<bool>)
    requires |fetched| == |items|
    ensures InBand(RowsMarks(items, fetched), FIRST_ROW, SummaryY(|items|))
  {
    if items != [] {
      var n := |items| - 1;
      RowsMarksInBand(items[..n], fetched[..n]);
      var pre := RowsMarks(items[..n], fetched[..n]);
      var row := RowMarks(n + 1, items[n], fetched[n]);
      var ms := pre + row;
      forall i | 0 <= i < |ms| ensures FIRST_ROW <= ms[i].y && ms[i].y + ms[i].height <= SummaryY(|items|) {
        if i < |pre| {
          assert ms[i] == pre[i];
        } else {
          assert ms[i] == row[i - |pre|];
        }
      }
    }
  }

  /** Distinct entries get disjoint bands: entry i's band ends where entry j's may start, or earlier. */
  lemma RowsDoNotOverlap(items: seq<Entry>, fetched: seq<bool>, i: nat, j: nat)
    requires |fetched| == |items| && 1 <= i < j <= |items|
    ensures var ms := RowsMarks(items, fetched);
            forall a, b :: 4 * i - 4 <= a < 4 * i && 4 * j - 4 <= b < 4 * j ==>
              ms[a].y + ms[a].height <= ms[b].y
  {
    var ms := RowsMarks(items, fetched);
    RowsMarksAt(items, fetched, i);
    RowsMarksAt(items, fetched, j);
    var ri := RowMarks(i, items[i - 1], fetched[i - 1]);
    var rj := RowMarks(j, items[j - 1], fetched[j - 1]);
    LayoutArithmetic(|items|);
    forall a, b | 4 * i - 4 <= a < 4 * i && 4 * j - 4 <= b < 4 * j
      ensures ms[a].y + ms[a].height <= ms[b].y
    {
      assert ms[a] == ri[a - (4 * i - 4)];
      assert ms[b] == rj[b - (4 * j - 4)];
    }
  }

  /**
   Nothing is drawn outside the canvas: the title sits above the first entry,
   the entries lie before the summary, and the last summary line ends
   inside the canvas height.
   */
  lemma SnapshotFits(m: Mission, titleWidth: int, items: seq<Entry>, fetched: seq<bool>,
                     total: int, remaining: int, reason: string)
    requires |fetched| == |items|
    ensures var ms := SnapshotMarks(m, titleWidth, items, fetched, total, remaining, reason);
            InBand(ms, 0, CanvasHeight(|items|)) &&
            InBand(ms[..1], 0, FIRST_ROW) &&
            InBand(ms[1..|ms| - 3], FIRST_ROW, SummaryY(|items|)) &&
            InBand(ms[|ms| - 3..], SummaryY(|items|), CanvasHeight(|items|))
  {
    var rows := RowsMarks(items, fetched);
    var summary := SummaryMarks(|items|, total, remaining, reason);
    var ms := SnapshotMarks(m, titleWidth, items, fetched, total, remaining, reason);
    RowsMarksInBand(items, fetched);
    assert ms[1..|ms| - 3] == rows;
    assert ms[|ms| - 3..] == summary;
    forall i | 0 <= i < |ms| ensures 0 <= ms[i].y && ms[i].y + ms[i].height <= CanvasHeight(|items|) {
      if 1 <= i < |ms| - 3 {
        assert ms[i] == rows[i - 1];
      } else if i >= |ms| - 3 {
        assert ms[i] == summary[i - (|ms| - 3)];
      }
    }
  }
}
