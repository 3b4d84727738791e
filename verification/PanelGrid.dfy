/** Sizing of the describe view's panel grid. */
module PanelGrid {
  import opened Arithmetic

  const MIN_PANEL_WIDTH := 24
  const MIN_PANEL_HEIGHT := 4
  const GAP := 2

  function Sum(s: seq<int>): int {
    if s == [] then 0 else Sum(s[..|s| - 1]) + s[|s| - 1]
  }

  /** Nearly equal parts: the first `total % n` get one extra. */
  function Share(total: nat, n: nat, i: nat): nat
    requires n > 0
  {
    total / n + (if i < total % n then 1 else 0)
  }

  function SharedBy(total: nat, n: nat, i: nat): int
    requires n > 0
  {
    if i == 0 then 0 else SharedBy(total, n, i - 1) + Share(total, n, i - 1)
  }

  lemma {:induction false} OneMore(i: int, q: int)
    ensures i * q == (i - 1) * q + q
  {
  }

  lemma {:induction false} SharedByFirst(total: nat, n: nat, i: nat)
    requires n > 0
    ensures SharedBy(total, n, i) == i * (total / n) + if i < total % n then i else total % n
  {
    var q := total / n;
    if i > 0 {
      SharedByFirst(total, n, i - 1);
      OneMore(i, q);
    }
  }

  /** The parts make up the total. */
  lemma {:induction false} SharedByAll(total: nat, n: nat)
    requires n > 0
    ensures SharedBy(total, n, n) == total
  {
    SharedByFirst(total, n, n);
  }

  /** No two parts differ by more than one, and the larger ones come first. */
  predicate Even(parts: seq<int>) {
    forall i, j :: 0 <= i < j < |parts| ==> parts[j] <= parts[i] <= parts[j] + 1
  }

  method Distribute(total: nat, n: int) returns (out: seq<int>)
    ensures n <= 0 ==> out == []
    ensures n > 0 ==> |out| == n && Sum(out) == total
    ensures n > 0 ==> forall i :: 0 <= i < n ==> out[i] == Share(total, n, i)
    ensures Even(out)
  {
    if n <= 0 {
      return [];
    }
    var base, rem := total / n, total % n;
    out := [];
    for i := 0 to n
      invariant |out| == i
      invariant forall j :: 0 <= j < i ==> out[j] == Share(total, n, j)
      invariant Sum(out) == SharedBy(total, n, i)
    {
      var size := base;
      if i < rem {
        size := size + 1;
      }
      SumSnoc(out, size);
      out := out + [size];
    }
    SharedByAll(total, n);
  }

  /** Consecutive indices from `first`. */
  function Range(first: int, size: nat): seq<int> {
    seq(size, i requires 0 <= i < size => first + i)
  }

  method SplitColumns(n: nat, cols: int) returns (out: seq<seq<int>>)
    ensures cols <= 0 ==> out == []
    ensures cols > 0 ==> |out| == cols && Joined(out) == Range(0, n)
    ensures cols > 0 ==> forall c :: 0 <= c < cols ==> |out[c]| == Share(n, cols, c)
  {
    var sizes := Distribute(n, cols);
    out := [];
    var idx := 0;
    for c := 0 to |sizes|
      invariant |out| == c
      invariant cols > 0 ==> forall j :: 0 <= j < c ==> |out[j]| == Share(n, cols, j)
      invariant 0 <= idx == Sum(sizes[..c])
      invariant Joined(out) == Range(0, idx)
    {
      var col: seq<int> := [];
      ghost var first := idx;
      for k := 0 to sizes[c]
        invariant idx == first + k && col == Range(first, k)
      {
        col := col + [idx];
        idx := idx + 1;
      }
      assert sizes[..c + 1][..c] == sizes[..c];
      assert (out + [col])[..c] == out;
      assert Range(0, first) + Range(first, sizes[c]) == Range(0, idx);
      out := out + [col];
    }
    assert sizes[..|sizes|] == sizes;
  }

  function Joined(cols: seq<seq<int>>): seq<int> {
    if cols == [] then [] else Joined(cols[..|cols| - 1]) + cols[|cols| - 1]
  }

  function DescribeColCount(n: int, width: int): int {
    var cols := if width >= 170 then 3 else if width >= 110 then 2 else 1;
    var cols' := if cols > n then n else cols;
    if cols' < 1 then 1 else cols'
  }

  function AtLeast(x: int, min: int): int {
    if x < min then min else x
  }

  datatype Layout = Layout(gridH: int, cols: int, single: bool)

  /** The badge line costs one more row of chrome. */
  function LayoutFor(sections: nat, height: int, width: int, badge: bool): Layout {
    var gridH := AtLeast(height - (if badge then 3 else 2), MIN_PANEL_HEIGHT);
    var cols := DescribeColCount(sections, AtLeast(width, MIN_PANEL_WIDTH));
    if sections == 0 then Layout(gridH, cols, true)
    else
      var perCol := (sections + cols - 1) / cols;
      Layout(gridH, cols, gridH < perCol * MIN_PANEL_HEIGHT)
  }

  /** A tile of the grid: its section and its size in cells. */
  datatype Tile = Tile(section: int, width: int, height: int)

  function Heights(tiles: seq<Tile>): seq<int> {
    seq(|tiles|, i requires 0 <= i < |tiles| => tiles[i].height)
  }

  function Sections(tiles: seq<Tile>): seq<int> {
    seq(|tiles|, i requires 0 <= i < |tiles| => tiles[i].section)
  }

  function AllSections(grid: seq<seq<Tile>>): seq<int> {
    if grid == [] then [] else AllSections(grid[..|grid| - 1]) + Sections(grid[|grid| - 1])
  }

  /** Widths of the columns, taken from their first tiles. */
  function Widths(grid: seq<seq<Tile>>): int
    requires forall c :: 0 <= c < |grid| ==> grid[c] != []
  {
    if grid == [] then 0 else Widths(grid[..|grid| - 1]) + grid[|grid| - 1][0].width
  }

  /** A column of tiles, none below the minimum size, filling the grid's height. */
  predicate ColumnFits(tiles: seq<Tile>, gridH: int) {
    && tiles != []
    && (forall k :: 0 <= k < |tiles| ==> tiles[k].height >= 4)
    && (forall k :: 0 <= k < |tiles| ==> tiles[k].width == tiles[0].width >= 24)
    && Sum(Heights(tiles)) == gridH && Even(Heights(tiles))
  }

  /** All columns but the last are equally wide, and that one has what is left over of an even division. */
  predicate WidthsEven(grid: seq<seq<Tile>>)
    requires forall c :: 0 <= c < |grid| ==> grid[c] != []
  {
    forall c :: 0 <= c < |grid| ==>
      if c < |grid| - 1 then grid[c][0].width == grid[0][0].width
      else grid[0][0].width <= grid[c][0].width < grid[0][0].width + |grid|
  }

  /** The tiles cover the sections in order and the working area exactly. */
  predicate GridFits(sections: nat, gridH: int, width: int, grid: seq<seq<Tile>>) {
    && grid != []
    && (forall c :: 0 <= c < |grid| ==> ColumnFits(grid[c], gridH))
    && (forall c, d :: 0 <= c < |grid| && 0 <= d < |grid| ==> |grid[c]| <= |grid[d]| + 1)
    && AllSections(grid) == Range(0, sections)
    && Widths(grid) + 2 * (|grid| - 1) == width && WidthsEven(grid)
  }

  lemma {:induction false} ColumnsAreWide(sections: nat, width: int)
    requires sections > 0 && width >= MIN_PANEL_WIDTH
    ensures var cols := DescribeColCount(sections, width);
            && 1 <= cols <= 3 && cols <= sections
            && (width - GAP * (cols - 1)) / cols >= MIN_PANEL_WIDTH
            && width - ((width - GAP * (cols - 1)) / cols + GAP) * (cols - 1) >= MIN_PANEL_WIDTH
  {
  }

  lemma {:induction false} ColumnSizes(sections: nat, cols: nat, c: nat)
    requires 1 <= cols <= 3 && cols <= sections && c < cols
    ensures 1 <= Share(sections, cols, c) <= (sections + cols - 1) / cols
    ensures sections / cols <= Share(sections, cols, c) <= sections / cols + 1
  {
  }

  /** Splitting at least 4*n rows among n tiles leaves none with fewer than 4. */
  lemma {:induction false} TilesAreTall(gridH: nat, n: nat, k: nat)
    requires n > 0 && gridH >= n * MIN_PANEL_HEIGHT
    ensures Share(gridH, n, k) >= MIN_PANEL_HEIGHT
  {
    var q := gridH / n;
    assert gridH == n * q + gridH % n;
    LessByFactor(n, MIN_PANEL_HEIGHT - 1, q);
  }

  lemma {:induction false} SumSnoc(s: seq<int>, x: int)
    ensures Sum(s + [x]) == Sum(s) + x
  {
    assert (s + [x])[..|s|] == s;
  }

  /** The width a column is drawn with: the last one takes the remainder, both raised to the minimum. */
  function ColumnWidth(width: int, cols: int, ci: int): int
    requires cols > 0
  {
    var colW := AtLeast((width - GAP * (cols - 1)) / cols, MIN_PANEL_WIDTH);
    if ci == cols - 1 then AtLeast(width - (colW + GAP) * (cols - 1), MIN_PANEL_WIDTH) else colW
  }

  function WidthsTo(width: int, cols: int, ci: nat): int
    requires cols > 0
  {
    if ci == 0 then 0 else WidthsTo(width, cols, ci - 1) + ColumnWidth(width, cols, ci - 1)
  }

  lemma {:induction false} WidthsAddUp(sections: nat, width: int)
    requires sections > 0 && width >= MIN_PANEL_WIDTH
    ensures var cols := DescribeColCount(sections, width);
            WidthsTo(width, cols, cols) + GAP * (cols - 1) == width
  {
    ColumnsAreWide(sections, width);
    var cols := DescribeColCount(sections, width);
    if cols == 1 {
      assert WidthsTo(width, 1, 1) == WidthsTo(width, 1, 0) + width;
    } else if cols == 2 {
      assert WidthsTo(width, 2, 1) == (width - GAP) / 2;
    } else {
      assert WidthsTo(width, 3, 1) == (width - 2 * GAP) / 3;
      assert WidthsTo(width, 3, 2) == 2 * ((width - 2 * GAP) / 3);
    }
  }

  /** Every column but the last gets the even share, and the last one less than a cell per column more. */
  lemma {:induction false} ColumnsAreEven(sections: nat, width: int)
    requires sections > 0 && width >= MIN_PANEL_WIDTH
    ensures var cols := DescribeColCount(sections, width);
            forall c :: 0 <= c < cols ==>
              if c < cols - 1 then ColumnWidth(width, cols, c) == ColumnWidth(width, cols, 0)
              else ColumnWidth(width, cols, 0) <= ColumnWidth(width, cols, c) < ColumnWidth(width, cols, 0) + cols
  {
    ColumnsAreWide(sections, width);
    var cols := DescribeColCount(sections, width);
    assert cols == 1 || cols == 2 || cols == 3;
  }

  /** From 110 cells on there are two columns, from 170 on three, but never more than there are sections. */
  lemma {:induction false} ColumnCount(sections: nat, height: int, width: int, badge: bool)
    ensures var cols := LayoutFor(sections, height, width, badge).cols;
            && 1 <= cols <= 3
            && (cols >= 2 <==> width >= 110 && sections >= 2)
            && (cols == 3 <==> width >= 170 && sections >= 3)
  {
  }

  /** The grid takes the height but for two rows, or three with the badge line, and at least four. */
  lemma {:induction false} GridHeight(sections: nat, height: int, width: int, badge: bool)
    ensures var gridH := LayoutFor(sections, height, width, badge).gridH;
            if height >= (if badge then 7 else 6) then gridH + (if badge then 3 else 2) == height else gridH == 4
  {
  }

  method RenderGrid(sections: nat, height: int, width: int, badge: bool) returns (grid: seq<seq<Tile>>)
    requires !LayoutFor(sections, height, width, badge).single
    ensures |grid| == LayoutFor(sections, height, width, badge).cols
    ensures GridFits(sections, LayoutFor(sections, height, width, badge).gridH, AtLeast(width, MIN_PANEL_WIDTH), grid)
  {
    var layout := LayoutFor(sections, height, width, badge);
    var colSections := SplitColumns(sections, layout.cols);
    ColumnsFitHeight(sections, height, width, badge);
    grid := FillGrid(colSections, AtLeast(width, MIN_PANEL_WIDTH), layout.gridH);
    WidthsAddUp(sections, AtLeast(width, MIN_PANEL_WIDTH));
    ColumnsAreEven(sections, AtLeast(width, MIN_PANEL_WIDTH));
    forall c, d | 0 <= c < |grid| && 0 <= d < |grid|
      ensures |grid[c]| <= |grid[d]| + 1
    {
    }
  }

  lemma {:induction false} ColumnsFitHeight(sections: nat, height: int, width: int, badge: bool)
    requires !LayoutFor(sections, height, width, badge).single
    ensures var l := LayoutFor(sections, height, width, badge);
            && 1 <= l.cols <= 3
            && forall c :: 0 <= c < l.cols ==>
                 && 1 <= Share(sections, l.cols, c)
                 && sections / l.cols <= Share(sections, l.cols, c) <= sections / l.cols + 1
                 && Share(sections, l.cols, c) * MIN_PANEL_HEIGHT <= l.gridH
  {
    var l := LayoutFor(sections, height, width, badge);
    ColumnsAreWide(sections, AtLeast(width, MIN_PANEL_WIDTH));
    forall c | 0 <= c < l.cols
      ensures 1 <= Share(sections, l.cols, c) <= (sections + l.cols - 1) / l.cols
      ensures sections / l.cols <= Share(sections, l.cols, c) <= sections / l.cols + 1
    {
      ColumnSizes(sections, l.cols, c);
    }
  }

  method FillGrid(colSections: seq<seq<int>>, width: int, gridH: nat) returns (grid: seq<seq<Tile>>)
    requires colSections != []
    requires forall c :: 0 <= c < |colSections| ==> colSections[c] != [] && |colSections[c]| * MIN_PANEL_HEIGHT <= gridH
    ensures |grid| == |colSections|
    ensures forall c :: 0 <= c < |grid| ==> ColumnFits(grid[c], gridH) && |grid[c]| == |colSections[c]|
    ensures AllSections(grid) == Joined(colSections)
    ensures Widths(grid) == WidthsTo(width, |colSections|, |colSections|)
    ensures forall c :: 0 <= c < |grid| ==> grid[c][0].width == ColumnWidth(width, |grid|, c)
  {
    var cols := |colSections|;
    grid := [];
    for ci := 0 to cols
      invariant |grid| == ci
      invariant forall c :: 0 <= c < ci ==> ColumnFits(grid[c], gridH) && |grid[c]| == |colSections[c]|
      invariant AllSections(grid) == Joined(colSections[..ci])
      invariant Widths(grid) == WidthsTo(width, cols, ci)
      invariant forall c :: 0 <= c < ci ==> grid[c][0].width == ColumnWidth(width, cols, c)
    {
      WidthIsMinimum(width, cols, ci);
      var boxes := RenderColumn(colSections[ci], ColumnWidth(width, cols, ci), gridH);
      GridSnoc(grid, boxes);
      assert colSections[..ci + 1][..ci] == colSections[..ci];
      grid := grid + [boxes];
    }
    assert colSections[..cols] == colSections;
  }

  lemma {:induction false} WidthIsMinimum(width: int, cols: int, ci: int)
    requires cols > 0
    ensures ColumnWidth(width, cols, ci) >= MIN_PANEL_WIDTH
  {
  }

  lemma {:induction false} GridSnoc(grid: seq<seq<Tile>>, boxes: seq<Tile>)
    requires boxes != [] && forall c :: 0 <= c < |grid| ==> grid[c] != []
    ensures AllSections(grid + [boxes]) == AllSections(grid) + Sections(boxes)
    ensures Widths(grid + [boxes]) == Widths(grid) + boxes[0].width
  {
    assert (grid + [boxes])[..|grid|] == grid;
  }

  /** One column; renderPanel raises a tile to the minimum height, which never happens here. */
  method RenderColumn(idxs: seq<int>, width: int, gridH: nat) returns (boxes: seq<Tile>)
    requires idxs != [] && width >= MIN_PANEL_WIDTH && gridH >= |idxs| * MIN_PANEL_HEIGHT
    ensures |boxes| == |idxs| && Sections(boxes) == idxs
    ensures ColumnFits(boxes, gridH) && boxes[0].width == width
  {
    var heights := Distribute(gridH, |idxs|);
    boxes := [];
    for k := 0 to |idxs|
      invariant |boxes| == k
      invariant forall j :: 0 <= j < k ==>
        boxes[j] == Tile(idxs[j], width, heights[j]) && heights[j] >= MIN_PANEL_HEIGHT
    {
      TilesAreTall(gridH, |idxs|, k);
      boxes := boxes + [Tile(idxs[k], width, AtLeast(heights[k], MIN_PANEL_HEIGHT))];
    }
    assert Heights(boxes) == heights;
  }

  /** The single pane is chosen exactly when the grid is too short for the tallest column at minimum height. */
  lemma {:induction false} SinglePaneIff(sections: nat, height: int, width: int, badge: bool)
    ensures var l := LayoutFor(sections, height, width, badge);
            l.single <==> sections == 0 || exists c :: 0 <= c < l.cols && l.gridH < Share(sections, l.cols, c) * MIN_PANEL_HEIGHT
  {
    var l := LayoutFor(sections, height, width, badge);
    if sections > 0 {
      ColumnsAreWide(sections, AtLeast(width, MIN_PANEL_WIDTH));
      assert Share(sections, l.cols, 0) == (sections + l.cols - 1) / l.cols;
      forall c | 0 <= c < l.cols
        ensures Share(sections, l.cols, c) <= Share(sections, l.cols, 0)
      {
      }
    }
  }
}
