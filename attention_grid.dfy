/**
 * The "Community Lab" attention grid: a lattice of small squares, 40 px
 * apart, that stretch towards the cursor within 400 px of it. The cursor
 * distance is a parameter (the Euclidean norm is left abstract), and the
 * rotation angle is not modelled.
 */
module AttentionGrid {
  import opened JsCore

  const Gap: nat := 40
  const MaxDist: real := 400.0
  const BaseSize: real := 12.0
  /** Where the cursor is parked while it is outside the canvas. */
  const Sentinel: real := -1000.0

  /** `Math.ceil(n / d)` for a whole number of pixels. */
  function CeilDiv(n: nat, d: nat): (c: nat)
    requires d > 0
    ensures c * d >= n
    ensures (c - 1) * d < n
  {
    (n + d - 1) / d
  }

  /** The centre of lattice cell `i` along one axis: `i * GAP + GAP / 2`, strictly inside its 40 px cell. */
  function Centre(i: nat): (x: real)
    ensures (i * Gap) as real < x < ((i + 1) * Gap) as real
    ensures x - (i * Gap) as real == ((i + 1) * Gap) as real - x
  {
    (i * Gap) as real + Gap as real / 2.0
  }

  /** How a cell is drawn: stretched (near the cursor) or at rest. */
  datatype Scale = Scale(near: bool, sx: real, sy: real)

  /** The per-cell rule: within 400 px the cell widens and flattens in proportion to its closeness. */
  function Transform(dist: real): (s: Scale)
    ensures s.near <==> dist < MaxDist
    ensures !s.near ==> s.sx == 1.0 && s.sy == 1.0
    ensures s.near && dist >= 0.0 ==> 1.0 < s.sx <= 3.0 && 0.3 <= s.sy < 1.0
  {
    if dist < MaxDist then
      var intensity := 1.0 - dist / MaxDist;
      Scale(true, 1.0 + intensity * 2.0, 1.0 - intensity * 0.7)
    else Scale(false, 1.0, 1.0)
  }

  /** At the cursor itself the cell is at its widest and flattest. */
  lemma AtTheCursor()
    ensures Transform(0.0) == Scale(true, 3.0, 0.3)
  {
  }

  /** Closer cells are wider and flatter: strictly monotone in the near regime. */
  lemma TransformMonotone(d1: real, d2: real)
    requires 0.0 <= d1 < d2 < MaxDist
    ensures Transform(d1).sx > Transform(d2).sx
    ensures Transform(d1).sy < Transform(d2).sy
  {
  }

  /** Both scales approach 1 as the distance approaches 400 from below: no jump at the edge. */
  lemma ContinuousAtEdge(d: real, eps: real)
    requires eps > 0.0 && MaxDist - 100.0 * eps < d < MaxDist
    ensures 0.0 < Transform(d).sx - 1.0 < eps
    ensures 0.0 < 1.0 - Transform(d).sy < eps
  {
  }

  /** `fillRect(-(12*sx)/2, -(12*sy)/2, 12*sx, 12*sy)` in the cell's own frame. */
  datatype Rect = Rect(left: real, top: real, w: real, h: real)

  /** The drawn rectangle is 12*sx by 12*sy and centred on the cell's origin. */
  function RectOf(s: Scale): (r: Rect)
    ensures r.w == BaseSize * s.sx && r.h == BaseSize * s.sy
    ensures r.left + r.w / 2.0 == 0.0 && r.top + r.h / 2.0 == 0.0
  {
    Rect(-(BaseSize * s.sx) / 2.0, -(BaseSize * s.sy) / 2.0, BaseSize * s.sx, BaseSize * s.sy)
  }

  /** A resting cell is the plain 12 px square. */
  lemma RestingCellIsBaseSquare(dist: real)
    requires dist >= MaxDist
    ensures RectOf(Transform(dist)) == Rect(-6.0, -6.0, 12.0, 12.0)
  {
  }

  /** One lattice cell as the frame computes it. */
  datatype Cell = Cell(ix: nat, iy: nat, x: real, y: real, scale: Scale)

  function CellAt(ix: nat, iy: nat, mx: real, my: real, dist: (real, real) -> real): Cell {
    var x := Centre(ix);
    var y := Centre(iy);
    Cell(ix, iy, x, y, Transform(dist(mx - x, my - y)))
  }

  /** Column `ix`, cells `0 .. n-1` from top to bottom: the inner loop. */
  function Column(ix: nat, n: nat, mx: real, my: real, dist: (real, real) -> real): (col: seq<Cell>)
    ensures |col| == n
    ensures forall iy :: 0 <= iy < n ==> col[iy] == CellAt(ix, iy, mx, my, dist)
  {
    if n == 0 then [] else Column(ix, n - 1, mx, my, dist) + [CellAt(ix, n - 1, mx, my, dist)]
  }

  /** Columns `0 .. c-1`, left to right: the outer loop. */
  function Columns(c: nat, rows: nat, mx: real, my: real, dist: (real, real) -> real): seq<Cell> {
    if c == 0 then [] else Columns(c - 1, rows, mx, my, dist) + Column(c - 1, rows, mx, my, dist)
  }

  lemma {:induction false} ColumnsLength(c: nat, rows: nat, mx: real, my: real, dist: (real, real) -> real)
    ensures |Columns(c, rows, mx, my, dist)| == c * rows
  {
    if c > 0 {
      ColumnsLength(c - 1, rows, mx, my, dist);
      assert c * rows == (c - 1) * rows + rows;
    }
  }

  /** The frame visits every cell once, column by column: cell (ix, iy) is at ix*rows + iy. */
  lemma {:induction false} ColumnsAt(c: nat, rows: nat, mx: real, my: real, dist: (real, real) -> real, ix: nat, iy: nat)
    requires ix < c && iy < rows
    ensures ix * rows + iy < |Columns(c, rows, mx, my, dist)| == c * rows
    ensures Columns(c, rows, mx, my, dist)[ix * rows + iy] == CellAt(ix, iy, mx, my, dist)
  {
    ColumnsLength(c, rows, mx, my, dist);
    ColumnsLength(c - 1, rows, mx, my, dist);
    CellIndexBound(ix, iy, c, rows);
    var prev := Columns(c - 1, rows, mx, my, dist);
    var last := Column(c - 1, rows, mx, my, dist);
    var k := ix * rows + iy;
    if ix == c - 1 {
      assert k == |prev| + iy;
      assert (prev + last)[k] == last[iy];
    } else {
      ColumnsAt(c - 1, rows, mx, my, dist, ix, iy);
      assert (prev + last)[k] == prev[k];
    }
  }

  lemma CellIndexBound(ix: nat, iy: nat, c: nat, rows: nat)
    requires ix < c && iy < rows
    ensures ix * rows + iy < c * rows
  {
    assert (ix + 1) * rows == ix * rows + rows;
    MulMonotone(ix + 1, c, rows);
  }

  lemma MulMonotone(a: nat, b: nat, n: nat)
    requires a <= b
    ensures a * n <= b * n
  {
    assert b * n == a * n + (b - a) * n;
  }

  lemma NonNegProduct(a: real, b: real)
    requires a >= 0.0 && b >= 0.0
    ensures a * b >= 0.0
  {
  }

  /** `0 < x < width && 0 < y < height`: the crosshair is drawn only inside the canvas. */
  predicate CrosshairVisible(mx: real, my: real, width: nat, height: nat) {
    0.0 < mx < width as real && 0.0 < my < height as real
  }

  /** The parked cursor never shows a crosshair. */
  lemma SentinelHidesCrosshair(width: nat, height: nat)
    ensures !CrosshairVisible(Sentinel, Sentinel, width, height)
  {
  }

  /**
   * The parked cursor is more than 400 px from every cell, so with the true
   * distance (any non-negative `d` with `d * d == dx * dx + dy * dy`) every
   * cell is at rest.
   */
  lemma SentinelLeavesEveryCellAtRest(ix: nat, iy: nat, d: real)
    requires d >= 0.0
    requires d * d == (Sentinel - Centre(ix)) * (Sentinel - Centre(ix)) + (Sentinel - Centre(iy)) * (Sentinel - Centre(iy))
    ensures !Transform(d).near
  {
    var dx := Centre(ix) - Sentinel;
    var dy := Centre(iy) - Sentinel;
    assert dx >= 1020.0 && dy >= 0.0;
    assert dx * dx >= 1020.0 * 1020.0 by {
      assert dx * dx - 1020.0 * 1020.0 == (dx - 1020.0) * (dx + 1020.0);
      NonNegProduct(dx - 1020.0, dx + 1020.0);
    }
    NonNegProduct(dy, dy);
    assert d * d == dx * dx + dy * dy;
    if d < MaxDist {
      assert MaxDist * MaxDist - d * d == (MaxDist - d) * (MaxDist + d);
      NonNegProduct(MaxDist - d, MaxDist + d);
      assert false;
    }
  }

  /** The canvas, its lattice counts and the cursor position the handlers keep. */
  class Grid {
    var width: nat
    var height: nat
    var cols: nat
    var rows: nat
    var mouseX: real
    var mouseY: real

    /** Before the first `resize()`: no lattice yet, cursor parked. */
    constructor (canvasWidth: nat, canvasHeight: nat)
      ensures width == canvasWidth && height == canvasHeight
      ensures cols == 0 && rows == 0 && mouseX == Sentinel && mouseY == Sentinel
    {
      width, height := canvasWidth, canvasHeight;
      cols, rows := 0, 0;
      mouseX, mouseY := Sentinel, Sentinel;
    }

    /** `resize()`: fit the container, then recount the lattice; nothing happens without a container. */
    method Resize(parent: Option<(nat, nat)>)
      modifies this`width, this`height, this`cols, this`rows
      ensures parent.None? ==> width == old(width) && height == old(height) && cols == old(cols) && rows == old(rows)
      ensures parent.Some? ==> (width, height) == parent.value && cols == CeilDiv(width, Gap) && rows == CeilDiv(height, Gap)
    {
      if parent.Some? {
        width, height := parent.value.0, parent.value.1;
        cols := CeilDiv(width, Gap);
        rows := CeilDiv(height, Gap);
      }
    }

    /** `handleMouseMove`: client coordinates mapped into canvas pixels. */
    method MouseMove(clientX: real, clientY: real, rectLeft: real, rectTop: real, rectWidth: real, rectHeight: real)
      requires rectWidth > 0.0 && rectHeight > 0.0
      modifies this`mouseX, this`mouseY
      ensures mouseX == (clientX - rectLeft) * (width as real / rectWidth)
      ensures mouseY == (clientY - rectTop) * (height as real / rectHeight)
    {
      var scaleX := width as real / rectWidth;
      var scaleY := height as real / rectHeight;
      mouseX := (clientX - rectLeft) * scaleX;
      mouseY := (clientY - rectTop) * scaleY;
    }

    /** `handleMouseLeave`: park the cursor. */
    method MouseLeave()
      modifies this`mouseX, this`mouseY
      ensures mouseX == Sentinel && mouseY == Sentinel
    {
      mouseX, mouseY := Sentinel, Sentinel;
    }

    /** The nested loops of one animation frame, in drawing order. */
    method Frame(dist: (real, real) -> real) returns (cells: seq<Cell>)
      ensures cells == Columns(cols, rows, mouseX, mouseY, dist)
    {
      cells := [];
      for ix := 0 to cols
        invariant cells == Columns(ix, rows, mouseX, mouseY, dist)
      {
        for iy := 0 to rows
          invariant cells == Columns(ix, rows, mouseX, mouseY, dist) + Column(ix, iy, mouseX, mouseY, dist)
        {
          var x := (ix * Gap) as real + Gap as real / 2.0;
          var y := (iy * Gap) as real + Gap as real / 2.0;
          var d := dist(mouseX - x, mouseY - y);
          var scale;
          if d < MaxDist {
            var intensity := 1.0 - d / MaxDist;
            scale := Scale(true, 1.0 + intensity * 2.0, 1.0 - intensity * 0.7);
          } else {
            scale := Scale(false, 1.0, 1.0);
          }
          assert Cell(ix, iy, x, y, scale) == CellAt(ix, iy, mouseX, mouseY, dist);
          cells := cells + [Cell(ix, iy, x, y, scale)];
        }
      }
    }

    /** Whether this frame draws the crosshair. */
    predicate ShowsCrosshair()
      reads this
    {
      CrosshairVisible(mouseX, mouseY, width, height)
    }
  }

  /** After the cursor leaves, the frame shows no crosshair. */
  lemma LeaveHidesCrosshair(g: Grid)
    requires g.mouseX == Sentinel && g.mouseY == Sentinel
    ensures !g.ShowsCrosshair()
  {
  }
}
