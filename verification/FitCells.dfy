/** Fits an image into a box of terminal cells. Scaling is over the real numbers. */
module FitCells {
  import opened Numbers

  datatype Cells = Cells(cols: int, rows: int)

  function ClampPositive(v: int): int {
    if v < 1 then 1 else v
  }

  function CeilDiv(a: int, b: int): int
    requires a >= 1
  {
    if b <= 0 then a else (a + b - 1) / b
  }

  /** The size of a cell in pixels; one by two when it is not known. */
  function CellSize(width: int, height: int): (int, int) {
    if width <= 0 || height <= 0 then (1, 2) else (width, height)
  }

  /** `px` is as near to `size * num / den` as whole pixels allow, but for being raised to one. */
  predicate Nearest(px: int, size: int, num: int, den: int) {
    || (2 * px * den - den <= 2 * size * num <= 2 * px * den + den)
    || (px == 1 && 2 * size * num < den)
  }

  /** `n` cells of `cell` pixels cover `px` pixels, and no fewer do. */
  predicate Fewest(n: int, px: int, cell: int) {
    (n - 1) * cell < px <= n * cell
  }

  /** The factor that makes an axis fill its side of the box. */
  function Scale(size: int, box: int): real
    requires size >= 1
  {
    box as real / size as real
  }

  /** An axis scaled and rounded to whole pixels, at least one. */
  function Pixels(size: int, scale: real): int {
    ClampPositive((size as real * scale + 0.5).Floor)
  }

  method Fit(imgW: int, imgH: int, box: Cells, cellWidth: int, cellHeight: int)
    returns (cols: int, rows: int, pxW: int, pxH: int)
    ensures 1 <= cols <= ClampPositive(box.cols) && 1 <= rows <= ClampPositive(box.rows)
    ensures
      var (cellW, cellH) := CellSize(cellWidth, cellHeight);
      var (w, h) := (ClampPositive(imgW), ClampPositive(imgH));
      var (boxW, boxH) := (ClampPositive(box.cols) * cellW, ClampPositive(box.rows) * cellH);
      && 1 <= pxW <= boxW && 1 <= pxH <= boxH
      && Fewest(cols, pxW, cellW) && Fewest(rows, pxH, cellH)
      && (boxW * h <= boxH * w ==> pxW == boxW && Nearest(pxH, h, boxW, w))
      && (boxH * w <= boxW * h ==> pxH == boxH && Nearest(pxW, w, boxH, h))
  {
    var w, h := imgW, imgH;
    if w <= 0 {
      w := 1;
    }
    if h <= 0 {
      h := 1;
    }
    var boxCols, boxRows := ClampPositive(box.cols), ClampPositive(box.rows);
    var cellW, cellH := cellWidth, cellHeight;
    if cellW <= 0 || cellH <= 0 {
      cellW, cellH := 1, 2;
    }
    var boxPxW, boxPxH := boxCols * cellW, boxRows * cellH;
    BoxIsPositive(boxCols, cellW);
    BoxIsPositive(boxRows, cellH);

    var scaleW := Scale(w, boxPxW);
    var scaleH := Scale(h, boxPxH);
    var scale := scaleW;
    if scaleH < scale {
      scale := scaleH;
    }
    FitsBox(w, h, boxPxW, boxPxH, scale);
    hide Nearest, Fewest, CeilDiv, Scale, Pixels;
    pxW := Pixels(w, scale);
    pxH := Pixels(h, scale);
    if pxW > boxPxW {
      pxW := boxPxW;
    }
    if pxH > boxPxH {
      pxH := boxPxH;
    }
    pxW := ClampPositive(pxW);
    pxH := ClampPositive(pxH);

    cols := ClampPositive(CeilDiv(pxW, cellW));
    rows := ClampPositive(CeilDiv(pxH, cellH));
    CeilIsFewest(pxW, cellW, boxCols);
    CeilIsFewest(pxH, cellH, boxRows);
    if cols > boxCols {
      cols := boxCols;
    }
    if rows > boxRows {
      rows := boxRows;
    }
  }

  lemma BoxIsPositive(n: int, cell: int)
    requires n >= 1 && cell >= 1
    ensures n * cell >= 1
  {
  }

  lemma ScalesCompare(w: int, h: int, boxW: int, boxH: int)
    requires w >= 1 && h >= 1
    ensures Scale(h, boxH) < Scale(w, boxW) <==> boxH * w < boxW * h
    ensures boxH * w == boxW * h ==> Scale(h, boxH) == Scale(w, boxW)
  {
    var a, b, x, y := boxW as real, boxH as real, w as real, h as real;
    assert (a / x) * (x * y) == a * y == (boxW * h) as real;
    assert (b / y) * (x * y) == b * x == (boxH * w) as real;
    Scaled(b / y, a / x, x * y);
    Scaled(a / x, b / y, x * y);
  }

  /** The axis the scale is taken from is filled to the pixel. */
  lemma FullAxis(size: int, box: int)
    requires size >= 1
    ensures (size as real * (box as real / size as real) + 0.5).Floor == box
    ensures box >= 1 ==> Pixels(size, Scale(size, box)) == box
  {
    assert size as real * (box as real / size as real) == box as real;
  }

  /** The other axis is rounded to the nearest pixel and stays within its side of the box. */
  lemma OtherAxis(size: int, num: int, den: int, box: int)
    requires size >= 1 && den >= 1 && num >= 1 && box >= 1 && num * size <= box * den
    ensures 1 <= Pixels(size, Scale(den, num)) <= box && Nearest(Pixels(size, Scale(den, num)), size, num, den)
  {
    hide Nearest;
    AxisRatio(size, num, den, size as real * (num as real / den as real), box);
  }

  lemma AxisRatio(size: int, num: int, den: int, x: real, box: int)
    requires den >= 1 && box >= 1 && num * size <= box * den && x == size as real * (num as real / den as real)
    ensures 1 <= ClampPositive((x + 0.5).Floor) <= box && Nearest(ClampPositive((x + 0.5).Floor), size, num, den)
  {
    var n := size * num;
    Times(size as real, num as real, den as real);
    RealProduct(size, num);
    AxisRounds(n, size, num, den, x, box);
  }

  lemma AxisRounds(n: int, size: int, num: int, den: int, x: real, box: int)
    requires den >= 1 && box >= 1 && n == size * num && n <= box * den && x * den as real == n as real
    ensures 1 <= ClampPositive((x + 0.5).Floor) <= box && Nearest(ClampPositive((x + 0.5).Floor), size, num, den)
  {
    hide Nearest;
    Rounded(x, n, den, (x + 0.5).Floor);
    Below(x, box, n, den);
    Settled((x + 0.5).Floor, n, size, num, den, box);
  }

  lemma Settled(p: int, n: int, size: int, num: int, den: int, box: int)
    requires den >= 1 && box >= 1 && n == size * num && p <= box
    requires 2 * (p * den) - den <= 2 * n < 2 * (p * den) + den
    ensures 1 <= ClampPositive(p) <= box && Nearest(ClampPositive(p), size, num, den)
  {
    assert 2 * size * num == 2 * n && 2 * p * den == 2 * (p * den);
    if p < 1 {
      Smaller(p, 1, den);
    }
  }

  /** Both axes at the smaller of the two scales. */
  lemma FitsBox(w: int, h: int, boxW: int, boxH: int, scale: real)
    requires w >= 1 && h >= 1 && boxW >= 1 && boxH >= 1
    requires scale == if Scale(h, boxH) < Scale(w, boxW) then Scale(h, boxH) else Scale(w, boxW)
    ensures 1 <= Pixels(w, scale) <= boxW && 1 <= Pixels(h, scale) <= boxH
    ensures boxW * h <= boxH * w ==> Pixels(w, scale) == boxW && Nearest(Pixels(h, scale), h, boxW, w)
    ensures boxH * w <= boxW * h ==> Pixels(h, scale) == boxH && Nearest(Pixels(w, scale), w, boxH, h)
  {
    hide Nearest, Pixels, Scale;
    ScalesCompare(w, h, boxW, boxH);
    if boxH * w < boxW * h {
      FitsAlong(h, w, boxH, boxW);
    } else if boxH * w == boxW * h {
      FitsAlong(h, w, boxH, boxW);
      FitsAlong(w, h, boxW, boxH);
    } else {
      FitsAlong(w, h, boxW, boxH);
    }
  }

  /** The axis that binds is full and the other one fits. */
  lemma FitsAlong(w: int, h: int, boxW: int, boxH: int)
    requires w >= 1 && h >= 1 && boxW >= 1 && boxH >= 1 && boxW * h <= boxH * w
    ensures Pixels(w, Scale(w, boxW)) == boxW
    ensures 1 <= Pixels(h, Scale(w, boxW)) <= boxH && Nearest(Pixels(h, Scale(w, boxW)), h, boxW, w)
  {
    hide Nearest, Pixels, Scale;
    FullAxis(w, boxW);
    OtherAxis(h, boxW, w, boxH);
  }

  lemma Times(size: real, num: real, d: real)
    requires d > 0.0
    ensures size * (num / d) * d == size * num
  {
    assert num / d * d == num;
  }

  /** What rounding half up means, in whole numbers: x is n / den, and p the nearest to it. */
  lemma Rounded(x: real, n: int, den: int, p: int)
    requires den >= 1 && x * den as real == n as real && p == (x + 0.5).Floor
    ensures 2 * (p * den) - den <= 2 * n < 2 * (p * den) + den
  {
    var xd, rd := x * den as real, p as real * den as real;
    RealProduct(p, den);
    HalfSteps(x, den as real, p as real, xd, rd);
    Whole(n, p * den, den, xd, rd);
  }

  lemma RealProduct(a: int, b: int)
    ensures (a * b) as real == a as real * b as real
  {
  }

  lemma Whole(n: int, m: int, den: int, xd: real, rd: real)
    requires xd == n as real && rd == m as real
    requires 2.0 * rd - den as real <= 2.0 * xd < 2.0 * rd + den as real
    ensures 2 * m - den <= 2 * n < 2 * m + den
  {
  }

  lemma HalfSteps(x: real, d: real, r: real, xd: real, rd: real)
    requires d > 0.0 && r <= x + 0.5 < r + 1.0 && xd == x * d && rd == r * d
    ensures 2.0 * rd - d <= 2.0 * xd < 2.0 * rd + d
  {
    assert r - x + 0.5 > 0.0 && x - r + 0.5 >= 0.0;
    Signed(x, r, d, xd, rd);
    Signed(r, x, d, rd, xd);
  }

  lemma Signed(x: real, y: real, d: real, xd: real, yd: real)
    requires d > 0.0 && xd == x * d && yd == y * d
    ensures x - y + 0.5 >= 0.0 ==> 2.0 * xd - 2.0 * yd + d >= 0.0
    ensures x - y + 0.5 > 0.0 ==> 2.0 * xd - 2.0 * yd + d > 0.0
  {
    var z := x - y + 0.5;
    assert z * d == xd - yd + 0.5 * d;
    SameSign(z, d);
  }

  lemma SameSign(x: real, d: real)
    requires d > 0.0
    ensures x >= 0.0 ==> x * d >= 0.0
    ensures x > 0.0 ==> x * d > 0.0
  {
  }

  lemma Below(x: real, box: int, n: int, den: int)
    requires den >= 1 && x * den as real == n as real && n <= box * den
    ensures (x + 0.5).Floor <= box
  {
    RealProduct(box, den);
    Scaled(box as real, x, den as real);
    HalfBelow(x, box);
  }

  lemma HalfBelow(x: real, box: int)
    requires x <= box as real
    ensures (x + 0.5).Floor <= box
  {
  }

  lemma CeilIsFewest(px: int, cell: int, box: int)
    requires px >= 1 && cell >= 1 && px <= box * cell
    ensures Fewest(CeilDiv(px, cell), px, cell) && 1 <= CeilDiv(px, cell) <= box
  {
    var a := px + cell - 1;
    var q, r := a / cell, a % cell;
    assert a == q * cell + r && 0 <= r < cell;
    assert (q - 1) * cell == q * cell - cell;
    Smaller(q - 1, box, cell);
    Smaller(0, q, cell);
  }

  lemma Smaller(m: int, n: int, k: int)
    requires k >= 1
    ensures m < n <==> m * k < n * k
  {
    assert n * k - m * k == (n - m) * k;
  }

  // ---------------------------------------------------------------- placement

  function Centred(first: int, room: int, size: int): int {
    first + if room - size > 0 then (room - size) / 2 else 0
  }

  /**
   * The picture as it is placed on a plane of `width` by `rows` cells whose first row is `top`. It stays on the
   * plane exactly if there is one: an empty plane still gets a picture of one cell.
   */
  method Place(imgW: int, imgH: int, width: int, rows: int, top: int, cellWidth: int, cellHeight: int)
    returns (col: int, row: int, cols: int, fitRows: int)
    ensures 1 <= col && top <= row && cols >= 1 && fitRows >= 1
    ensures col + cols <= 1 + width <==> width >= 1
    ensures row + fitRows <= top + rows <==> rows >= 1
    ensures width >= 1 ==> 0 <= (1 + width - (col + cols)) - (col - 1) <= 1
    ensures rows >= 1 ==> 0 <= (top + rows - (row + fitRows)) - (row - top) <= 1
  {
    var pxW, pxH;
    cols, fitRows, pxW, pxH := Fit(imgW, imgH, Cells(width, rows), cellWidth, cellHeight);
    col := Centred(1, width, cols);
    row := Centred(top, rows, fitRows);
  }
}
