/**
 * `grid` from the utility header: the row-major index of cell (`x`, `y`) in
 * a `w` by `h` grid, or -1 for a cell outside it. Integers are unbounded
 * here; the source's `y * w + x` is a 32-bit product.
 */
module Utils {

  /** True when (`x`, `y`) is a cell of the `w` by `h` grid. */
  predicate InGrid(w: int, h: int, x: int, y: int)
  {
    0 <= x < w && 0 <= y < h
  }

  function Grid(w: int, h: int, x: int, y: int): (r: int)
    ensures r == -1 <==> !InGrid(w, h, x, y)
    ensures InGrid(w, h, x, y) ==> 0 <= r < w * h && r % w == x && r / w == y
  {
    if x < 0 then -1
    else if y < 0 then -1
    else if x >= w then -1
    else if y >= h then -1
    else
      GridInRange(w, h, x, y);
      y * w + x
  }

  lemma GridInRange(w: int, h: int, x: int, y: int)
    requires InGrid(w, h, x, y)
    ensures 0 <= y * w + x < w * h
    ensures (y * w + x) % w == x && (y * w + x) / w == y
  {
    MulLeft(y, h - 1, w);
    assert (h - 1) * w + w == w * h;
    DivModUnique(y * w + x, w, y, x);
  }

  /** Multiplying by a non-negative factor keeps order. */
  lemma MulLeft(a: int, b: int, w: int)
    requires a <= b && 0 <= w
    ensures a * w <= b * w
  {
    assert b * w - a * w == (b - a) * w;
  }

  /** Quotient and remainder are the only pair with a remainder below `w`. */
  lemma DivModUnique(n: int, w: int, q: int, r: int)
    requires 0 < w && 0 <= r < w && n == q * w + r
    ensures n / w == q && n % w == r
  {
    var q', r' := n / w, n % w;
    assert n == q' * w + r';
    assert (q - q') * w == r' - r;
    if q > q' {
      MulLeft(1, q - q', w);
    } else if q < q' {
      MulLeft(1, q' - q, w);
    }
  }

  /** Distinct cells of the grid get distinct indices. */
  lemma GridInjective(w: int, h: int, x1: int, y1: int, x2: int, y2: int)
    requires Grid(w, h, x1, y1) != -1 && Grid(w, h, x1, y1) == Grid(w, h, x2, y2)
    ensures x1 == x2 && y1 == y2
  {
  }

  /**
   * Every index of a grid with positive width is the index of the cell
   * (`i % w`, `i / w`).
   */
  lemma {:induction false} GridOnto(w: int, h: int, i: int)
    requires 0 < w && 0 <= i < w * h
    ensures InGrid(w, h, i % w, i / w)
    ensures Grid(w, h, i % w, i / w) == i
  {
    var q := i / w;
    assert i == q * w + i % w;
    if q >= h {
      MulLeft(h, q, w);
      assert false;
    }
  }
}
