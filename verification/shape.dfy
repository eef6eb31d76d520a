/**
 * `rect_t`: an axis-aligned rectangle with corner (`x`, `y`), width `w` and
 * height `h`, updated in place by `margin` and `centerize`. Floats are reals;
 * rounding (including of `w * 0.5f`) is not modelled.
 */
module Shape {
  import opened Geometry

  /** A point with coordinates (`u`, `v`) and a zero z, as `vertices` writes it. */
  function Flat3(p: Vec2): seq<real>
  {
    [p.u, p.v, 0.0]
  }

  /** The points of `ps`, each as three floats with a zero z. */
  function Flatten3(ps: seq<Vec2>): (r: seq<real>)
    ensures |r| == 3 * |ps|
    ensures forall k :: 0 <= k < |ps| ==> r[3 * k] == ps[k].u && r[3 * k + 1] == ps[k].v && r[3 * k + 2] == 0.0
  {
    if |ps| == 0 then [] else Flat3(ps[0]) + Flatten3(ps[1..])
  }

  /** The points of `ps`, each as two floats. */
  function Flatten2(ps: seq<Vec2>): (r: seq<real>)
    ensures |r| == 2 * |ps|
    ensures forall k :: 0 <= k < |ps| ==> r[2 * k] == ps[k].u && r[2 * k + 1] == ps[k].v
  {
    if |ps| == 0 then [] else [ps[0].u, ps[0].v] + Flatten2(ps[1..])
  }

  /** Zero for negative values, as `margin` clamps the size. */
  function ClampToZero(v: real): (r: real)
    ensures r >= 0.0 && r >= v
    ensures v >= 0.0 ==> r == v
  {
    if v < 0.0 then 0.0 else v
  }

  class Rect {
    var x: real
    var y: real
    var w: real
    var h: real

    constructor (x: real, y: real, w: real, h: real)
      ensures this.x == x && this.y == y && this.w == w && this.h == h
    {
      this.x, this.y, this.w, this.h := x, y, w, h;
    }

    /**
     * The six corners `vertices` emits, two triangles: (x, y), (x+w, y),
     * (x, y+h), then (x+w, y+h), (x+w, y), (x, y+h).
     */
    function Corners(): (cs: seq<Vec2>)
      reads this
      ensures |cs| == 6
      ensures cs[1] == cs[4] && cs[2] == cs[5]
      ensures cs[0].u == cs[2].u == x && cs[1].u == cs[3].u == x + w
      ensures cs[0].v == cs[1].v == y && cs[2].v == cs[3].v == y + h
    {
      var a, b, c, d := Vec2(x, y), Vec2(x + w, y), Vec2(x, y + h), Vec2(x + w, y + h);
      [a, b, c, d, b, c]
    }

    /** `center_x`: the midpoint of the horizontal extent. */
    function CenterX(): (c: real)
      reads this
      ensures c - x == x + w - c
      ensures w >= 0.0 ==> x <= c <= x + w
    {
      x + w * 0.5
    }

    /** `center_y`: the midpoint of the vertical extent. */
    function CenterY(): (c: real)
      reads this
      ensures c - y == y + h - c
      ensures h >= 0.0 ==> y <= c <= y + h
    {
      y + h * 0.5
    }

    /**
     * `contains`: the point lies in the rectangle, edges included; that is,
     * within half the width and half the height of the centre.
     */
    predicate Contains(ox: real, oy: real)
      reads this
      ensures Contains(ox, oy) <==>
        -w * 0.5 <= ox - CenterX() <= w * 0.5 && -h * 0.5 <= oy - CenterY() <= h * 0.5
      ensures Contains(ox, oy) ==> w >= 0.0 && h >= 0.0
    {
      ox >= x && ox <= x + w && oy >= y && oy <= y + h
    }

    /** `vertices`: the six corners as 18 floats, z zero; later slots kept. */
    method Vertices(out: array<real>)
      requires out.Length >= 18
      modifies out
      ensures out[..18] == Flatten3(Corners())
      ensures out[18..] == old(out[18..])
    {
      var vs := [x, y, 0.0, x + w, y, 0.0, x, y + h, 0.0,
                 x + w, y + h, 0.0, x + w, y, 0.0, x, y + h, 0.0];
      forall i | 0 <= i < 18 {
        out[i] := vs[i];
      }
      FlattenSix(Corners());
      assert out[..18] == vs;
    }

    /** `vertices_2d`: the same six corners as 12 floats; later slots kept. */
    method Vertices2D(out: array<real>)
      requires out.Length >= 12
      modifies out
      ensures out[..12] == Flatten2(Corners())
      ensures out[12..] == old(out[12..])
    {
      var vs := [x, y, x + w, y, x, y + h, x + w, y + h, x + w, y, x, y + h];
      forall i | 0 <= i < 12 {
        out[i] := vs[i];
      }
      FlattenSix(Corners());
      assert out[..12] == vs;
    }

    /**
     * `margin(amount)`: move the corner in by `amount` on both axes and
     * shrink both sizes by twice that, clamping a negative size to zero.
     * The corner moves even when a size is clamped; the centre stays put
     * when no size is clamped.
     */
    method Margin(amount: real)
      modifies this
      ensures x == old(x) + amount && y == old(y) + amount
      ensures w == ClampToZero(old(w) - 2.0 * amount) && h == ClampToZero(old(h) - 2.0 * amount)
      ensures w >= 0.0 && h >= 0.0
      ensures old(w) - 2.0 * amount >= 0.0 ==> CenterX() == old(CenterX())
      ensures old(h) - 2.0 * amount >= 0.0 ==> CenterY() == old(CenterY())
    {
      x := x + amount;
      w := w - amount * 2.0;
      y := y + amount;
      h := h - amount * 2.0;
      if w < 0.0 {
        w := 0.0;
      }
      if h < 0.0 {
        h := 0.0;
      }
    }

    /**
     * `centerize`: treat the corner as the centre, moving it back by half the
     * size. Returns the rectangle itself.
     */
    method Centerize() returns (self: Rect)
      modifies this
      ensures self == this
      ensures x == old(x) - old(w) * 0.5 && y == old(y) - old(h) * 0.5
      ensures w == old(w) && h == old(h)
      ensures CenterX() == old(x) && CenterY() == old(y)
    {
      x := x - w * 0.5;
      y := y - h * 0.5;
      return this;
    }
  }

  /** Six points flattened, written out slot by slot. */
  lemma FlattenSix(ps: seq<Vec2>)
    requires |ps| == 6
    ensures Flatten3(ps) == [ps[0].u, ps[0].v, 0.0, ps[1].u, ps[1].v, 0.0, ps[2].u, ps[2].v, 0.0,
                             ps[3].u, ps[3].v, 0.0, ps[4].u, ps[4].v, 0.0, ps[5].u, ps[5].v, 0.0]
    ensures Flatten2(ps) == [ps[0].u, ps[0].v, ps[1].u, ps[1].v, ps[2].u, ps[2].v,
                             ps[3].u, ps[3].v, ps[4].u, ps[4].v, ps[5].u, ps[5].v]
  {
    assert ps[1..][1..][1..][1..][1..][1..] == [];
  }

  /** A rectangle of non-negative size contains every vertex it emits. */
  lemma CornersContained(r: Rect)
    requires r.w >= 0.0 && r.h >= 0.0
    ensures forall k :: 0 <= k < 6 ==> r.Contains(r.Corners()[k].u, r.Corners()[k].v)
  {
  }

  /** The corners are exactly the rectangle's four corners. */
  lemma CornersAreTheFourCorners(r: Rect)
    ensures (set p | p in r.Corners()) ==
      {Vec2(r.x, r.y), Vec2(r.x + r.w, r.y), Vec2(r.x, r.y + r.h), Vec2(r.x + r.w, r.y + r.h)}
  {
  }

  /** `vertices` and `vertices_2d` emit the same points, one with a zero z added. */
  lemma {:induction false} VerticesAgree(ps: seq<Vec2>)
    ensures forall k :: 0 <= k < |ps| ==>
      Flatten3(ps)[3 * k] == Flatten2(ps)[2 * k] && Flatten3(ps)[3 * k + 1] == Flatten2(ps)[2 * k + 1]
      && Flatten3(ps)[3 * k + 2] == 0.0
  {
  }
}
