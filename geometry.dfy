/** Two-dimensional point algebra on which every glyph construction is built.
    Points are values: every operation returns a new point. */
module Geometry {

  datatype Point = Point(x: real, y: real) {

    /** Both coordinates multiplied by `m`. */
    function Scale(m: real): (r: Point)
      ensures m == 1.0 ==> r == this
      ensures m == 0.0 ==> r == Point(0.0, 0.0)
    {
      Point(x * m, y * m)
    }

    /** This point shifted by the offset `p`; `Difference` undoes it. */
    function Translate(p: Point): (r: Point)
      ensures r.Difference(p) == this
    {
      Point(x + p.x, y + p.y)
    }

    /** The offset that carries `p` onto this point. */
    function Difference(p: Point): (r: Point)
      ensures r == Point(0.0, 0.0) <==> this == p
    {
      Point(x - p.x, y - p.y)
    }

    /** The point halfway between this point and `p`. */
    function Mid(p: Point): (r: Point)
      ensures r.Difference(this) == p.Difference(r)
    {
      Point((x + p.x) / 2.0, (y + p.y) / 2.0)
    }
  }

  const Origin := Point(0.0, 0.0)

  /** The point a fraction `t` of the way from `a` towards `b` (t = 0 is `a`, t = 1 is `b`). */
  function Along(a: Point, b: Point, t: real): (r: Point)
    ensures t == 0.0 ==> r == a
    ensures t == 1.0 ==> r == b
  {
    a.Translate(b.Difference(a).Scale(t))
  }

  lemma MidCommutes(a: Point, b: Point)
    ensures a.Mid(b) == b.Mid(a)
  {
  }

  lemma MidIdempotent(a: Point)
    ensures a.Mid(a) == a
  {
  }

  lemma MidIsHalfway(a: Point, b: Point)
    ensures a.Mid(b) == Along(a, b, 0.5)
  {
  }

  /** Shifting both ends of a segment shifts its midpoint by the same offset. */
  lemma MidTranslates(a: Point, b: Point, p: Point)
    ensures a.Translate(p).Mid(b.Translate(p)) == a.Mid(b).Translate(p)
  {
  }

  /** Differences are unaffected by a common shift. */
  lemma DifferenceTranslates(a: Point, b: Point, p: Point)
    ensures a.Translate(p).Difference(b.Translate(p)) == a.Difference(b)
  {
  }
}
