/** The glyph factory: builds the frame of each vowel letter on a common baseline and draws its
    outline. */
module Factory {
  import opened Geometry
  import opened Glyphs

  /** The three corners handed to the glyph constructor, in the constructor's order. */
  datatype Triangle = Triangle(origin: Point, apex: Point, base: Point) {
    function Orientation(): Orientation {
      OrientationOf(origin, apex, base)
    }

    function Frame(): Glyphs.Frame {
      var o := Orientation();
      Glyphs.Frame(o, UnitOf(o, origin, base), origin, apex, base)
    }
  }

  /** Layout of each vowel for a positive unit: which way its apex points. */
  function UprightOrientation(letter: string): Orientation
    requires letter in VOWELS
  {
    if letter == VowelI || letter == VowelU then HorizontalUp
    else if letter == VowelA then HorizontalDown
    else if letter == VowelE || letter == VowelOpenE then VerticalLeft
    else VerticalRight
  }

  /** The corners of a vowel placed at `left` on the line whose baseline is `baseline`. The letters
      i, u and a stand on a horizontal base (a upside down, its base corner passed first), the
      others on a vertical one (e and ɛ with the apex on the left, o and ɔ on the right). For a
      positive unit the triangle starts at `left` and rests on the baseline. */
  function VowelTriangle(letter: string, left: real, baseline: real, unit: real): (t: Triangle)
    requires letter in VOWELS
    ensures IsVerticalVowel(letter) ==> t.base.x == t.origin.x
    ensures !IsVerticalVowel(letter) ==> t.base.y == t.origin.y
    ensures unit >= 0.0 ==> left <= t.origin.x && left <= t.apex.x && left <= t.base.x
    ensures left == t.origin.x || left == t.apex.x || left == t.base.x
    ensures unit >= 0.0 ==> t.origin.y <= baseline && t.apex.y <= baseline && t.base.y <= baseline
    ensures t.origin.y == baseline || t.apex.y == baseline || t.base.y == baseline
  {
    if letter == VowelI || letter == VowelU then
      var o := Point(left, baseline);
      Triangle(o, Point(o.x + (BASE / 2.0) * unit, o.y - HEIGHT * unit), Point(o.x + BASE * unit, o.y))
    else if letter == VowelA then
      var o := Point(left, baseline - HEIGHT * unit);
      var a := Point(o.x + (BASE / 2.0) * unit, baseline);
      var b := Point(o.x + BASE * unit, o.y);
      Triangle(b, a, o)
    else if letter == VowelE || letter == VowelOpenE then
      var o := Point(left + HEIGHT * unit, baseline);
      Triangle(o, Point(left, o.y - (BASE / 2.0) * unit), Point(o.x, o.y - BASE * unit))
    else
      var o := Point(left, baseline - BASE * unit);
      Triangle(o, Point(o.x + HEIGHT * unit, o.y + (BASE / 2.0) * unit), Point(o.x, o.y + BASE * unit))
  }

  /** The vowel frames: i, a and u are horizontal and e, o, ɔ and ɛ vertical (a zero unit
      collapses every frame onto a vertical line); every frame has the factory's unit in size and
      its apex pointing as the table says. */
  lemma {:induction false} VowelLayout(letter: string, left: real, baseline: real, unit: real)
    requires letter in VOWELS
    ensures var t := VowelTriangle(letter, left, baseline, unit);
      t.Orientation().IsVertical() <==> IsVerticalVowel(letter) || unit == 0.0
    ensures UnitOf(VowelTriangle(letter, left, baseline, unit).Orientation(),
                   VowelTriangle(letter, left, baseline, unit).origin,
                   VowelTriangle(letter, left, baseline, unit).base) == Abs(unit)
    ensures unit > 0.0 ==> VowelTriangle(letter, left, baseline, unit).Orientation() == UprightOrientation(letter)
  {
    var t := VowelTriangle(letter, left, baseline, unit);
    var u := UnitOf(t.Orientation(), t.origin, t.base);
    assert u * BASE == Abs(unit) * BASE;
  }

  /** Every vowel's apex stands HEIGHT units squarely off the middle of its base, measured in the
      letter's own axes. */
  lemma {:induction false} VowelApex(letter: string, left: real, baseline: real, unit: real)
    requires letter in VOWELS
    ensures var f := VowelTriangle(letter, left, baseline, unit).Frame();
      f.Vector(f.apex, f.MidBase())
        == Point(0.0, if IsVerticalVowel(letter) then HEIGHT * Abs(unit) else -HEIGHT * Abs(unit))
  {
    VowelLayout(letter, left, baseline, unit);
  }

  class GlyphFactory {
    const unit: real
    /** Baseline and left edge of the last vowel built; unset until then. */
    var baseline: real
    var left: real

    constructor (unit: real)
      ensures this.unit == unit
    {
      this.unit := unit;
    }

    /** Builds the glyph of the vowel `letter` whose line box starts at `origin`: the baseline sits
        TONE + HEIGHT + 2 units below it, and the glyph carries the full outline of i, a, ɔ and ɛ
        or the open outline of u, e and o. */
    method NewVowel(letter: string, origin: Point) returns (g: Glyph)
      requires letter in VOWELS
      modifies this`baseline, this`left
      ensures baseline == origin.y + (TONE + HEIGHT + 2.0) * unit && left == origin.x
      ensures fresh(g)
      ensures var t := VowelTriangle(letter, left, baseline, unit);
        g.origin == t.origin && g.apex == t.apex && g.base == t.base
      ensures g.Valid() && g.vowel == letter && g.consonants == [] && g.left == 0.0
      ensures g.outline == (if IsSolidVowel(letter) then SolidOutline else OpenOutline)
      ensures |g.data| == (if IsSolidVowel(letter) then 3 else 2)
      ensures g.orientation.IsVertical() <==> IsVerticalVowel(letter) || unit == 0.0
      ensures g.unit == Abs(unit)
      ensures g.Kerning() == BASE * Abs(unit)
    {
      baseline := origin.y + (TONE + HEIGHT + 2.0) * unit;
      left := origin.x;
      var t := VowelTriangle(letter, left, baseline, unit);
      VowelLayout(letter, left, baseline, unit);
      g := new Glyph(t.origin, t.apex, t.base);
      if IsSolidVowel(letter) {
        g.SolidVowel();
      } else {
        g.OpenVowel();
      }
      g.vowel := letter;
    }
  }
}
