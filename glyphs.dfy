/** Glyph construction: a triangular frame (origin, apex, base), the orientation and local axes it
    implies, and the drawing primitives that the vowel outline and each consonant mark contribute. */
module Glyphs {
  import opened Options
  import opened Geometry

  /** Length of a letter's base, in units. */
  const BASE: real := 16.0
  /** Height of a letter's apex above its base, in units. */
  const HEIGHT: real := 13.8
  const TONE: real := HEIGHT / 3.5

  /** Math.PI, and the cosines and sines the marks use, as the decimal values of the doubles
      that the browser computes. */
  const PI: real := 3.141592653589793
  const COS_PI_3: real := 0.5000000000000001
  const COS_PI_9: real := 0.9396926207859084
  const SIN_PI_9: real := 0.3420201433256687
  const COS_PI_4: real := 0.7071067811865476
  const SIN_PI_4: real := 0.7071067811865475

  function Abs(r: real): real {
    if r < 0.0 then -r else r
  }

  // ---------------------------------------------------------------------------------------------
  // Letter tables

  const VowelI := "i"
  const VowelA := "a"
  const VowelU := "u"
  const VowelE := "e"
  const VowelO := "o"
  const VowelOpenO := "\U{254}"
  const VowelOpenE := "\U{25B}"

  /** The seven vowel letters, in the source's order. */
  const VOWELS: seq<string> := [VowelI, VowelA, VowelU, VowelE, VowelO, VowelOpenO, VowelOpenE]

  /** Vowels whose frame stands on a vertical base. */
  predicate IsVerticalVowel(letter: string) {
    letter in [VowelE, VowelO, VowelOpenO, VowelOpenE]
  }

  /** Vowels drawn as a closed triangle (three edges) rather than an open one (two edges). */
  predicate IsSolidVowel(letter: string) {
    letter in [VowelI, VowelA, VowelOpenO, VowelOpenE]
  }

  /** The consonant marks, one constructor per code in the CONSONANTS table. */
  datatype Mark =
    | T | PAspirated | TDental | C | K | Phi | F | S | Esh | SRetroflex | X | H | LBelt
    | W | J | L | R | RFlap | DentalClick | AlveolarClick | LateralClick
    | NDental | N | NSyllabic | EngSyllabic
  {
    /** The letter code of this mark, as the host passes it in. */
    function Code(): string {
      match this
      case T => "t"
      case PAspirated => "p\U{2B0}"
      case TDental => "t\U{32A}"
      case C => "c"
      case K => "k"
      case Phi => "\U{278}"
      case F => "f"
      case S => "s"
      case Esh => "\U{283}"
      case SRetroflex => "\U{23F}"
      case X => "x"
      case H => "h"
      case LBelt => "\U{26C}"
      case W => "w"
      case J => "j"
      case L => "l"
      case R => "r"
      case RFlap => "\U{27D}"
      case DentalClick => "|"
      case AlveolarClick => "!"
      case LateralClick => "||"
      case NDental => "n\U{32A}"
      case N => "n"
      case NSyllabic => "n\U{329}"
      case EngSyllabic => "\U{14B}\U{329}"
    }

    /** The nasal marks, which draw a circle beyond the apex and enlarge the top margin. */
    predicate IsNasal() {
      NDental? || N? || NSyllabic? || EngSyllabic?
    }

    /** Marks that normalise the glyph's margin before drawing themselves. */
    predicate SetsMarginFirst() {
      F? || J? || IsNasal()
    }

    /** The kinds of primitive the mark appends, in order. */
    function Shapes(): seq<Shape> {
      match this
      case T => [LineShape]
      case PAspirated => [LineShape]
      case TDental => [LineShape, LineShape]
      case C => [LineShape, LineShape]
      case K => [LineShape, LineShape]
      case Phi => [ArcShape]
      case F => [ArcShape]
      case S => [ArcShape]
      case Esh => [CircleShape, LineShape, LineShape]
      case SRetroflex => [CircleShape, LineShape, LineShape]
      case X => [ArcShape]
      case H => [CircleShape]
      case LBelt => [ArcShape]
      case W => [LineShape, LineShape]
      case J => [LineShape, LineShape]
      case L => [LineShape]
      case R => [LineShape, LineShape]
      case RFlap => [LineShape, LineShape]
      case DentalClick => [LineShape, LineShape, LineShape, LineShape]
      case AlveolarClick => [LineShape, LineShape, LineShape]
      case LateralClick => [LineShape, LineShape]
      case NDental => [CircleShape, LineShape, LineShape]
      case N => [CircleShape, LineShape]
      case NSyllabic => [CircleShape, LineShape, LineShape]
      case EngSyllabic => [CircleShape, LineShape, LineShape]
    }
  }

  /** The consonant codes, in the source's order. */
  const CONSONANTS: seq<string> := [
    T.Code(), PAspirated.Code(), TDental.Code(), C.Code(), K.Code(), Phi.Code(), F.Code(),
    S.Code(), Esh.Code(), SRetroflex.Code(), X.Code(), H.Code(), LBelt.Code(), W.Code(),
    J.Code(), L.Code(), R.Code(), RFlap.Code(), DentalClick.Code(), AlveolarClick.Code(),
    LateralClick.Code(), NDental.Code(), N.Code(), NSyllabic.Code(), EngSyllabic.Code()]

  /** The mark whose code is the single character `ch`, if any. */
  function MarkOfChar(ch: char): (m: Option<Mark>)
    ensures m.Some? ==> m.value.Code() == [ch]
  {
    match ch
    case 't' => Some(T)
    case 'c' => Some(C)
    case 'k' => Some(K)
    case '\U{278}' => Some(Phi)
    case 'f' => Some(F)
    case 's' => Some(S)
    case '\U{283}' => Some(Esh)
    case '\U{23F}' => Some(SRetroflex)
    case 'x' => Some(X)
    case 'h' => Some(H)
    case '\U{26C}' => Some(LBelt)
    case 'w' => Some(W)
    case 'j' => Some(J)
    case 'l' => Some(L)
    case 'r' => Some(R)
    case '\U{27D}' => Some(RFlap)
    case '|' => Some(DentalClick)
    case '!' => Some(AlveolarClick)
    case 'n' => Some(N)
    case _ => None
  }

  /** The mark whose code is the letter `a` followed by the modifier `b`, if any. */
  function MarkOfPair(a: char, b: char): (m: Option<Mark>)
    ensures m.Some? ==> m.value.Code() == [a, b]
  {
    match (a, b)
    case ('p', '\U{2B0}') => Some(PAspirated)
    case ('t', '\U{32A}') => Some(TDental)
    case ('|', '|') => Some(LateralClick)
    case ('n', '\U{32A}') => Some(NDental)
    case ('n', '\U{329}') => Some(NSyllabic)
    case ('\U{14B}', '\U{329}') => Some(EngSyllabic)
    case _ => None
  }

  /** The mark a code stands for; codes outside CONSONANTS stand for none. */
  function MarkOf(code: string): (m: Option<Mark>)
    ensures m.Some? ==> m.value.Code() == code
  {
    if |code| == 1 then
      assert code == [code[0]];
      MarkOfChar(code[0])
    else if |code| == 2 then
      assert code == [code[0], code[1]];
      MarkOfPair(code[0], code[1])
    else None
  }

  /** Every mark is found again from its own code: no two marks share a code. */
  lemma MarkOfCode(m: Mark)
    ensures MarkOf(m.Code()) == Some(m)
  {
  }

  /** Every mark's code is listed in CONSONANTS. */
  lemma MarkListed(m: Mark)
    ensures m.Code() in CONSONANTS
  {
    match m
    case T => case PAspirated => case TDental => case C => case K => case Phi => case F =>
    case S => case Esh => case SRetroflex => case X => case H => case LBelt => case W =>
    case J => case L => case R => case RFlap => case DentalClick => case AlveolarClick =>
    case LateralClick => case NDental => case N => case NSyllabic => case EngSyllabic =>
  }

  /** A code stands for a mark exactly when it is listed in CONSONANTS. */
  lemma MarkOfListed(code: string)
    ensures MarkOf(code).Some? <==> code in CONSONANTS
  {
    if MarkOf(code).Some? {
      MarkListed(MarkOf(code).value);
    } else if code in CONSONANTS {
      forall m: Mark
        ensures MarkOf(m.Code()) == Some(m)
      {
        MarkOfCode(m);
      }
      assert false;
    }
  }

  /** The vowel and consonant tables do not overlap. */
  lemma VowelsAreNotConsonants(letter: string)
    requires letter in VOWELS
    ensures letter !in CONSONANTS
  {
    assert |letter| == 1 && MarkOfChar(letter[0]).None?;
    MarkOfListed(letter);
  }

  // ---------------------------------------------------------------------------------------------
  // Frames

  /** The four layouts a frame can have. A vertical frame has its base on a vertical line and its
      apex to the right or to the left; a horizontal frame has its apex above or below the base. */
  datatype Orientation = VerticalRight | VerticalLeft | HorizontalUp | HorizontalDown {

    predicate IsVertical() {
      VerticalRight? || VerticalLeft?
    }

    /** Reference angle from which the arcs of the marks are measured: a turn's fraction that points
        along the base, 0 or PI for vertical frames and PI/2 or 3 PI/2 for horizontal ones. */
    function Zero(): (r: real)
      ensures 0.0 <= r < 2.0 * PI
      ensures IsVertical() <==> (r == 0.0 || r == PI)
    {
      match this
      case VerticalRight => 0.0 * PI
      case VerticalLeft => 1.0 * PI
      case HorizontalUp => 1.5 * PI
      case HorizontalDown => 0.5 * PI
    }

    /** Maps an offset given in the letter's own axes onto screen axes. */
    function Offset(b: Point): Point {
      match this
      case VerticalRight => Point(b.y, b.x)
      case VerticalLeft => Point(-b.y, -b.x)
      case HorizontalUp => Point(b.x, b.y)
      case HorizontalDown => Point(b.x, -b.y)
    }
  }

  /** Orientation of the frame (origin, apex, base), decided once when a glyph is built. */
  function OrientationOf(origin: Point, apex: Point, base: Point): (o: Orientation)
    ensures o.IsVertical() <==> base.x == origin.x
    ensures o.IsVertical() ==> (o == VerticalRight <==> apex.x > origin.x)
    ensures !o.IsVertical() ==> (o == HorizontalUp <==> apex.y < origin.y)
  {
    if base.x == origin.x then
      if apex.x > origin.x then VerticalRight else VerticalLeft
    else
      if apex.y < origin.y then HorizontalUp else HorizontalDown
  }

  /** Size of one unit of the letter: the base extent divided by BASE, never negative. */
  function UnitOf(o: Orientation, origin: Point, base: Point): (u: real)
    ensures u >= 0.0
    ensures u * BASE == Abs(if o.IsVertical() then base.y - origin.y else base.x - origin.x)
  {
    if o.IsVertical() then Abs((base.y - origin.y) / BASE) else Abs((base.x - origin.x) / BASE)
  }

  /** Applying the offset map twice gives back the offset: every layout is a reflection. */
  lemma OffsetInvolution(o: Orientation, b: Point)
    ensures o.Offset(o.Offset(b)) == b
  {
  }

  /** A vertical layout swaps the two axes, a horizontal one keeps them; either may reverse their
      directions, but no offset changes length along an axis. */
  lemma OffsetAxes(o: Orientation, b: Point)
    ensures o.IsVertical() ==> Abs(o.Offset(b).x) == Abs(b.y) && Abs(o.Offset(b).y) == Abs(b.x)
    ensures !o.IsVertical() ==> o.Offset(b).x == b.x && Abs(o.Offset(b).y) == Abs(b.y)
  {
  }

  /** A frame: the three points of the triangle with the layout and unit fixed at construction. */
  datatype Frame = Frame(orientation: Orientation, unit: real, origin: Point, apex: Point, base: Point) {

    /** The point `a` moved by the letter-relative offset `b`. */
    function Move(a: Point, b: Point): Point {
      a.Translate(orientation.Offset(b))
    }

    /** The offset from `b` to `a`, expressed in the letter's own axes. */
    function Vector(a: Point, b: Point): Point {
      Move(Origin, a.Difference(b))
    }

    /** The letter-relative offset of `dx` units along the base and `dy` units towards the apex. */
    function InUnits(dx: real, dy: real): Point {
      Point(dx * unit, dy * unit)
    }

    /** The middle of the base edge: as far from the origin as from the base corner. */
    function MidBase(): (r: Point)
      ensures r.Difference(origin) == base.Difference(r)
    {
      origin.Mid(base)
    }

    function Zero(): real {
      orientation.Zero()
    }

    function Translated(p: Point): Frame {
      Frame(orientation, unit, origin.Translate(p), apex.Translate(p), base.Translate(p))
    }
  }

  /** A letter-relative move shifts a point by the offset mapped onto screen axes, and the vector
      from `b` to `a` is the offset that moves `b` onto `a`. */
  lemma MoveVector(f: Frame, a: Point, b: Point)
    ensures f.Move(a, b).Difference(a) == f.orientation.Offset(b)
    ensures f.Move(b, f.Vector(a, b)) == a
  {
    OffsetInvolution(f.orientation, a.Difference(b));
  }

  /** A letter-relative move commutes with a shift of the frame. */
  lemma MoveTranslates(f: Frame, a: Point, b: Point, p: Point)
    ensures f.Translated(p).Move(a.Translate(p), b) == f.Move(a, b).Translate(p)
  {
  }

  /** Letter-relative vectors do not change when the frame and both ends are shifted. */
  lemma VectorTranslates(f: Frame, a: Point, b: Point, p: Point)
    ensures f.Translated(p).Vector(a.Translate(p), b.Translate(p)) == f.Vector(a, b)
  {
    DifferenceTranslates(a, b, p);
  }

  /** Moving from `a` by the letter-relative vector towards `b`, scaled by `t`, lands the fraction
      `t` of the way from `a` to `b`, whatever the layout. */
  lemma MoveAlong(f: Frame, a: Point, b: Point, t: real)
    ensures f.Move(a, f.Vector(b, a).Scale(t)) == Along(a, b, t)
  {
    match f.orientation
    case VerticalRight =>
    case VerticalLeft =>
    case HorizontalUp =>
    case HorizontalDown =>
  }

  // ---------------------------------------------------------------------------------------------
  // Primitives

  datatype Shape = LineShape | ArcShape | CircleShape

  /** A stored drawing instruction: a line between two points, or an arc (a circle is an arc from 0
      to 2 PI, which is how the source stores it). */
  datatype Primitive = Line(a: Point, b: Point) | Arc(centre: Point, radius: real, start: real, end: real) {

    function Translated(p: Point): Primitive {
      match this
      case Line(a, b) => Line(a.Translate(p), b.Translate(p))
      case Arc(c, r, s, e) => Arc(c.Translate(p), r, s, e)
    }

    function Shape(): Shape {
      if Line? then LineShape
      else if start == 0.0 && end == PI * 2.0 then CircleShape
      else ArcShape
    }
  }

  function FullCircle(centre: Point, radius: real): Primitive {
    Arc(centre, radius, 0.0, PI * 2.0)
  }

  /** Every primitive shifted by `p`: same number, same order, same kinds, radii and angles. */
  function TranslateAll(prims: seq<Primitive>, p: Point): (r: seq<Primitive>)
    ensures |r| == |prims|
    ensures forall i :: 0 <= i < |prims| ==> r[i] == prims[i].Translated(p)
  {
    if prims == [] then [] else TranslateAll(prims[..|prims| - 1], p) + [prims[|prims| - 1].Translated(p)]
  }

  function Shapes(prims: seq<Primitive>): (r: seq<Shape>)
    ensures |r| == |prims|
    ensures forall i :: 0 <= i < |prims| ==> r[i] == prims[i].Shape()
  {
    if prims == [] then [] else Shapes(prims[..|prims| - 1]) + [prims[|prims| - 1].Shape()]
  }

  lemma TranslateAllAppend(a: seq<Primitive>, b: seq<Primitive>, p: Point)
    ensures TranslateAll(a + b, p) == TranslateAll(a, p) + TranslateAll(b, p)
  {
  }

  lemma ShapesAppend(a: seq<Primitive>, b: seq<Primitive>)
    ensures Shapes(a + b) == Shapes(a) + Shapes(b)
  {
  }

  /** A shift by the zero offset changes nothing. */
  lemma TranslateAllZero(prims: seq<Primitive>)
    ensures TranslateAll(prims, Origin) == prims
  {
  }

  /** Shifting by `p` and then by the opposite offset gives the primitives back. */
  lemma TranslateAllInverse(prims: seq<Primitive>, p: Point)
    ensures TranslateAll(TranslateAll(prims, p), Origin.Difference(p)) == prims
  {
  }

  /** Translation keeps the kind of every primitive. */
  lemma {:induction false} ShapesTranslate(prims: seq<Primitive>, p: Point)
    ensures Shapes(TranslateAll(prims, p)) == Shapes(prims)
  {
    var moved := TranslateAll(prims, p);
    var a, b := Shapes(moved), Shapes(prims);
    assert |a| == |b|;
    forall i | 0 <= i < |b|
      ensures a[i] == b[i]
    {
      assert moved[i] == prims[i].Translated(p);
    }
  }

  // ---------------------------------------------------------------------------------------------
  // Outlines and marks

  /** The vowel outline a glyph has been given: none yet, the two upper edges, or all three. */
  datatype Outline = Blank | OpenOutline | SolidOutline

  /** The edges of a vowel outline. */
  function OutlinePrimitives(f: Frame, outline: Outline): seq<Primitive> {
    match outline
    case Blank => []
    case OpenOutline => [Line(f.origin, f.apex), Line(f.apex, f.base)]
    case SolidOutline => [Line(f.origin, f.apex), Line(f.apex, f.base), Line(f.origin, f.base)]
  }

  /** The open outline draws origin to apex and apex to base, the solid one adds the base edge;
      every edge is a line from one corner of the frame to another. */
  lemma OutlineEdges(f: Frame, outline: Outline)
    ensures var r := OutlinePrimitives(f, outline);
      && (outline == Blank <==> r == [])
      && (outline == SolidOutline <==> |r| == 3)
      && (forall i :: 0 <= i < |r| ==> r[i].Line? && r[i].a in {f.origin, f.apex} && r[i].b in {f.apex, f.base})
      && (outline != Blank ==> |r| >= 2 && r[..2] == [Line(f.origin, f.apex), Line(f.apex, f.base)])
  {
  }

  /** Scale factor used by the postalveolar marks: 1 / (radius - (1 + 1 / unit)). A zero unit
      makes the browser's factor 1 / -Infinity, that is zero; a zero divisor otherwise only arises
      for irrational units and is also taken as zero. */
  function SibilantScale(unit: real): (r: real)
    ensures unit == 0.0 ==> r == 0.0
    ensures unit != 0.0 && (TONE / 2.0) * unit - (1.0 + 1.0 / unit) != 0.0 ==>
      r * ((TONE / 2.0) * unit - (1.0 + 1.0 / unit)) == 1.0
  {
    if unit == 0.0 then 0.0
    else
      var d := (TONE / 2.0) * unit - (1.0 + 1.0 / unit);
      if d == 0.0 then 0.0 else 1.0 / d
  }

  /** A scale factor of a mark's construction: a constant, or the postalveolar factor. */
  datatype Factor = Fixed(k: real) | Sibilant {
    function Value(unit: real): real {
      match this
      case Fixed(k) => k
      case Sibilant => SibilantScale(unit)
    }
  }

  /** A point of a mark's construction, described in terms of the frame it is drawn on. */
  datatype Locus =
    | AtOrigin | AtApex | AtBase
      /** `p.mid(q)` */
    | Midway(p: Locus, q: Locus)
      /** `move(from, vector(head, tail).scale(k))` */
    | Moved(from: Locus, head: Locus, tail: Locus, k: Factor)
      /** `move(from, new Point(dx * unit, dy * unit))`: an offset given in the letter's axes */
    | Beside(from: Locus, dx: real, dy: real)

  /** `move(from, vector(target, from).scale(k))`: the fraction `k` of the way towards `target`. */
  function Toward(from: Locus, target: Locus, k: real): Locus {
    Moved(from, target, from, Fixed(k))
  }

  const AtMidBase: Locus := Midway(AtOrigin, AtBase)

  /** Centre of the circle that the nasal marks draw beyond the apex. */
  const NasalCentre: Locus := Toward(AtMidBase, AtApex, 1.0 + 0.18)
  /** Radius of that circle, in units. */
  const NasalRadius: real := 0.18 * HEIGHT

  /** One drawing call of a mark; radii are in units and angles are relative to the frame's zero. */
  datatype Stroke =
    | LineOf(a: Locus, b: Locus)
    | ArcOf(centre: Locus, radius: real, start: real, end: real)
    | CircleOf(centre: Locus, radius: real)
  {
    function Shape(): Shape {
      match this
      case LineOf(_, _) => LineShape
      case ArcOf(_, _, _, _) => ArcShape
      case CircleOf(_, _) => CircleShape
    }
  }

  /** Every arc of a recipe sweeps from a larger angle to a smaller one. */
  predicate ArcsDescend(strokes: seq<Stroke>) {
    forall i :: 0 <= i < |strokes| && strokes[i].ArcOf? ==> strokes[i].start > strokes[i].end
  }

  /** The construction of each mark, call by call, as the source's addConsonant performs it. */
  function Recipe(m: Mark): seq<Stroke> {
    match m
    case T =>
      [LineOf(Toward(AtOrigin, AtApex, 1.0 / 3.0), Toward(AtBase, AtApex, 1.0 / 3.0))]
    case PAspirated =>
      [LineOf(Beside(AtApex, (-1.0 / 2.0) * BASE, 0.0), Beside(AtApex, (1.0 / 2.0) * BASE, 0.0))]
    case TDental =>
      [LineOf(Toward(AtOrigin, AtApex, 0.9 / 3.0), Toward(AtBase, AtApex, 0.9 / 3.0)),
       LineOf(Toward(AtOrigin, AtApex, 1.2 / 3.0), Toward(AtBase, AtApex, 1.2 / 3.0))]
    case C =>
      [LineOf(Midway(AtOrigin, AtApex), AtBase), LineOf(Midway(AtBase, AtApex), AtOrigin)]
    case K =>
      var apex := Toward(AtMidBase, AtApex, 0.3);
      [LineOf(Toward(AtOrigin, AtBase, 0.35), apex), LineOf(apex, Toward(AtOrigin, AtBase, 0.65))]
    case Phi =>
      [ArcOf(Midway(AtMidBase, AtApex), HEIGHT / 2.0, PI / 4.0, -PI / 4.0)]
    case F =>
      [ArcOf(Toward(AtMidBase, AtApex, 1.5), HEIGHT / 2.0, PI + PI / 4.0, PI - PI / 4.0)]
    case S =>
      [ArcOf(AtApex, BASE / 2.0, PI + PI / 6.0, PI - PI / 6.0)]
    case Esh =>
      var centre := Toward(AtMidBase, AtApex, 0.3);
      var apex := Moved(centre, centre, AtApex, Sibilant);
      [CircleOf(centre, TONE / 2.0), LineOf(AtOrigin, apex), LineOf(apex, AtBase)]
    case SRetroflex =>
      var centre := Toward(AtMidBase, AtApex, 0.25);
      var apex := Moved(centre, AtApex, centre, Sibilant);
      [CircleOf(centre, TONE / 2.0),
       LineOf(Toward(AtOrigin, AtApex, 0.6), apex), LineOf(apex, Toward(AtBase, AtApex, 0.6))]
    case X =>
      [ArcOf(AtMidBase, BASE * 0.27, PI / 2.0, -PI / 2.0)]
    case H =>
      [CircleOf(Toward(AtMidBase, AtApex, 0.25), TONE / 2.2)]
    case LBelt =>
      [ArcOf(Midway(AtBase, AtApex), BASE / 4.0, -PI / 6.0 + PI, -PI / 6.0)]
    case W =>
      var h, s := 0.6, 0.6 * COS_PI_3;
      [LineOf(Toward(AtOrigin, AtApex, h), Toward(AtOrigin, AtBase, s)),
       LineOf(Toward(AtBase, AtApex, h), Toward(AtBase, AtOrigin, s))]
    case J =>
      var apex := Midway(AtOrigin, AtBase);
      var p := Moved(apex, apex, AtApex, Fixed(0.6));
      [LineOf(Midway(p, AtOrigin), apex), LineOf(Midway(p, AtBase), apex)]
    case L =>
      [LineOf(Moved(AtOrigin, AtOrigin, AtBase, Fixed(0.1)), Moved(AtApex, AtOrigin, AtBase, Fixed(0.1)))]
    case R =>
      var apex := Toward(AtMidBase, AtApex, 0.3);
      [LineOf(Toward(AtOrigin, AtApex, 2.0 / 3.0), apex), LineOf(apex, Toward(AtBase, AtApex, 2.0 / 3.0))]
    case RFlap =>
      var start, end := Toward(AtApex, AtOrigin, 0.6), Toward(AtApex, AtBase, 0.6);
      [LineOf(start, end), LineOf(Midway(start, end), AtApex)]
    case DentalClick =>
      var h, s := 0.6, 0.6 * COS_PI_3;
      var oa, ob := Toward(AtOrigin, AtApex, h), Toward(AtOrigin, AtBase, s);
      var ba, bo := Toward(AtBase, AtApex, h), Toward(AtBase, AtOrigin, s);
      [LineOf(oa, ba), LineOf(oa, bo), LineOf(ba, ob), LineOf(Midway(oa, AtOrigin), Midway(ba, AtBase))]
    case AlveolarClick =>
      var h, s := 0.6, 0.6 * COS_PI_3;
      var oa, ob := Toward(AtOrigin, AtApex, h), Toward(AtOrigin, AtBase, s);
      var ba, bo := Toward(AtBase, AtApex, h), Toward(AtBase, AtOrigin, s);
      [LineOf(oa, ba), LineOf(oa, bo), LineOf(ba, ob)]
    case LateralClick =>
      var start := Midway(AtOrigin, AtApex);
      var end := Toward(start, Midway(AtApex, AtBase), 1.5);
      [LineOf(start, end), LineOf(end, Midway(AtMidBase, AtBase))]
    case NDental =>
      var c, dx, dy := NasalCentre, COS_PI_9 * NasalRadius, SIN_PI_9 * NasalRadius;
      [CircleOf(c, NasalRadius),
       LineOf(Beside(c, dx, dy), Beside(c, -dx, dy)), LineOf(Beside(c, dx, -dy), Beside(c, -dx, -dy))]
    case N =>
      var c := NasalCentre;
      [CircleOf(c, NasalRadius), LineOf(Beside(c, NasalRadius, 0.0), Beside(c, -NasalRadius, 0.0))]
    case NSyllabic =>
      var c, dx, dy := NasalCentre, COS_PI_4 * NasalRadius, SIN_PI_4 * NasalRadius;
      [CircleOf(c, NasalRadius), LineOf(Beside(c, -dx, dy), c), LineOf(c, Beside(c, dx, dy))]
    case EngSyllabic =>
      var c, dx, dy := NasalCentre, COS_PI_4 * NasalRadius, SIN_PI_4 * NasalRadius;
      [CircleOf(c, NasalRadius),
       LineOf(Beside(c, dx, dy), Beside(c, -dx, -dy)), LineOf(Beside(c, -dx, dy), Beside(c, dx, -dy))]
  }

  /** Where a locus lies on the frame `f`. */
  function Locate(f: Frame, l: Locus): Point {
    match l
    case AtOrigin => f.origin
    case AtApex => f.apex
    case AtBase => f.base
    case Midway(p, q) => Locate(f, p).Mid(Locate(f, q))
    case Moved(from, head, tail, k) =>
      f.Move(Locate(f, from), f.Vector(Locate(f, head), Locate(f, tail)).Scale(k.Value(f.unit)))
    case Beside(from, dx, dy) => f.Move(Locate(f, from), f.InUnits(dx, dy))
  }

  /** The primitive a stroke stores when drawn on the frame `f`. */
  function Render(f: Frame, s: Stroke): Primitive {
    match s
    case LineOf(a, b) => Line(Locate(f, a), Locate(f, b))
    case ArcOf(c, r, start, end) => Arc(Locate(f, c), r * f.unit, f.Zero() + start, f.Zero() + end)
    case CircleOf(c, r) => FullCircle(Locate(f, c), r * f.unit)
  }

  function RenderAll(f: Frame, strokes: seq<Stroke>): (r: seq<Primitive>)
    ensures |r| == |strokes|
    ensures forall i :: 0 <= i < |strokes| ==> r[i] == Render(f, strokes[i])
  {
    if strokes == [] then [] else RenderAll(f, strokes[..|strokes| - 1]) + [Render(f, strokes[|strokes| - 1])]
  }

  /** The primitives a mark contributes to a glyph whose frame is `f`. */
  function Draw(f: Frame, m: Mark): seq<Primitive> {
    RenderAll(f, Recipe(m))
  }

  /** The primitives that adding the code `code` appends; an unknown code appends none. */
  function MarkPrimitives(f: Frame, code: string): seq<Primitive> {
    match MarkOf(code)
    case None => []
    case Some(m) => Draw(f, m)
  }

  /** The kinds of primitive a code appends; an unknown code appends none. */
  function MarkShapes(code: string): seq<Shape> {
    match MarkOf(code)
    case None => []
    case Some(m) => m.Shapes()
  }

  /** Everything a glyph with frame `f`, outline `outline` and marks `codes` draws: the outline
      first, then each mark in the order it was added. */
  function Drawing(f: Frame, outline: Outline, codes: seq<string>): seq<Primitive> {
    if codes == [] then OutlinePrimitives(f, outline)
    else Drawing(f, outline, codes[..|codes| - 1]) + MarkPrimitives(f, codes[|codes| - 1])
  }

  /** Adding a mark appends exactly its primitives to the drawing. */
  lemma DrawingSnoc(f: Frame, outline: Outline, codes: seq<string>, c: string)
    ensures Drawing(f, outline, codes + [c]) == Drawing(f, outline, codes) + MarkPrimitives(f, c)
  {
    assert (codes + [c])[..|codes|] == codes;
  }

  /** Whatever marks follow, a drawing starts with the vowel outline. */
  lemma {:induction false} DrawingStartsWithOutline(f: Frame, outline: Outline, codes: seq<string>)
    ensures |OutlinePrimitives(f, outline)| <= |Drawing(f, outline, codes)|
    ensures Drawing(f, outline, codes)[..|OutlinePrimitives(f, outline)|] == OutlinePrimitives(f, outline)
  {
    if codes != [] {
      var init := codes[..|codes| - 1];
      var d, o := Drawing(f, outline, init), OutlinePrimitives(f, outline);
      DrawingStartsWithOutline(f, outline, init);
      assert Drawing(f, outline, codes) == d + MarkPrimitives(f, codes[|codes| - 1]);
      TakeConcat(d, MarkPrimitives(f, codes[|codes| - 1]), |o|);
    }
  }

  lemma TakeConcat<T>(a: seq<T>, b: seq<T>, k: nat)
    requires k <= |a|
    ensures (a + b)[..k] == a[..k]
  {
  }

  // ---------------------------------------------------------------------------------------------
  // Margins and advance

  /** Extra room a glyph needs on the apex side: a labiodental arc, else a nasal circle; never more
      than the nasal margin. */
  function TopOf(unit: real, codes: seq<string>): (r: real)
    ensures unit >= 0.0 ==> 0.0 <= r <= 2.0 * TONE * unit
  {
    if F.Code() in codes then 5.0 * unit
    else if NDental.Code() in codes || N.Code() in codes || NSyllabic.Code() in codes || EngSyllabic.Code() in codes
    then 2.0 * TONE * unit
    else 0.0
  }

  /** Extra room a glyph needs below its base: the palatal mark. */
  function BottomOf(unit: real, codes: seq<string>): (r: real)
    ensures unit >= 0.0 ==> 0.0 <= r <= 6.0 * unit
  {
    if J.Code() in codes then 6.0 * unit else 0.0
  }

  /** Horizontal advance consumed by a glyph: the base alone for a horizontal glyph, the base
      widened by both margins, at most, for a vertical one. */
  function KerningOf(o: Orientation, unit: real, codes: seq<string>): (r: real)
    ensures !o.IsVertical() ==> r == BASE * unit
    ensures unit >= 0.0 ==> BASE * unit <= r <= (BASE + 2.0 * TONE + 6.0) * unit
  {
    if o.IsVertical() then TopOf(unit, codes) + BASE * unit + BottomOf(unit, codes)
    else BASE * unit
  }

  /** The shift a glyph applies to its left edge so that its marks have room: none for a
      horizontal glyph, and for a vertical one the margin on the side that faces left. */
  function PaddingOf(o: Orientation, unit: real, codes: seq<string>): (r: real)
    ensures !o.IsVertical() ==> r == 0.0
    ensures o.IsVertical() ==> r == TopOf(unit, codes) || r == BottomOf(unit, codes)
  {
    match o
    case VerticalRight => BottomOf(unit, codes)
    case VerticalLeft => TopOf(unit, codes)
    case HorizontalUp => 0.0
    case HorizontalDown => 0.0
  }

  /** Margins and advance depend only on which codes are present, not on their order or repeats. */
  lemma MarginsIgnoreOrder(o: Orientation, unit: real, cs: seq<string>, ds: seq<string>)
    requires forall c :: c in cs <==> c in ds
    ensures TopOf(unit, cs) == TopOf(unit, ds) && BottomOf(unit, cs) == BottomOf(unit, ds)
    ensures KerningOf(o, unit, cs) == KerningOf(o, unit, ds) && PaddingOf(o, unit, cs) == PaddingOf(o, unit, ds)
  {
  }

  /** Marks never widen a horizontal glyph. */
  lemma HorizontalKerning(o: Orientation, unit: real, cs: seq<string>)
    requires !o.IsVertical()
    ensures KerningOf(o, unit, cs) == KerningOf(o, unit, [])
  {
  }

  /** The margin correction fits inside the advance: it is never negative and, together with the
      base, never exceeds the kerning. */
  lemma PaddingWithinKerning(o: Orientation, unit: real, cs: seq<string>)
    requires unit >= 0.0
    ensures 0.0 <= PaddingOf(o, unit, cs)
    ensures PaddingOf(o, unit, cs) + BASE * unit <= KerningOf(o, unit, cs)
  {
  }

  /** Adding a mark never shrinks the bottom margin. */
  lemma BottomGrows(unit: real, cs: seq<string>, c: string)
    requires unit >= 0.0
    ensures BottomOf(unit, cs) <= BottomOf(unit, cs + [c])
  {
    if J.Code() in cs {
      assert J.Code() in cs + [c];
    }
  }

  /** The advance of a glyph grows with a mark that does not shrink its top margin. */
  lemma KerningGrowsWithTop(o: Orientation, u: real, cs: seq<string>, c: string)
    requires u >= 0.0 && TopOf(u, cs + [c]) >= TopOf(u, cs)
    ensures KerningOf(o, u, cs + [c]) >= KerningOf(o, u, cs)
  {
    BottomGrows(u, cs, c);
  }

  /** Only the marks that normalise the margin before drawing give a glyph a margin at all. */
  lemma MarginsFromMarginMarks(unit: real, codes: seq<string>)
    requires TopOf(unit, codes) != 0.0 || BottomOf(unit, codes) != 0.0
    ensures exists c :: c in codes && MarkOf(c).Some? && MarkOf(c).value.SetsMarginFirst()
  {
    var m :| m in [F, J, NDental, N, NSyllabic, EngSyllabic] && m.Code() in codes;
    MarkOfCode(m);
  }

  /** The top margin, however, is not monotone: the labiodental margin (5 units) replaces the
      larger nasal margin (2 TONE, about 7.9 units), so a vertical glyph narrows when "f" follows
      "n". */
  lemma TopShrinks()
    ensures TopOf(1.0, [N.Code()]) > TopOf(1.0, [N.Code(), F.Code()])
    ensures KerningOf(VerticalRight, 1.0, [N.Code()]) > KerningOf(VerticalRight, 1.0, [N.Code(), F.Code()])
  {
    assert F.Code() !in [N.Code()];
    assert F.Code() in [N.Code(), F.Code()];
  }

  /** No two layouts share a reference angle. */
  lemma ZeroAngles(o: Orientation, o': Orientation)
    ensures o.Zero() == o'.Zero() ==> o == o'
  {
  }

  // ---------------------------------------------------------------------------------------------
  // The glyph object

  class Glyph {
    const orientation: Orientation
    const unit: real
    var origin: Point
    var apex: Point
    var base: Point
    /** Horizontal margin already applied to the frame. */
    var left: real
    /** Stored primitives: the outline, then the marks' contributions. */
    var data: seq<Primitive>
    var vowel: string
    var consonants: seq<string>
    /** Which outline has been drawn. */
    ghost var outline: Outline

    function CurrentFrame(): Frame
      reads this`origin, this`apex, this`base
    {
      Frame(orientation, unit, origin, apex, base)
    }

    /** The stored primitives are exactly those that the current frame, outline and marks explain. */
    ghost predicate Valid()
      reads this`origin, this`apex, this`base, this`data, this`outline, this`consonants
    {
      data == Drawing(CurrentFrame(), outline, consonants)
    }

    /** The room the glyph's marks need on the apex side. */
    function Top(): (r: real)
      reads this`consonants
      ensures unit >= 0.0 ==> 0.0 <= r <= 2.0 * TONE * unit
    {
      TopOf(unit, consonants)
    }

    /** The room the glyph's marks need below the base. */
    function Bottom(): (r: real)
      reads this`consonants
      ensures unit >= 0.0 ==> 0.0 <= r <= 6.0 * unit
    {
      BottomOf(unit, consonants)
    }

    /** The horizontal advance of the glyph: its base, plus both margins when it stands upright. */
    function Kerning(): (r: real)
      reads this`consonants
      ensures unit >= 0.0 ==> BASE * unit <= r
    {
      KerningOf(orientation, unit, consonants)
    }

    /** The shift of the glyph's left edge, never negative. */
    function Padding(): (r: real)
      reads this`consonants
      ensures unit >= 0.0 ==> 0.0 <= r
    {
      PaddingOf(orientation, unit, consonants)
    }

    constructor (origin: Point, apex: Point, base: Point)
      ensures orientation == OrientationOf(origin, apex, base)
      ensures unit == UnitOf(orientation, origin, base)
      ensures this.origin == origin && this.apex == apex && this.base == base
      ensures left == 0.0 && data == [] && vowel == "" && consonants == [] && outline == Blank
      ensures Valid()
    {
      orientation := OrientationOf(origin, apex, base);
      unit := UnitOf(OrientationOf(origin, apex, base), origin, base);
      this.origin, this.apex, this.base := origin, apex, base;
      left := 0.0;
      data := [];
      vowel := "";
      consonants := [];
      outline := Blank;
    }

    method AddLine(a: Point, b: Point)
      modifies this`data
      ensures data == old(data) + [Line(a, b)]
    {
      data := data + [Line(a, b)];
    }

    method AddArc(centre: Point, radius: real, start: real, end: real)
      modifies this`data
      ensures data == old(data) + [Arc(centre, radius, start, end)]
    {
      data := data + [Arc(centre, radius, start, end)];
    }

    method AddCircle(centre: Point, radius: real)
      modifies this`data
      ensures data == old(data) + [FullCircle(centre, radius)]
    {
      data := data + [Arc(centre, radius, 0.0, PI * 2.0)];
    }

    /** Draws the closed triangle. On a glyph with nothing drawn yet, the glyph becomes valid. */
    method SolidVowel()
      modifies this`data, this`outline
      ensures data == old(data) + OutlinePrimitives(CurrentFrame(), SolidOutline)
      ensures outline == SolidOutline
      ensures old(data) == [] && consonants == [] ==> Valid()
    {
      AddLine(origin, apex);
      AddLine(apex, base);
      AddLine(origin, base);
      outline := SolidOutline;
    }

    /** Draws the two upper edges only. On a glyph with nothing drawn yet, the glyph becomes valid. */
    method OpenVowel()
      modifies this`data, this`outline
      ensures data == old(data) + OutlinePrimitives(CurrentFrame(), OpenOutline)
      ensures outline == OpenOutline
      ensures old(data) == [] && consonants == [] ==> Valid()
    {
      AddLine(origin, apex);
      AddLine(apex, base);
      outline := OpenOutline;
    }

    /** Shifts the frame and every stored primitive by `p`, rewriting the primitives in place. */
    method Translate(p: Point)
      modifies this`origin, this`apex, this`base, this`data
      ensures CurrentFrame() == old(CurrentFrame()).Translated(p)
      ensures data == TranslateAll(old(data), p)
      ensures old(Valid()) ==> Valid()
    {
      origin := origin.Translate(p);
      apex := apex.Translate(p);
      base := base.Translate(p);
      var i := 0;
      while i < |data|
        invariant 0 <= i <= |data| == |old(data)|
        invariant CurrentFrame() == old(CurrentFrame()).Translated(p)
        invariant forall k :: 0 <= k < i ==> data[k] == old(data)[k].Translated(p)
        invariant forall k :: i <= k < |data| ==> data[k] == old(data)[k]
      {
        data := data[i := data[i].Translated(p)];
        i := i + 1;
      }
      DrawingTranslates(old(CurrentFrame()), outline, consonants, p);
    }

    /** Brings the applied margin to the padding the current marks need, moving the glyph
        sideways by the difference; when the margin is already right nothing moves. */
    method SetLeft()
      modifies this`origin, this`apex, this`base, this`data, this`left
      ensures left == Padding()
      ensures CurrentFrame() == old(CurrentFrame()).Translated(Point(left - old(left), 0.0))
      ensures data == TranslateAll(old(data), Point(left - old(left), 0.0))
      ensures old(left) == Padding() ==> unchanged(this)
    {
      var padding := Padding();
      if left != padding {
        Translate(Point(padding - left, 0.0));
        left := padding;
      } else {
        TranslateAllZero(data);
        assert Point(left - old(left), 0.0) == Origin;
      }
    }

    /** Records the mark `c` and appends its primitives; the marks that enlarge the margin first
        move the glyph so that its margin matches the new padding. */
    method AddConsonant(c: string)
      modifies this`origin, this`apex, this`base, this`data, this`left, this`consonants
      ensures old(Valid()) ==> Valid()
      ensures consonants == old(consonants) + [c]
      ensures left == if MarkOf(c).Some? && MarkOf(c).value.SetsMarginFirst() then Padding() else old(left)
      ensures CurrentFrame() == old(CurrentFrame()).Translated(Point(left - old(left), 0.0))
    {
      ghost var codes := consonants;
      consonants := consonants + [c];
      var m := MarkOf(c);
      if m.Some? && m.value.SetsMarginFirst() {
        AppendShifted(c, codes);
      } else {
        AppendMark(c, codes);
      }
    }

    /** The margin-first marks: sets the margin to the padding, then appends the mark's primitives
        on the shifted frame; a drawing of the marks `codes` becomes the shifted drawing of `codes`
        followed by `c`. */
    method AppendShifted(c: string, ghost codes: seq<string>)
      modifies this`origin, this`apex, this`base, this`data, this`left
      ensures left == Padding()
      ensures CurrentFrame() == old(CurrentFrame()).Translated(Point(left - old(left), 0.0))
      ensures old(data) == Drawing(old(CurrentFrame()), outline, codes) ==>
        data == Drawing(CurrentFrame(), outline, codes + [c])
    {
      SetLeft();
      DrawingTranslates(old(CurrentFrame()), outline, codes, Point(left - old(left), 0.0));
      AppendMark(c, codes);
    }

    /** Appends the primitives of the mark `c` drawn on the current frame; a drawing of the marks
        `codes` becomes the drawing of `codes` followed by `c`. */
    method AppendMark(c: string, ghost codes: seq<string>)
      modifies this`data
      ensures old(data) == Drawing(CurrentFrame(), outline, codes) ==>
        data == Drawing(CurrentFrame(), outline, codes + [c])
    {
      DrawingSnoc(CurrentFrame(), outline, codes, c);
      data := data + MarkPrimitives(CurrentFrame(), c);
    }
  }

  /** Adding a mark to a drawing appends exactly the kinds of primitive the mark lists. */
  lemma DrawingShapes(f: Frame, outline: Outline, codes: seq<string>, c: string)
    ensures Shapes(Drawing(f, outline, codes + [c])) == Shapes(Drawing(f, outline, codes)) + MarkShapes(c)
  {
    DrawingSnoc(f, outline, codes, c);
    ShapesAppend(Drawing(f, outline, codes), MarkPrimitives(f, c));
    MarkShapesAgree(f, c);
  }

  // ---------------------------------------------------------------------------------------------
  // Properties of the construction

  /** Shifting the frame shifts every constructed point by the same offset. */
  lemma {:induction false} LocateTranslates(f: Frame, l: Locus, p: Point)
    ensures Locate(f.Translated(p), l) == Locate(f, l).Translate(p)
  {
    match l
    case AtOrigin =>
    case AtApex =>
    case AtBase =>
    case Midway(a, b) =>
      LocateTranslates(f, a, p);
      LocateTranslates(f, b, p);
      MidTranslates(Locate(f, a), Locate(f, b), p);
    case Moved(from, head, tail, k) =>
      LocateTranslates(f, from, p);
      LocateTranslates(f, head, p);
      LocateTranslates(f, tail, p);
      MovedTranslates(f, from, head, tail, k, p);
    case Beside(from, dx, dy) =>
      LocateTranslates(f, from, p);
      BesideTranslates(f, Locate(f, from), dx, dy, p);
  }

  /** A move by an offset given in units commutes with a shift of the frame. */
  lemma BesideTranslates(f: Frame, a: Point, dx: real, dy: real, p: Point)
    ensures f.Translated(p).Move(a.Translate(p), f.Translated(p).InUnits(dx, dy))
         == f.Move(a, f.InUnits(dx, dy)).Translate(p)
  {
    var g := f.Translated(p);
    assert g.unit == f.unit;
    assert g.InUnits(dx, dy) == f.InUnits(dx, dy);
    MoveTranslates(f, a, g.InUnits(dx, dy), p);
  }

  lemma MovedTranslates(f: Frame, from: Locus, head: Locus, tail: Locus, k: Factor, p: Point)
    requires Locate(f.Translated(p), from) == Locate(f, from).Translate(p)
    requires Locate(f.Translated(p), head) == Locate(f, head).Translate(p)
    requires Locate(f.Translated(p), tail) == Locate(f, tail).Translate(p)
    ensures Locate(f.Translated(p), Moved(from, head, tail, k)) == Locate(f, Moved(from, head, tail, k)).Translate(p)
  {
    var v := f.Vector(Locate(f, head), Locate(f, tail));
    VectorTranslates(f, Locate(f, head), Locate(f, tail), p);
    MoveTranslates(f, Locate(f, from), v.Scale(k.Value(f.unit)), p);
  }

  lemma RenderTranslates(f: Frame, s: Stroke, p: Point)
    ensures Render(f.Translated(p), s) == Render(f, s).Translated(p)
  {
    match s
    case LineOf(a, b) =>
      LocateTranslates(f, a, p);
      LocateTranslates(f, b, p);
    case ArcOf(c, _, _, _) =>
      LocateTranslates(f, c, p);
    case CircleOf(c, _) =>
      LocateTranslates(f, c, p);
  }

  /** Each mark's drawing moves with its frame: drawing on a shifted frame is the same as shifting
      the drawing. */
  lemma DrawTranslates(f: Frame, m: Mark, p: Point)
    ensures Draw(f.Translated(p), m) == TranslateAll(Draw(f, m), p)
  {
    var strokes := Recipe(m);
    forall i | 0 <= i < |strokes|
      ensures RenderAll(f.Translated(p), strokes)[i] == TranslateAll(RenderAll(f, strokes), p)[i]
    {
      RenderTranslates(f, strokes[i], p);
    }
  }

  lemma MarkPrimitivesTranslate(f: Frame, code: string, p: Point)
    ensures MarkPrimitives(f.Translated(p), code) == TranslateAll(MarkPrimitives(f, code), p)
  {
    if MarkOf(code).Some? {
      DrawTranslates(f, MarkOf(code).value, p);
    }
  }

  /** A whole glyph drawing moves with its frame, so shifting a valid glyph keeps it valid. */
  lemma {:induction false} DrawingTranslates(f: Frame, outline: Outline, codes: seq<string>, p: Point)
    ensures Drawing(f.Translated(p), outline, codes) == TranslateAll(Drawing(f, outline, codes), p)
  {
    if codes == [] {
    } else {
      var init, last := codes[..|codes| - 1], codes[|codes| - 1];
      DrawingTranslates(f, outline, init, p);
      MarkPrimitivesTranslate(f, last, p);
      TranslateAllAppend(Drawing(f, outline, init), MarkPrimitives(f, last), p);
    }
  }

  /** A rendered stroke is recognised as the kind it was drawn as: a descending arc can never be
      mistaken for a full circle. */
  lemma RenderShapes(f: Frame, strokes: seq<Stroke>)
    requires ArcsDescend(strokes)
    ensures |Shapes(RenderAll(f, strokes))| == |strokes|
    ensures forall i :: 0 <= i < |strokes| ==> Shapes(RenderAll(f, strokes))[i] == strokes[i].Shape()
  {
    var rendered := RenderAll(f, strokes);
    var shapes := Shapes(rendered);
    forall i | 0 <= i < |strokes|
      ensures shapes[i] == strokes[i].Shape()
    {
      assert shapes[i] == rendered[i].Shape() && rendered[i] == Render(f, strokes[i]);
      assert strokes[i].ArcOf? ==> strokes[i].start > strokes[i].end;
    }
  }

  /** Each recipe calls addLine, addArc and addCircle in the order the shape table lists, and every
      arc it draws sweeps downwards, so that no arc can be mistaken for a full circle. */
  lemma RecipeShapes(m: Mark)
    ensures |Recipe(m)| == |m.Shapes()|
    ensures forall i :: 0 <= i < |Recipe(m)| ==> Recipe(m)[i].Shape() == m.Shapes()[i]
    ensures ArcsDescend(Recipe(m))
  {
    match m
    case T => case PAspirated => case TDental => case C => case K => case Phi => case F =>
    case S => case Esh => case SRetroflex => case X => case H => case LBelt => case W =>
    case J => case L => case R => case RFlap => case DentalClick => case AlveolarClick =>
    case LateralClick => case NDental => case N => case NSyllabic => case EngSyllabic =>
  }

  /** The kinds of primitive a mark draws are those of its table entry. */
  lemma MarkShapesAgree(f: Frame, code: string)
    ensures Shapes(MarkPrimitives(f, code)) == MarkShapes(code)
  {
    if MarkOf(code).Some? {
      var m := MarkOf(code).value;
      var strokes := Recipe(m);
      RecipeShapes(m);
      RenderShapes(f, strokes);
      assert Shapes(MarkPrimitives(f, code)) == Shapes(RenderAll(f, strokes));
      assert Shapes(RenderAll(f, strokes)) == m.Shapes();
    }
  }
}
