/** The typesetting context: a cursor moving over a canvas, the sentence of glyphs and markers laid
    out so far, an undo stack of earlier cursors, and the serialized form used to reflow a line. */
module Typesetting {
  import opened Options
  import opened Geometry
  import opened Glyphs
  import opened Factory

  /** An entry of the sentence: a vowel glyph with its marks, or one of the two shared markers. */
  datatype Item = Placed(glyph: Glyph) | SpaceMarker | EnterMarker

  /** One entry of the serialized sentence: a bare string, or a vowel with its consonant codes. */
  datatype Element = Str(s: string) | Pair(head: string, tail: seq<string>)

  /** The serialized forms of the two markers, and the keys that place them. */
  const SPACE: string := " "
  const NEWLINE: string := "\n"
  const SpaceKey: string := "space"
  const EnterKey: string := "enter"

  /** How a call ended: normally, after the given number of reflows; with the exception that an
      undefined cursor raises; or with the reflow recursion deeper than the fuel allowed. */
  datatype Outcome = Settled(reflows: nat) | Threw | OutOfFuel

  /** The outcome of two calls made one after the other: running out of fuel is final, and the
      reflows add up. */
  function Then(a: Outcome, b: Outcome): (r: Outcome)
    ensures r == Settled(0) <==> a == Settled(0) && b == Settled(0)
    ensures r == OutOfFuel <==> a == OutOfFuel || b == OutOfFuel
    ensures r == Threw <==> r != OutOfFuel && (a == Threw || b == Threw)
  {
    if a == OutOfFuel || b == OutOfFuel then OutOfFuel
    else if a == Threw || b == Threw then Threw
    else Settled(a.reflows + b.reflows)
  }

  // ---------------------------------------------------------------------------------------------
  // The serialized sentence and its replay

  /** The keys that replaying one element feeds to addLetter. */
  function KeysOf(e: Element): seq<string> {
    match e
    case Str(s) => [if s == SPACE then SpaceKey else if s == NEWLINE then EnterKey else s]
    case Pair(v, cs) => [v] + cs
  }

  function Keys(data: seq<Element>): seq<string> {
    if data == [] then [] else Keys(data[..|data| - 1]) + KeysOf(data[|data| - 1])
  }

  /** The serialized sentence, and whether the current vowel is the glyph it ends with. */
  datatype Layout = Layout(elements: seq<Element>, attached: bool)

  const Start := Layout([], false)

  /** An element with one more consonant code. */
  function WithMark(e: Element, c: string): (r: Element)
    ensures r.Pair? && KeysOf(r) == KeysOf(Pair(if e.Str? then e.s else e.head, [])) + (if e.Pair? then e.tail else []) + [c]
  {
    match e
    case Str(v) => Pair(v, [c])
    case Pair(v, cs) => Pair(v, cs + [c])
  }

  /** What one key does to the serialized sentence when no reflow follows: a vowel is appended and
      becomes current; a consonant joins the current vowel if that is the last glyph and is lost
      otherwise; space and enter append their markers and clear the current vowel; any other key
      changes nothing. */
  function Step(l: Layout, key: string): Layout {
    if key in VOWELS then Layout(l.elements + [Str(key)], true)
    else if key in CONSONANTS then
      if l.attached && |l.elements| > 0 then
        Layout(l.elements[..|l.elements| - 1] + [WithMark(l.elements[|l.elements| - 1], key)], true)
      else l
    else if key == SpaceKey then Layout(l.elements + [Str(SPACE)], false)
    else if key == EnterKey then Layout(l.elements + [Str(NEWLINE)], false)
    else l
  }

  /** A step never touches the elements before the last one and appends at most one: a vowel
      appends itself and attaches, space and enter append a marker and detach, and any other key
      keeps the number of elements and the attachment, changing nothing while detached. */
  lemma StepShape(l: Layout, key: string)
    ensures var r := Step(l, key);
      && |l.elements| <= |r.elements| <= |l.elements| + 1
      && (|l.elements| > 0 ==> r.elements[..|l.elements| - 1] == l.elements[..|l.elements| - 1])
      && (key in VOWELS ==> r.attached && |r.elements| == |l.elements| + 1 && r.elements[|l.elements|] == Str(key))
      && (key == SpaceKey || key == EnterKey ==> !r.attached && |r.elements| == |l.elements| + 1)
      && (key !in VOWELS && key != SpaceKey && key != EnterKey ==> r.attached == l.attached && |r.elements| == |l.elements|)
      && (key !in VOWELS && !l.attached ==> r.elements[..|l.elements|] == l.elements)
  {
    MarkerKeys();
  }

  lemma StepVowel(l: Layout, key: string)
    requires key in VOWELS
    ensures Step(l, key) == Layout(l.elements + [Str(key)], true)
  {
  }

  lemma StepConsonant(l: Layout, key: string)
    requires key in CONSONANTS
    ensures Step(l, key) == if l.attached && |l.elements| > 0
      then Layout(l.elements[..|l.elements| - 1] + [WithMark(l.elements[|l.elements| - 1], key)], true)
      else l
  {
    if key in VOWELS {
      VowelsAreNotConsonants(key);
    }
  }

  lemma StepSpace(l: Layout)
    ensures Step(l, SpaceKey) == Layout(l.elements + [Str(SPACE)], false)
  {
    MarkerKeys();
  }

  lemma StepEnter(l: Layout)
    ensures Step(l, EnterKey) == Layout(l.elements + [Str(NEWLINE)], false)
  {
    MarkerKeys();
  }

  /** The layout reached from `l` by feeding `keys` one at a time without any reflow. */
  function ReplayFrom(l: Layout, keys: seq<string>): Layout {
    if keys == [] then l else Step(ReplayFrom(l, keys[..|keys| - 1]), keys[|keys| - 1])
  }

  /** What serialize can produce: bare vowels and markers, and vowels with listed consonants. */
  predicate WellFormedElement(e: Element) {
    if e.Str? then e.s in VOWELS || e.s == SPACE || e.s == NEWLINE
    else e.head in VOWELS && |e.tail| > 0 && forall c :: c in e.tail ==> c in CONSONANTS
  }

  predicate WellFormed(data: seq<Element>) {
    forall i :: 0 <= i < |data| ==> WellFormedElement(data[i])
  }

  lemma {:induction false} ReplayAppend(l: Layout, a: seq<string>, b: seq<string>)
    ensures ReplayFrom(l, a + b) == ReplayFrom(ReplayFrom(l, a), b)
    decreases |b|
  {
    if b == [] {
      assert a + b == a;
    } else {
      ReplayAppend(l, a, b[..|b| - 1]);
      assert (a + b)[..|a + b| - 1] == a + b[..|b| - 1];
    }
  }

  /** Feeding one more key is one more step. */
  lemma ReplaySnoc(l: Layout, keys: seq<string>, key: string)
    ensures ReplayFrom(l, keys + [key]) == Step(ReplayFrom(l, keys), key)
  {
    assert (keys + [key])[..|keys|] == keys;
  }

  /** Replaying one more key of `keys` is one more step. */
  lemma ReplayPrefix(l: Layout, keys: seq<string>, j: nat)
    requires j < |keys|
    ensures ReplayFrom(l, keys[..j + 1]) == Step(ReplayFrom(l, keys[..j]), keys[j])
  {
    ReplaySnoc(l, keys[..j], keys[j]);
    TakeSnoc(keys, j);
  }

  /** The keys of one more element follow the keys of the elements before it. */
  lemma KeysSnoc(data: seq<Element>, i: nat)
    requires i < |data|
    ensures Keys(data[..i + 1]) == Keys(data[..i]) + KeysOf(data[i])
  {
    assert data[..i + 1][..i] == data[..i];
  }

  /** Replaying one more element's keys continues from where the earlier elements left off. */
  lemma ReplayNext(data: seq<Element>, i: nat)
    requires i < |data|
    ensures ReplayFrom(Start, Keys(data[..i + 1])) == ReplayFrom(ReplayFrom(Start, Keys(data[..i])), KeysOf(data[i]))
  {
    KeysSnoc(data, i);
    ReplayAppend(Start, Keys(data[..i]), KeysOf(data[i]));
  }

  lemma KeysPush(data: seq<Element>, e: Element)
    ensures Keys(data + [e]) == Keys(data) + KeysOf(e)
  {
    assert (data + [e])[..|data|] == data;
  }

  lemma SplitLast<T>(a: seq<T>, b: seq<T>)
    requires b != []
    ensures a + b == (a + b[..|b| - 1]) + [b[|b| - 1]] && b == b[..|b| - 1] + [b[|b| - 1]]
  {
  }

  lemma TakeSnoc<T>(s: seq<T>, j: nat)
    requires j < |s|
    ensures s[..j] + [s[j]] == s[..j + 1]
  {
  }

  lemma DropLast<T>(s: seq<T>)
    requires s != []
    ensures s == s[..|s| - 1] + [s[|s| - 1]]
  {
  }

  lemma Associative<T>(a: seq<T>, b: seq<T>, c: seq<T>)
    ensures (a + b) + c == a + (b + c)
  {
  }

  lemma {:induction false} KeysAppend(a: seq<Element>, b: seq<Element>)
    ensures Keys(a + b) == Keys(a) + Keys(b)
    decreases |b|
  {
    if b == [] {
      assert a + b == a;
    } else {
      var front, last := b[..|b| - 1], b[|b| - 1];
      SplitLast(a, b);
      KeysPush(a + front, last);
      KeysPush(front, last);
      KeysAppend(a, front);
      Associative(Keys(a), Keys(front), KeysOf(last));
    }
  }

  /** Feeding consonant codes right after a vowel collects them on that vowel, in order. */
  lemma {:induction false} MarksReplay(init: seq<Element>, v: string, cs: seq<string>)
    requires forall c :: c in cs ==> c in CONSONANTS
    ensures ReplayFrom(Layout(init + [Str(v)], true), cs)
      == Layout(init + [if cs == [] then Str(v) else Pair(v, cs)], true)
    decreases |cs|
  {
    if cs != [] {
      var front, c := cs[..|cs| - 1], cs[|cs| - 1];
      assert cs == front + [c];
      assert forall d :: d in front ==> d in cs;
      MarksReplay(init, v, front);
      ReplaySnoc(Layout(init + [Str(v)], true), front, c);
      var e := if front == [] then Str(v) else Pair(v, front);
      StepMark(init, e, c);
    }
  }

  /** A consonant code typed while the last element is current joins that element. */
  lemma StepMark(init: seq<Element>, e: Element, c: string)
    requires c in CONSONANTS
    ensures Step(Layout(init + [e], true), c) == Layout(init + [WithMark(e, c)], true)
  {
    if c in VOWELS {
      VowelsAreNotConsonants(c);
      assert false;
    }
    assert (init + [e])[..|init|] == init;
  }

  /** The marker keys are neither vowels nor consonant codes. */
  lemma MarkerKeys()
    ensures SpaceKey !in VOWELS && SpaceKey !in CONSONANTS
    ensures EnterKey !in VOWELS && EnterKey !in CONSONANTS
  {
    MarkOfListed(SpaceKey);
    MarkOfListed(EnterKey);
  }

  /** Replaying a bare vowel or a marker appends it; only a vowel leaves the layout attached. */
  lemma StrReplay(l: Layout, s: string)
    requires WellFormedElement(Str(s))
    ensures ReplayFrom(l, KeysOf(Str(s))) == Layout(l.elements + [Str(s)], s in VOWELS)
  {
    var keys := KeysOf(Str(s));
    assert keys[..0] == [];
    assert ReplayFrom(l, keys) == Step(l, keys[0]);
    MarkerKeys();
    if s in VOWELS {
      assert s != SPACE && s != NEWLINE;
    }
  }

  /** Replaying a vowel with its consonant codes appends the pair. */
  lemma PairReplay(l: Layout, v: string, cs: seq<string>)
    requires WellFormedElement(Pair(v, cs))
    ensures ReplayFrom(l, KeysOf(Pair(v, cs))).elements == l.elements + [Pair(v, cs)]
  {
    ReplayAppend(l, [v], cs);
    assert [v][..0] == [];
    assert ReplayFrom(l, [v]) == Step(l, v);
    MarksReplay(l.elements, v, cs);
  }

  /** Replaying the keys of one well-formed element appends exactly that element. */
  lemma ElementReplay(l: Layout, e: Element)
    requires WellFormedElement(e)
    ensures ReplayFrom(l, KeysOf(e)).elements == l.elements + [e]
  {
    match e
    case Str(s) => StrReplay(l, s);
    case Pair(v, cs) => PairReplay(l, v, cs);
  }

  /** Replaying the keys of a well-formed serialized sentence rebuilds exactly that sentence. */
  lemma {:induction false} ReplayRoundTrip(data: seq<Element>)
    requires WellFormed(data)
    ensures ReplayFrom(Start, Keys(data)).elements == data
    decreases |data|
  {
    if data != [] {
      var init, e := data[..|data| - 1], data[|data| - 1];
      assert init + [e] == data;
      assert WellFormed(init) by {
        forall i | 0 <= i < |init| ensures WellFormedElement(init[i]) {
          assert init[i] == data[i];
        }
      }
      ReplayRoundTrip(init);
      assert Keys(data) == Keys(init) + KeysOf(e);
      ReplayAppend(Start, Keys(init), KeysOf(e));
      ElementReplay(ReplayFrom(Start, Keys(init)), e);
    }
  }

  /** The index of the last space marker, or -1 when there is none. */
  function LastSpace(items: seq<Item>): (r: int)
    ensures -1 <= r < |items|
    ensures r >= 0 ==> items[r] == SpaceMarker
    ensures forall i :: r < i < |items| ==> items[i] != SpaceMarker
  {
    if items == [] then -1
    else if items[|items| - 1] == SpaceMarker then |items| - 1
    else LastSpace(items[..|items| - 1])
  }

  /** Appending anything but a space marker leaves the last space where it was. */
  lemma LastSpaceSnoc(items: seq<Item>, x: Item)
    requires x != SpaceMarker
    ensures LastSpace(items + [x]) == LastSpace(items)
  {
    assert (items + [x])[..|items|] == items;
  }

  /** The sequence `s` with `x` inserted at position `at`. */
  function Insert<T>(s: seq<T>, at: nat, x: T): (r: seq<T>)
    requires at <= |s|
    ensures |r| == |s| + 1 && r[at] == x
    ensures forall i :: 0 <= i < at ==> r[i] == s[i]
    ensures forall i :: at < i < |r| ==> r[i] == s[i - 1]
  {
    s[..at] + [x] + s[at..]
  }

  /** Canvas height after the check made at the start of every key: one more line when the cursor's
      next line would reach the bottom edge. */
  function GrownHeight(height: real, y: real, lineHeight: real): (h: real)
    ensures h == height || h == height + lineHeight
    ensures lineHeight >= 0.0 ==> h >= height
  {
    if y + lineHeight >= height then height + lineHeight else height
  }

  // ---------------------------------------------------------------------------------------------
  // Reading glyphs out of the sentence

  function GlyphsOf(items: seq<Item>): set<Glyph> {
    set i | 0 <= i < |items| && items[i].Placed? :: items[i].glyph
  }

  /** A glyph the context can hold: a vowel carrying listed consonant codes. */
  ghost predicate Sound(g: Glyph)
    reads g
  {
    g.vowel in VOWELS && forall c :: c in g.consonants ==> c in CONSONANTS
  }

  /** Every glyph among the items is sound. */
  ghost predicate AllSound(items: seq<Item>)
    reads GlyphsOf(items)
  {
    forall i :: 0 <= i < |items| && items[i].Placed? ==> Sound(items[i].glyph)
  }

  /** No glyph occurs twice among the items. */
  predicate Distinct(items: seq<Item>) {
    forall i, j :: 0 <= i < j < |items| && items[i].Placed? && items[j].Placed? ==>
      items[i].glyph != items[j].glyph
  }

  /** The glyph `g` occurs among the items at most as the last one. */
  predicate OnlyLast(items: seq<Item>, g: Glyph) {
    forall i :: 0 <= i < |items| - 1 && items[i].Placed? ==> items[i].glyph != g
  }

  /** A prefix of sound, distinct items is sound and distinct. */
  lemma PrefixKeeps(items: seq<Item>, k: nat)
    requires k <= |items| && AllSound(items) && Distinct(items)
    ensures AllSound(items[..k]) && Distinct(items[..k])
  {
    var p := items[..k];
    forall i | 0 <= i < |p| && p[i].Placed? ensures Sound(p[i].glyph) {
      assert p[i] == items[i];
    }
  }

  /** A glyph that is at most the last of the items is at most the last of any prefix. */
  lemma OnlyLastPrefix(items: seq<Item>, k: nat, g: Glyph)
    requires k <= |items| && OnlyLast(items, g)
    ensures OnlyLast(items[..k], g)
  {
    forall i | 0 <= i < k - 1 && items[..k][i].Placed? ensures items[..k][i].glyph != g {
      assert items[..k][i] == items[i];
    }
  }

  /** Appending a marker, or a sound glyph not among the items, keeps the items sound and
      distinct, and leaves that glyph only at the end. */
  lemma AppendKeeps(items: seq<Item>, x: Item)
    requires AllSound(items) && Distinct(items)
    requires x.Placed? ==> Sound(x.glyph) && forall i :: 0 <= i < |items| && items[i].Placed? ==> items[i].glyph != x.glyph
    ensures AllSound(items + [x]) && Distinct(items + [x])
    ensures x.Placed? ==> OnlyLast(items + [x], x.glyph)
  {
    var r := items + [x];
    forall i | 0 <= i < |r| && r[i].Placed? ensures Sound(r[i].glyph) {
      if i < |items| {
        assert r[i] == items[i];
      }
    }
  }

  /** Inserting a marker keeps the items sound and distinct. */
  lemma InsertKeeps(items: seq<Item>, at: nat)
    requires at <= |items| && AllSound(items) && Distinct(items)
    ensures AllSound(Insert(items, at, EnterMarker)) && Distinct(Insert(items, at, EnterMarker))
  {
    var r := Insert(items, at, EnterMarker);
    forall i | 0 <= i < |r| && r[i].Placed? ensures Sound(r[i].glyph) {
      if i < at {
        assert r[i] == items[i];
      } else {
        assert r[i] == items[i - 1];
      }
    }
    forall i, j | 0 <= i < j < |r| && r[i].Placed? && r[j].Placed? ensures r[i].glyph != r[j].glyph {
      var i' := if i < at then i else i - 1;
      var j' := if j < at then j else j - 1;
      assert r[i] == items[i'] && r[j] == items[j'];
    }
  }

  /** How serialize writes one item. */
  function ElementOf(item: Item): (e: Element)
    reads if item.Placed? then {item.glyph} else {}
    ensures item == SpaceMarker ==> KeysOf(e) == [SpaceKey]
    ensures item == EnterMarker ==> KeysOf(e) == [EnterKey]
    ensures item.Placed? && item.glyph.vowel in VOWELS ==> KeysOf(e) == [item.glyph.vowel] + item.glyph.consonants
  {
    match item
    case SpaceMarker => Str(SPACE)
    case EnterMarker => Str(NEWLINE)
    case Placed(g) => if |g.consonants| > 0 then Pair(g.vowel, g.consonants) else Str(g.vowel)
  }

  function ElementsOf(items: seq<Item>): (r: seq<Element>)
    reads GlyphsOf(items)
    ensures |r| == |items|
  {
    if items == [] then []
    else
      GlyphsPrefix(items);
      ElementsOf(items[..|items| - 1]) + [ElementOf(items[|items| - 1])]
  }

  lemma GlyphsPrefix(items: seq<Item>)
    requires items != []
    ensures GlyphsOf(items[..|items| - 1]) <= GlyphsOf(items)
    ensures items[|items| - 1].Placed? ==> items[|items| - 1].glyph in GlyphsOf(items)
  {
    var init := items[..|items| - 1];
    forall g | g in GlyphsOf(init) ensures g in GlyphsOf(items) {
      var i :| 0 <= i < |init| && init[i].Placed? && init[i].glyph == g;
      assert items[i] == init[i];
    }
  }

  /** Serializing commutes with appending an item. */
  lemma AppendElements(items: seq<Item>, x: Item)
    ensures ElementsOf(items + [x]) == ElementsOf(items) + [ElementOf(x)]
  {
    assert (items + [x])[..|items|] == items;
  }

  /** The serialized form of items whose glyphs have not changed since the earlier state. */
  twostate lemma {:induction false} ElementsUnchanged(items: seq<Item>)
    requires forall i :: 0 <= i < |items| && items[i].Placed? ==> unchanged(items[i].glyph)
    ensures ElementsOf(items) == old(ElementsOf(items))
    decreases |items|
  {
    if items != [] {
      ElementsUnchanged(items[..|items| - 1]);
    }
  }

  /** Soundness of items whose glyphs have not changed since the earlier state. */
  twostate lemma SoundUnchanged(items: seq<Item>)
    requires forall i :: 0 <= i < |items| && items[i].Placed? ==> unchanged(items[i].glyph)
    requires old(AllSound(items))
    ensures AllSound(items)
  {
    forall i | 0 <= i < |items| && items[i].Placed? ensures Sound(items[i].glyph) {
      assert old(Sound(items[i].glyph));
    }
  }

  /** Serializing commutes with concatenation. */
  lemma {:induction false} ConcatElements(a: seq<Item>, b: seq<Item>)
    ensures ElementsOf(a + b) == ElementsOf(a) + ElementsOf(b)
    decreases |b|
  {
    if b == [] {
      assert a + b == a;
    } else {
      var front, last := b[..|b| - 1], b[|b| - 1];
      assert a + b == (a + front) + [last];
      AppendElements(a + front, last);
      ConcatElements(a, front);
      AppendElements(front, last);
      assert b == front + [last];
    }
  }

  /** Sound glyphs and the markers serialize to well-formed elements. */
  lemma {:induction false} SoundElements(items: seq<Item>)
    requires AllSound(items)
    ensures WellFormed(ElementsOf(items))
    decreases |items|
  {
    if items != [] {
      var front, last := items[..|items| - 1], items[|items| - 1];
      assert AllSound(front) by {
        forall i | 0 <= i < |front| && front[i].Placed? ensures Sound(front[i].glyph) {
          assert front[i] == items[i];
        }
      }
      SoundElements(front);
      assert last.Placed? ==> Sound(last.glyph);
      assert WellFormedElement(ElementOf(last));
    }
  }

  /** Serializing commutes with inserting an item. */
  lemma InsertElements(items: seq<Item>, at: nat, x: Item)
    requires at <= |items|
    ensures ElementsOf(Insert(items, at, x)) == Insert(ElementsOf(items), at, ElementOf(x))
  {
    var front, back := items[..at], items[at..];
    assert items == front + back && |front| == at;
    InsertConcat(front, back, x);
    ConcatElements(front, back);
    ConcatElements(front + [x], back);
    AppendElements(front, x);
    InsertConcat(ElementsOf(front), ElementsOf(back), ElementOf(x));
  }

  /** Inserting at the seam of a concatenation puts the item between the two parts. */
  lemma InsertConcat<T>(a: seq<T>, b: seq<T>, x: T)
    ensures Insert(a + b, |a|, x) == (a + [x]) + b
    ensures a == (a + b)[..|a|] && b == (a + b)[|a|..]
  {
  }

  /** Adds a listed consonant code to a sound glyph: it stays sound, keeps its vowel and
      serializes with the code appended. */
  method MarkGlyph(g: Glyph, key: string)
    requires Sound(g) && key in CONSONANTS
    modifies g
    ensures Sound(g) && g.vowel == old(g.vowel) && g.consonants == old(g.consonants) + [key]
    ensures ElementOf(Placed(g)) == WithMark(old(ElementOf(Placed(g))), key)
  {
    g.AddConsonant(key);
  }

  // ---------------------------------------------------------------------------------------------
  // The context

  class Context {
    const factory: GlyphFactory
    const lineHeight: real
    const lineWidth: real
    const spaceWidth: real
    const canvasWidth: real
    var canvasHeight: real
    /** None once undo has popped an empty stack (the source's undefined cursor). */
    var cursor: Option<Point>
    /** Undo stack of earlier cursors. */
    var buffer: seq<Point>
    var sentence: seq<Item>
    /** The glyph consonant keys are added to; null when there is none. */
    var currentVowel: Glyph?

    /** Every glyph of the sentence is sound and appears once; the current vowel is sound and, if
        it is in the sentence at all, it is the last item (after an undo it may be a glyph that
        has left the sentence). */
    ghost predicate Valid()
      reads this`sentence, this`currentVowel, GlyphsOf(sentence), currentVowel
    {
      && AllSound(sentence)
      && Distinct(sentence)
      && (currentVowel != null ==> Sound(currentVowel) && OnlyLast(sentence, currentVowel))
    }

    /** The serialized sentence. */
    function Elements(): seq<Element>
      reads this`sentence, GlyphsOf(sentence)
    {
      ElementsOf(sentence)
    }

    /** Whether consonant keys currently reach the sentence: the current vowel is its last item. */
    function Tracking(): bool
      reads this`sentence, this`currentVowel
    {
      currentVowel != null && |sentence| > 0 && sentence[|sentence| - 1] == Placed(currentVowel)
    }

    /** The serialized sentence together with the tracking flag. */
    function Snapshot(): Layout
      reads this`sentence, this`currentVowel, GlyphsOf(sentence)
    {
      Layout(Elements(), Tracking())
    }

    constructor (unit: real, width: real, height: real)
      ensures fresh(factory) && factory.unit == unit
      ensures lineHeight == unit * HEIGHT * 3.0
      ensures lineWidth == unit / 3.0
      ensures spaceWidth == unit * BASE * 1.1
      ensures canvasWidth == width && canvasHeight == height
      ensures cursor == Some(Origin) && buffer == [] && sentence == [] && currentVowel == null
      ensures Valid()
    {
      factory := new GlyphFactory(unit);
      lineHeight := unit * HEIGHT * 3.0;
      lineWidth := unit / 3.0;
      spaceWidth := unit * BASE * 1.1;
      canvasWidth := width;
      canvasHeight := height;
      cursor := Some(Point(0.0, 0.0));
      buffer := [];
      currentVowel := null;
      sentence := [];
    }

    /** Back to an empty sentence at the top left corner; the canvas keeps its height. */
    method Reset()
      modifies this`cursor, this`buffer, this`currentVowel, this`sentence
      ensures cursor == Some(Origin) && buffer == [] && currentVowel == null && sentence == []
      ensures Valid() && Snapshot() == Start
    {
      cursor := Some(Point(0.0, 0.0));
      buffer := [];
      currentVowel := null;
      sentence := [];
    }

    /** The sentence written out item by item. */
    method Serialize() returns (output: seq<Element>)
      ensures output == Elements()
      ensures AllSound(sentence) ==> WellFormed(output)
    {
      output := [];
      var i := 0;
      while i < |sentence|
        invariant 0 <= i <= |sentence|
        invariant output == ElementsOf(sentence[..i])
      {
        AppendElements(sentence[..i], sentence[i]);
        assert sentence[..i + 1] == sentence[..i] + [sentence[i]];
        var elem := sentence[i];
        if elem == SpaceMarker {
          output := output + [Str(SPACE)];
        } else if elem == EnterMarker {
          output := output + [Str(NEWLINE)];
        } else {
          var v, c := elem.glyph.vowel, elem.glyph.consonants;
          if |c| > 0 {
            output := output + [Pair(v, c)];
          } else {
            output := output + [Str(v)];
          }
        }
        i := i + 1;
      }
      assert sentence[..i] == sentence;
      if AllSound(sentence) {
        SoundElements(sentence);
      }
    }

    /** How far the current vowel moves the cursor when the next glyph or space is placed. */
    function Advance(): (r: real)
      reads this`currentVowel, currentVowel
      ensures currentVowel == null ==> r == 0.0
      ensures currentVowel != null && currentVowel.unit >= 0.0 ==> r >= BASE * currentVowel.unit
    {
      if currentVowel == null then 0.0 else currentVowel.Kerning()
    }

    /** Whether a vowel placed with its left edge at `x` reaches the right edge of the canvas: a
        freshly built vowel carries no codes, so its advance is that of an unmarked glyph in any
        orientation. */
    function Overflows(x: real): (r: bool)
      ensures forall o: Orientation :: r <==> x + KerningOf(o, Abs(factory.unit), []) >= canvasWidth
    {
      x + BASE * Abs(factory.unit) >= canvasWidth
    }

    /** One more line of canvas when the next line would reach the bottom edge. */
    method GrowCanvas()
      requires cursor.Some?
      modifies this`canvasHeight
      ensures canvasHeight == GrownHeight(old(canvasHeight), cursor.value.y, lineHeight)
    {
      if cursor.value.y + lineHeight >= canvasHeight {
        canvasHeight := canvasHeight + lineHeight;
      }
    }

    /** Moves the cursor past the current vowel, if any, saving where it was. */
    method PassCurrentVowel()
      requires cursor.Some?
      modifies this`cursor, this`buffer
      ensures currentVowel != null ==>
        buffer == old(buffer) + [old(cursor).value] && cursor == Some(old(cursor).value.Translate(Point(Advance(), 0.0)))
      ensures currentVowel == null ==> buffer == old(buffer) && cursor == old(cursor)
    {
      if currentVowel != null {
        buffer := buffer + [cursor.value];
        cursor := Some(cursor.value.Translate(Point(currentVowel.Kerning(), 0.0)));
      }
    }

    /** A vowel key: the cursor moves past the current vowel, if any, saving where it was; the
        new glyph is appended and becomes current. Returns the point its right edge reaches. */
    method PlaceVowel(key: string) returns (overflow: Point)
      requires Valid() && key in VOWELS && cursor.Some?
      modifies this`cursor, this`buffer, this`currentVowel, this`sentence, factory`baseline, factory`left
      ensures old(currentVowel) != null ==>
        buffer == old(buffer) + [old(cursor).value]
        && cursor == Some(old(cursor).value.Translate(Point(old(Advance()), 0.0)))
      ensures old(currentVowel) == null ==> buffer == old(buffer) && cursor == old(cursor)
      ensures currentVowel != null && fresh(currentVowel)
      ensures currentVowel.vowel == key && currentVowel.consonants == []
      ensures sentence == old(sentence) + [Placed(currentVowel)]
      ensures overflow == Point(cursor.value.x + BASE * Abs(factory.unit), cursor.value.y)
      ensures overflow.x >= canvasWidth <==> Overflows(old(cursor).value.x + old(Advance()))
      ensures Valid() && Snapshot() == Step(old(Snapshot()), key)
    {
      ghost var before := Snapshot();
      PassCurrentVowel();
      var g := factory.NewVowel(key, cursor.value);
      currentVowel := g;
      sentence := sentence + [Placed(g)];
      ElementsUnchanged(old(sentence));
      SoundUnchanged(old(sentence));
      AppendElements(old(sentence), Placed(g));
      AppendKeeps(old(sentence), Placed(g));
      StepVowel(before, key);
      overflow := cursor.value.Translate(Point(g.Kerning(), 0.0));
    }

    /** A consonant key while a vowel is current: the code is added to that glyph, which may have
        left the sentence through an undo. */
    method AttachConsonant(key: string)
      requires Valid() && key in CONSONANTS && currentVowel != null
      modifies currentVowel
      ensures currentVowel.consonants == old(currentVowel.consonants) + [key]
      ensures currentVowel.vowel == old(currentVowel.vowel)
      ensures Valid() && Snapshot() == Step(old(Snapshot()), key)
    {
      ghost var before := Snapshot();
      if Tracking() {
        MarkLast(key);
      } else {
        MarkDetached(key);
      }
      StepConsonant(before, key);
    }

    /** The current vowel is the last glyph of the sentence: its serialized form gains the code. */
    method MarkLast(key: string)
      requires Valid() && key in CONSONANTS && Tracking()
      modifies currentVowel
      ensures currentVowel.consonants == old(currentVowel.consonants) + [key]
      ensures currentVowel.vowel == old(currentVowel.vowel)
      ensures Valid() && Tracking()
      ensures Elements() == old(Elements())[..|sentence| - 1] + [WithMark(old(Elements())[|sentence| - 1], key)]
    {
      var g := currentVowel;
      ghost var prefix := sentence[..|sentence| - 1];
      assert sentence == prefix + [Placed(g)];
      PrefixKeeps(sentence, |sentence| - 1);
      AppendElements(prefix, Placed(g));
      MarkGlyph(g, key);
      ElementsUnchanged(prefix);
      SoundUnchanged(prefix);
      AppendKeeps(prefix, Placed(g));
      AppendElements(prefix, Placed(g));
    }

    /** The current vowel has left the sentence: the code changes that glyph only. */
    method MarkDetached(key: string)
      requires Valid() && key in CONSONANTS && currentVowel != null && !Tracking()
      modifies currentVowel
      ensures currentVowel.consonants == old(currentVowel.consonants) + [key]
      ensures currentVowel.vowel == old(currentVowel.vowel)
      ensures Valid() && !Tracking() && Elements() == old(Elements())
    {
      assert forall i :: 0 <= i < |sentence| && sentence[i].Placed? ==> sentence[i].glyph != currentVowel;
      MarkGlyph(currentVowel, key);
      ElementsUnchanged(sentence);
      SoundUnchanged(sentence);
    }

    /** The space key: the cursor moves past the current vowel and one space width, saving where
        it was; the space marker is appended and no vowel is current. */
    method PlaceSpace()
      requires Valid() && cursor.Some?
      modifies this`cursor, this`buffer, this`currentVowel, this`sentence
      ensures buffer == old(buffer) + [old(cursor).value]
      ensures cursor == Some(Point(old(cursor).value.x + old(Advance()) + spaceWidth, old(cursor).value.y))
      ensures currentVowel == null && sentence == old(sentence) + [SpaceMarker]
      ensures Valid() && Snapshot() == Step(old(Snapshot()), SpaceKey)
    {
      ghost var before := Snapshot();
      var at := cursor.value;
      if currentVowel != null {
        at := at.Translate(Point(currentVowel.Kerning(), 0.0));
      }
      at := at.Translate(Point(spaceWidth, 0.0));
      assert at == Point(cursor.value.x + Advance() + spaceWidth, cursor.value.y);
      buffer := buffer + [cursor.value];
      currentVowel := null;
      cursor := Some(at);
      sentence := sentence + [SpaceMarker];
      ElementsUnchanged(old(sentence));
      SoundUnchanged(old(sentence));
      AppendElements(old(sentence), SpaceMarker);
      AppendKeeps(old(sentence), SpaceMarker);
      StepSpace(before);
    }

    /** The enter key: the cursor goes to the start of the next line, saving where it was; the
        enter marker is appended and no vowel is current. */
    method PlaceEnter()
      requires Valid() && cursor.Some?
      modifies this`cursor, this`buffer, this`currentVowel, this`sentence
      ensures buffer == old(buffer) + [old(cursor).value]
      ensures cursor == Some(Point(0.0, old(cursor).value.y + lineHeight))
      ensures currentVowel == null && sentence == old(sentence) + [EnterMarker]
      ensures Valid() && Snapshot() == Step(old(Snapshot()), EnterKey)
    {
      ghost var before := Snapshot();
      currentVowel := null;
      buffer := buffer + [cursor.value];
      cursor := Some(Point(0.0, cursor.value.y + lineHeight));
      sentence := sentence + [EnterMarker];
      ElementsUnchanged(old(sentence));
      SoundUnchanged(old(sentence));
      AppendElements(old(sentence), EnterMarker);
      AppendKeeps(old(sentence), EnterMarker);
      StepEnter(before);
    }

    /** Removes the last item and returns to the cursor saved before it; the current vowel is kept
        even when it is the glyph being removed, and an empty stack leaves the cursor undefined. */
    method Undo()
      requires Valid()
      modifies this`sentence, this`cursor, this`buffer
      ensures sentence == if |old(sentence)| > 0 then old(sentence)[..|old(sentence)| - 1] else []
      ensures buffer == if |old(buffer)| > 0 then old(buffer)[..|old(buffer)| - 1] else []
      ensures cursor == if |old(buffer)| > 0 then Some(old(buffer)[|old(buffer)| - 1]) else None
      ensures Valid()
      ensures Elements() == if |old(sentence)| > 0 then old(Elements())[..|old(sentence)| - 1] else []
    {
      ghost var items := sentence;
      if |sentence| > 0 {
        PrefixKeeps(items, |items| - 1);
        if currentVowel != null {
          OnlyLastPrefix(items, |items| - 1, currentVowel);
        }
        AppendElements(items[..|items| - 1], items[|items| - 1]);
        DropLast(items);
        sentence := sentence[..|sentence| - 1];
      }
      if |buffer| > 0 {
        cursor := Some(buffer[|buffer| - 1]);
        buffer := buffer[..|buffer| - 1];
      } else {
        cursor := None;
      }
      ElementsUnchanged(sentence);
      SoundUnchanged(sentence);
    }

    /** Where a key that causes no reflow leaves a cursor standing at `at`, and whether it saves
        `at` on the undo stack first. `current` says whether a vowel is current and `advance` is how
        far that vowel moves the cursor. The cursor never moves without saving where it was, so
        undo always returns to the position before the key. */
    function CursorStep(key: string, at: Point, current: bool, advance: real): (r: (Point, bool))
      ensures r.1 <==> (key in VOWELS && current) || key == SpaceKey || key == EnterKey
      ensures !r.1 ==> r.0 == at
    {
      MarkerKeys();
      if key in VOWELS then
        if current then (at.Translate(Point(advance, 0.0)), true) else (at, false)
      else if key == SpaceKey then (Point(at.x + advance + spaceWidth, at.y), true)
      else if key == EnterKey then (Point(0.0, at.y + lineHeight), true)
      else (at, false)
    }

    /** One key typed by the host. The canvas first grows by a line when the cursor's next line
        would reach its bottom; then a vowel is placed, a consonant code joins the current vowel,
        space and enter place their markers, and any other key does nothing more. A vowel whose
        right edge reaches the canvas's right edge makes the line break after the last space: an
        enter marker goes in after it (at the very front when there is no space) and the whole
        sentence is serialized and typed again from scratch. An undefined cursor makes the first
        step raise before anything changes. `fuel` bounds how deeply reflows may nest. */
    method AddLetter(key: string, fuel: nat) returns (outcome: Outcome)
      requires Valid()
      modifies this, factory, currentVowel
      decreases fuel, 3
      ensures Valid()
      ensures currentVowel == null || currentVowel == old(currentVowel) || fresh(currentVowel)
      ensures outcome == Threw <==> old(cursor).None?
      ensures outcome == Threw ==> unchanged(this) && unchanged(factory)
      ensures outcome == Threw && old(currentVowel) != null ==> unchanged(old(currentVowel))
      ensures key in VOWELS && old(currentVowel) != null ==> unchanged(old(currentVowel))
      ensures outcome != Threw ==> cursor.Some?
      ensures lineHeight >= 0.0 ==> canvasHeight >= old(canvasHeight)
      ensures outcome.Settled? && outcome.reflows > 0 ==> key in VOWELS
      ensures key !in VOWELS && old(cursor).Some? ==> outcome == Settled(0)
      ensures key in VOWELS && old(cursor).Some? ==>
        (outcome == Settled(0) <==>
          !(Overflows(old(cursor).value.x + old(Advance())) && LastSpace(old(sentence)) != 0))
      ensures outcome == Settled(0) ==>
        canvasHeight == GrownHeight(old(canvasHeight), old(cursor).value.y, lineHeight)
        && Snapshot() == Step(old(Snapshot()), key)
      ensures outcome == Settled(0) ==>
        var step := CursorStep(key, old(cursor).value, old(currentVowel) != null, old(Advance()));
        cursor == Some(step.0) && buffer == old(buffer) + (if step.1 then [old(cursor).value] else [])
      ensures outcome == Settled(0) && key in VOWELS ==>
        currentVowel != null && fresh(currentVowel)
        && currentVowel.vowel == key && currentVowel.consonants == []
        && sentence == old(sentence) + [Placed(currentVowel)]
      ensures key !in VOWELS && old(cursor).Some? ==> KeptOrCleared(key, old(currentVowel))
    {
      if cursor.None? {
        return Threw;
      }
      ghost var before := Snapshot();
      GrowCanvas();
      ElementsUnchanged(sentence);
      assert Snapshot() == before;
      if key in VOWELS {
        outcome := TypeVowel(key, fuel);
      } else {
        MarkerKeys();
        TypeOther(key);
        outcome := Settled(0);
      }
    }

    /** What a key other than a vowel does to the sentence items and the current vowel: a
        consonant code is added to the current vowel `prev`, if any, and leaves the items alone;
        space and enter append their markers and leave no vowel current; any other key changes
        neither. */
    twostate predicate KeptOrCleared(key: string, prev: Glyph?)
      reads this, prev
    {
      if key in CONSONANTS then
        currentVowel == prev && sentence == old(sentence)
        && (prev != null ==> prev.consonants == old(prev.consonants) + [key])
      else if key == SpaceKey then currentVowel == null && sentence == old(sentence) + [SpaceMarker]
      else if key == EnterKey then currentVowel == null && sentence == old(sentence) + [EnterMarker]
      else currentVowel == prev && sentence == old(sentence) && (prev != null ==> unchanged(prev))
    }

    /** The vowel branch of a key, after the canvas check: the vowel is placed, and its overflow
        past the right edge reflows the sentence unless the last space is the very first item. */
    method TypeVowel(key: string, fuel: nat) returns (outcome: Outcome)
      requires Valid() && key in VOWELS && cursor.Some?
      modifies this, factory
      decreases fuel, 2
      ensures Valid() && cursor.Some? && outcome != Threw
      ensures currentVowel == null || fresh(currentVowel)
      ensures lineHeight >= 0.0 ==> canvasHeight >= old(canvasHeight)
      ensures outcome == Settled(0) <==>
        !(Overflows(old(cursor).value.x + old(Advance())) && LastSpace(old(sentence)) != 0)
      ensures outcome == Settled(0) ==>
        canvasHeight == old(canvasHeight) && Snapshot() == Step(old(Snapshot()), key)
      ensures outcome == Settled(0) ==>
        var step := CursorStep(key, old(cursor).value, old(currentVowel) != null, old(Advance()));
        cursor == Some(step.0) && buffer == old(buffer) + (if step.1 then [old(cursor).value] else [])
      ensures outcome == Settled(0) ==>
        currentVowel != null && currentVowel.vowel == key && currentVowel.consonants == []
        && sentence == old(sentence) + [Placed(currentVowel)]
    {
      var overflow := PlaceVowel(key);
      LastSpaceSnoc(old(sentence), Placed(currentVowel));
      outcome := Settled(0);
      if overflow.x >= canvasWidth && LastSpace(sentence) != 0 {
        outcome := Reflow(fuel);
      }
    }

    /** Every other branch of a key, after the canvas check: a consonant code, space, enter, or a
        key that changes nothing. */
    method TypeOther(key: string)
      requires Valid() && key !in VOWELS && cursor.Some?
      modifies this`cursor, this`buffer, this`currentVowel, this`sentence, currentVowel
      ensures Valid() && cursor.Some?
      ensures currentVowel == null || currentVowel == old(currentVowel)
      ensures Snapshot() == Step(old(Snapshot()), key)
      ensures var step := CursorStep(key, old(cursor).value, old(currentVowel) != null, old(Advance()));
        cursor == Some(step.0) && buffer == old(buffer) + (if step.1 then [old(cursor).value] else [])
      ensures KeptOrCleared(key, old(currentVowel))
    {
      MarkerKeys();
      if key in CONSONANTS {
        if currentVowel != null {
          AttachConsonant(key);
        } else {
          StepConsonant(Snapshot(), key);
        }
      } else if key == SpaceKey {
        PlaceSpace();
      } else if key == EnterKey {
        PlaceEnter();
      }
    }

    /** The first half of a reflow: an enter marker goes in just after the last space and the
        sentence is serialized with it. */
    method BreakLine() returns (data: seq<Element>)
      requires Valid() && LastSpace(sentence) != 0
      modifies this`sentence
      ensures sentence == Insert(old(sentence), LastSpace(old(sentence)) + 1, EnterMarker)
      ensures data == Insert(old(Elements()), LastSpace(old(sentence)) + 1, Str(NEWLINE))
      ensures WellFormed(data)
    {
      var index := LastSpace(sentence);
      ghost var typed := sentence;
      sentence := Insert(sentence, index + 1, EnterMarker);
      data := Serialize();
      InsertKeeps(typed, index + 1);
      ElementsUnchanged(typed);
      SoundUnchanged(typed);
      InsertElements(typed, index + 1, EnterMarker);
    }

    /** Breaks the line after the last space marker (before everything when there is none) and
        types the whole sentence again from its serialized form; with no fuel left, gives up
        before changing anything. */
    method Reflow(fuel: nat) returns (outcome: Outcome)
      requires Valid() && cursor.Some? && LastSpace(sentence) != 0
      modifies this, factory
      decreases fuel, 1
      ensures outcome != Threw && Valid() && cursor.Some?
      ensures currentVowel == null || currentVowel == old(currentVowel) || fresh(currentVowel)
      ensures lineHeight >= 0.0 ==> canvasHeight >= old(canvasHeight)
      ensures fuel == 0 ==> outcome == OutOfFuel && unchanged(this)
      ensures outcome.Settled? ==> outcome.reflows > 0
      ensures outcome == Settled(1) ==>
        Elements() == Insert(old(Elements()), LastSpace(old(sentence)) + 1, Str(NEWLINE))
    {
      if fuel == 0 {
        return OutOfFuel;
      }
      var data := BreakLine();
      var r := Deserialize(data, fuel - 1);
      outcome := if r.Settled? then Settled(r.reflows + 1) else r;
    }

    /** Types one serialized element: a string is one key, the two marker strings standing for
        space and enter; a vowel with codes is the vowel's key followed by the codes. */
    method TypeElement(e: Element, fuel: nat) returns (outcome: Outcome)
      requires Valid() && cursor.Some?
      modifies this, factory, currentVowel
      decreases fuel, 6
      ensures Valid() && cursor.Some? && outcome != Threw
      ensures currentVowel == null || currentVowel == old(currentVowel) || fresh(currentVowel)
      ensures lineHeight >= 0.0 ==> canvasHeight >= old(canvasHeight)
      ensures outcome == Settled(0) ==> Snapshot() == ReplayFrom(old(Snapshot()), KeysOf(e))
    {
      ghost var start := Snapshot();
      var key := if e.Pair? then e.head else if e.s == SPACE then SpaceKey else if e.s == NEWLINE then EnterKey else e.s;
      outcome := AddLetter(key, fuel);
      ReplaySnoc(start, [], key);
      if e.Pair? {
        var r := TypeCodes(e.tail, fuel);
        ReplayAppend(start, [key], e.tail);
        outcome := Then(outcome, r);
      }
    }

    /** Types each consonant code of a serialized vowel, in order. */
    /** One turn of `TypeCodes`: types `cs[j]` and folds its outcome into the running one. */
    method TypeNext(ghost start: Layout, cs: seq<string>, j: nat, outcome: Outcome, fuel: nat) returns (next: Outcome)
      requires j < |cs| && Valid() && cursor.Some? && outcome != Threw
      requires outcome == Settled(0) ==> Snapshot() == ReplayFrom(start, cs[..j])
      modifies this, factory, currentVowel
      decreases fuel, 4
      ensures Valid() && cursor.Some? && next != Threw
      ensures currentVowel == null || currentVowel == old(currentVowel) || fresh(currentVowel)
      ensures lineHeight >= 0.0 ==> canvasHeight >= old(canvasHeight)
      ensures next == Settled(0) ==> Snapshot() == ReplayFrom(start, cs[..j + 1])
    {
      var r := AddLetter(cs[j], fuel);
      next := Then(outcome, r);
      ReplayPrefix(start, cs, j);
    }

    method TypeCodes(cs: seq<string>, fuel: nat) returns (outcome: Outcome)
      requires Valid() && cursor.Some?
      modifies this, factory, currentVowel
      decreases fuel, 5
      ensures Valid() && cursor.Some? && outcome != Threw
      ensures currentVowel == null || currentVowel == old(currentVowel) || fresh(currentVowel)
      ensures lineHeight >= 0.0 ==> canvasHeight >= old(canvasHeight)
      ensures outcome == Settled(0) ==> Snapshot() == ReplayFrom(old(Snapshot()), cs)
    {
      ghost var start := Snapshot();
      outcome := Settled(0);
      var j := 0;
      while j < |cs|
        invariant 0 <= j <= |cs|
        invariant Valid() && cursor.Some? && outcome != Threw
        invariant currentVowel == null || currentVowel == old(currentVowel) || fresh(currentVowel)
        invariant lineHeight >= 0.0 ==> canvasHeight >= old(canvasHeight)
        invariant outcome == Settled(0) ==> Snapshot() == ReplayFrom(start, cs[..j])
      {
        outcome := TypeNext(start, cs, j, outcome, fuel);
        j := j + 1;
      }
      assert cs[..j] == cs;
    }

    /** Clears the context and types the serialized sentence again, element by element: a string
        is one key (the two marker strings standing for space and enter), a vowel with codes is
        the vowel's key followed by each code. */
    method Deserialize(data: seq<Element>, fuel: nat) returns (outcome: Outcome)
      modifies this, factory
      decreases fuel, 7
      ensures outcome != Threw
      ensures Valid() && cursor.Some?
      ensures currentVowel == null || fresh(currentVowel)
      ensures lineHeight >= 0.0 ==> canvasHeight >= old(canvasHeight)
      ensures outcome == Settled(0) ==> Snapshot() == ReplayFrom(Start, Keys(data))
      ensures outcome == Settled(0) && WellFormed(data) ==> Elements() == data
    {
      Reset();
      outcome := Settled(0);
      var i := 0;
      while i < |data|
        invariant 0 <= i <= |data|
        invariant Valid() && cursor.Some?
        invariant currentVowel == null || fresh(currentVowel)
        invariant outcome != Threw
        invariant lineHeight >= 0.0 ==> canvasHeight >= old(canvasHeight)
        invariant outcome == Settled(0) ==> Snapshot() == ReplayFrom(Start, Keys(data[..i]))
      {
        var r := TypeElement(data[i], fuel);
        outcome := Then(outcome, r);
        ReplayNext(data, i);
        i := i + 1;
      }
      assert data[..i] == data;
      if outcome == Settled(0) && WellFormed(data) {
        ReplayRoundTrip(data);
      }
    }
  }
}
