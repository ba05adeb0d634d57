# isibheqe glyph construction and typesetting, in Dafny

isibheqe writes isiZulu-style syllables as geometric glyphs. A vowel is a triangle: an origin, an
apex and a base corner. Consonant codes add marks to it: lines, arcs and circles placed relative
to that triangle. A typesetting context places glyphs on a canvas and keeps the typed sentence.
The sentence holds vowel glyphs with their marks plus shared space and enter markers, and the
context keeps an undo stack of earlier cursor positions. When a vowel reaches the right edge of
the canvas, the context inserts a line break after the last space and retypes the whole sentence
from its serialized form.

The model has five modules:

- `Geometry` (`geometry.dfy`): the value type `Point` with scale, translate, difference and mid.
- `Glyphs` (`glyphs.dfy`): the letter tables, the frame of a glyph (its orientation, unit and
  local axes), and the class `Glyph`. A `Glyph` keeps its corners, margin, stored primitives and
  codes, and its methods update them in place. Each consonant mark is described once, as a
  *recipe* (`Recipe`): the sequence of `addLine`/`addArc`/`addCircle` calls the source makes,
  with every point written in terms of the frame. `Drawing` is the list of primitives that a
  frame, an outline and a list of codes explain. `Glyph.Valid()` says that the stored primitives
  are exactly that list.
- `Factory` (`factory.dfy`): the class `GlyphFactory`, which builds each vowel's triangle on a
  common baseline.
- `Typesetting` (`typesetting.dfy`): the class `Context`. It has the cursor, the undo stack, the
  sentence and the canvas size, and the methods addLetter, undo, serialize and deserialize,
  with reset and the line-break reflow.
- `Options` (`options.dfy`): an `Option` type.

The serialized sentence is a sequence of `Element` values: a bare string, or a vowel with its
consonant codes. A pure specification says what the sentence becomes after each key: `Step`
for one key and `ReplayFrom` for a key sequence. `PlaceVowel`, `AttachConsonant`,
`PlaceSpace`, `PlaceEnter`, `TypeVowel`, `TypeOther` and `AddLetter` are proved to take exactly
one `Step` when no reflow follows, and `TypeCodes`, `TypeElement` and `Deserialize` to take the
`ReplayFrom` of their keys. `Undo`, `BreakLine`, `Reflow` and `Reset` are proved against the
serialized sentence directly: undo drops its last element, a line break splices a newline into
it, and reset empties it. `ReplayRoundTrip` proves that typing the keys of any well-formed
serialized sentence rebuilds exactly that sentence. `Deserialize` uses it to show that
deserialize(serialize()) gives back the same sentence when no reflow happens.

Where the code behaves unexpectedly, the model follows the code:

- **Undo can leave no cursor.** Undo pops the undo stack even when it is empty, so the cursor
  becomes undefined. The next addLetter then raises before changing anything; this is the
  `Threw` outcome.
- **A line with no space breaks at the front.** When the line has no space marker,
  `lastIndexOf` gives -1. The `index != 0` guard lets that through, so the enter marker goes in
  at the very front of the sentence. Only a space that is the first item suppresses the break.
- **A reflow can grow the canvas.** Reset leaves the canvas height alone, so every reflow may
  add more lines to it.
- **A consonant can go to a detached vowel.** Undo keeps the current vowel. A consonant typed
  after an undo still goes to that vowel even though the vowel has left the sentence; the
  sentence does not change.
- **No syllabic consonants.** addLetter's syllabic-consonant branch tests membership in
  `SYLLABIC_CONSONANTS`, which neither core file defines. In the source, any key that is not a
  vowel raises a ReferenceError at that test. The model treats the list as empty, so
  consonant codes, space and enter reach their own branches as the code evidently intends.

## Model

| member | source | states |
|---|---|---|
| Geometry.Point.Scale | lib/isibheqe-glyphs.js:11-13 | scaling by 1 is the identity and scaling by 0 gives the zero point |
| Geometry.Point.Translate | lib/isibheqe-glyphs.js:15-17 | difference undoes translation: translating by p and taking the difference from p gives the point back |
| Geometry.Point.Difference | lib/isibheqe-glyphs.js:19-21 | the difference is zero exactly when the two points coincide |
| Geometry.Point.Mid | lib/isibheqe-glyphs.js:23-25 | the mid point is as far from one end as the other end is from it |
| Geometry.Along | lib/isibheqe-glyphs.js:11-21 | the point a fraction t of the way from a to b is a at t = 0 and b at t = 1 |
| Geometry.MidCommutes | lib/isibheqe-glyphs.js:23-25 | mid is symmetric |
| Geometry.MidIdempotent | lib/isibheqe-glyphs.js:23-25 | the mid point of a point with itself is that point |
| Geometry.MidIsHalfway | lib/isibheqe-glyphs.js:23-25 | mid is the point half way along |
| Geometry.MidTranslates | lib/isibheqe-glyphs.js:15-25 | mid commutes with translating both points |
| Geometry.DifferenceTranslates | lib/isibheqe-glyphs.js:15-21 | a difference is unchanged when both points are translated by the same offset |
| Glyphs.MarkOfChar | lib/isibheqe-glyphs.js:165-382 | the one-character consonant code a mark is found for is that mark's code |
| Glyphs.MarkOfPair | lib/isibheqe-glyphs.js:165-382 | the two-character consonant code a mark is found for is that mark's code |
| Glyphs.MarkOf | lib/isibheqe-glyphs.js:165-382 | a code maps to a mark only if it is that mark's code; any other code selects no case of the switch |
| Glyphs.MarkOfCode | lib/isibheqe-glyphs.js:165-382 | every mark is found again from its own code |
| Glyphs.MarkListed | lib/isibheqe-glyphs.js:385 | every mark's code is listed in CONSONANTS |
| Glyphs.MarkOfListed | lib/isibheqe-glyphs.js:385 | a code has a case in addConsonant exactly when it is listed in CONSONANTS (both directions) |
| Glyphs.VowelsAreNotConsonants | lib/isibheqe-glyphs.js:451 | no vowel letter is a consonant code, so addLetter's vowel and consonant branches never compete |
| Glyphs.OrientationOf | lib/isibheqe-glyphs.js:32-73 | the frame is vertical exactly when base and origin share x; a vertical frame points right exactly when the apex lies right of the origin; a horizontal one points up exactly when the apex lies above it |
| Glyphs.UnitOf | lib/isibheqe-glyphs.js:33-74 | the unit is never negative and BASE units span the base edge (the absolute value of the constructor's ratio) |
| Glyphs.Orientation.Zero | lib/isibheqe-glyphs.js:37-72 | the reference angle lies in [0, 2 PI) and is 0 or PI exactly for vertical frames |
| Glyphs.OffsetInvolution | lib/isibheqe-glyphs.js:39-71 | each orientation's move offset, applied twice, is the identity |
| Glyphs.OffsetAxes | lib/isibheqe-glyphs.js:39-71 | a vertical layout's move swaps the two axes and a horizontal one keeps them; either may reverse a direction, but no length along an axis changes |
| Glyphs.MoveVector | lib/isibheqe-glyphs.js:137-141 | move shifts a point by the offset mapped onto screen axes, and moving b by vector(a, b) lands on a |
| Glyphs.Frame.MidBase | lib/isibheqe-glyphs.js:143-145 | the middle of the base edge lies as far from the origin as from the base corner |
| Glyphs.MoveTranslates | lib/isibheqe-glyphs.js:39-71 | a letter-relative move commutes with translating its starting point |
| Glyphs.VectorTranslates | lib/isibheqe-glyphs.js:137-141 | vector is unchanged by translating both points and the frame |
| Glyphs.MoveAlong | lib/isibheqe-glyphs.js:137-141 | move(a, vector(b, a).scale(t)) is the point a fraction t of the way from a to b, in every orientation |
| Glyphs.ZeroAngles | lib/isibheqe-glyphs.js:37-72 | distinct orientations have distinct reference angles |
| Glyphs.TranslateAll | lib/isibheqe-glyphs.js:147-161 | translating the stored primitives keeps their number and order and shifts each one |
| Glyphs.Shapes | lib/isibheqe-glyphs.js:80-90 | each stored primitive is classified as a line, an arc or a full circle, one for one |
| Glyphs.TranslateAllAppend | lib/isibheqe-glyphs.js:147-161 | translating a concatenation translates each part |
| Glyphs.ShapesAppend | lib/isibheqe-glyphs.js:80-90 | the kinds of a concatenation are the kinds of each part |
| Glyphs.TranslateAllZero | lib/isibheqe-glyphs.js:147-161 | translating by the zero offset changes nothing |
| Glyphs.TranslateAllInverse | lib/isibheqe-glyphs.js:147-161 | translating by p and then by -p restores the primitives |
| Glyphs.ShapesTranslate | lib/isibheqe-glyphs.js:147-161 | translation never changes what kind a primitive is |
| Glyphs.RenderAll | lib/isibheqe-glyphs.js:163-383 | a recipe draws one primitive per call, in call order |
| Glyphs.DrawingSnoc | lib/isibheqe-glyphs.js:163-383 | adding a code appends exactly that mark's primitives after everything drawn before |
| Glyphs.OutlineEdges | lib/isibheqe-glyphs.js:126-135 | the open outline is origin to apex and apex to base, the solid one adds the base edge, nothing is drawn for a blank outline, and every edge joins two corners of the frame |
| Glyphs.DrawingStartsWithOutline | lib/isibheqe-glyphs.js:126-135 | whatever marks follow, a glyph's drawing begins with its vowel outline |
| Glyphs.SibilantScale | lib/isibheqe-glyphs.js:221-238 | the postalveolar scale is zero for a zero unit; for any other unit, the scale times radius - (1 + 1/unit) is exactly 1 whenever that divisor is not zero |
| Glyphs.DrawingShapes | lib/isibheqe-glyphs.js:163-383 | adding a code appends exactly the kinds of primitive the mark's table entry lists (none for an unknown code) |
| Glyphs.MarginsIgnoreOrder | lib/isibheqe-glyphs.js:102-117 | top, bottom, kerning and padding depend only on which codes are present, not on their order or repeats |
| Glyphs.TopOf | lib/isibheqe-glyphs.js:102-110 | for a non-negative unit the top margin lies between 0 and the nasal margin of 2 TONE units |
| Glyphs.BottomOf | lib/isibheqe-glyphs.js:112-117 | for a non-negative unit the bottom margin lies between 0 and 6 units |
| Glyphs.KerningOf | lib/isibheqe-glyphs.js:32-61 | a horizontal glyph advances by its base alone; for a non-negative unit any glyph advances by at least BASE and at most BASE + 2 TONE + 6 units |
| Glyphs.PaddingOf | lib/isibheqe-glyphs.js:42-58 | no padding for a horizontal glyph; a vertical one is padded by its top or its bottom margin |
| Glyphs.MarginsFromMarginMarks | lib/isibheqe-glyphs.js:102-117 | a glyph has a top or bottom margin only if one of its codes is a mark that calls setLeft first (f, j or a nasal) |
| Glyphs.HorizontalKerning | lib/isibheqe-glyphs.js:54-61 | marks never widen a horizontal glyph |
| Glyphs.PaddingWithinKerning | lib/isibheqe-glyphs.js:34-61 | for a non-negative unit, the padding is non-negative and, with the base, fits inside the kerning |
| Glyphs.BottomGrows | lib/isibheqe-glyphs.js:112-117 | adding a code never shrinks the bottom margin |
| Glyphs.KerningGrowsWithTop | lib/isibheqe-glyphs.js:34-36 | adding a code that does not shrink the top margin never narrows the glyph's advance |
| Glyphs.TopShrinks | lib/isibheqe-glyphs.js:102-110 | the top margin is not monotone: "f" after "n" narrows a vertical glyph, because the f test comes first |
| Glyphs.Glyph.constructor | lib/isibheqe-glyphs.js:27-78 | stores the corners, decides the orientation and the non-negative unit, starts with no margin, no primitives and no codes, and is valid |
| Glyphs.Glyph.Top | lib/isibheqe-glyphs.js:102-110 | for a non-negative unit the glyph's top margin lies between 0 and 2 TONE units |
| Glyphs.Glyph.Bottom | lib/isibheqe-glyphs.js:112-117 | for a non-negative unit the glyph's bottom margin lies between 0 and 6 units |
| Glyphs.Glyph.Kerning | lib/isibheqe-glyphs.js:32-61 | for a non-negative unit a glyph never advances by less than its base |
| Glyphs.Glyph.Padding | lib/isibheqe-glyphs.js:42-58 | for a non-negative unit the padding is never negative |
| Glyphs.Glyph.AddLine | lib/isibheqe-glyphs.js:80-82 | appends exactly one line |
| Glyphs.Glyph.AddArc | lib/isibheqe-glyphs.js:84-86 | appends exactly one arc |
| Glyphs.Glyph.AddCircle | lib/isibheqe-glyphs.js:88-90 | appends exactly one full-circle arc |
| Glyphs.Glyph.SolidVowel | lib/isibheqe-glyphs.js:126-130 | appends the three triangle edges; a blank glyph becomes valid |
| Glyphs.Glyph.OpenVowel | lib/isibheqe-glyphs.js:132-135 | appends the two upper edges; a blank glyph becomes valid |
| Glyphs.Glyph.Translate | lib/isibheqe-glyphs.js:147-161 | shifts the frame and every stored primitive by p, and keeps the glyph valid |
| Glyphs.Glyph.SetLeft | lib/isibheqe-glyphs.js:119-124 | afterwards the margin equals the padding, and frame and primitives moved sideways by exactly the change of margin; nothing moves when the margin was already right |
| Glyphs.Glyph.AddConsonant | lib/isibheqe-glyphs.js:163-383 | records the code and keeps the glyph valid, so the stored primitives are the outline followed by each mark's recipe; f, j and the nasals first bring the margin to the new padding, every other code leaves it |
| Glyphs.Glyph.AppendShifted | lib/isibheqe-glyphs.js:206-380 | the marks that call setLeft first (f at 206-213, j at 268-276 and the four nasals at 326-380): the margin becomes the padding, the frame moves by the change, and a valid drawing stays valid with the mark added |
| Glyphs.Glyph.AppendMark | lib/isibheqe-glyphs.js:166-205 | a mark drawn where the glyph stands: a valid drawing stays valid with the mark added |
| Glyphs.LocateTranslates | lib/isibheqe-glyphs.js:163-383 | every point of a recipe shifts with the frame |
| Glyphs.BesideTranslates | lib/isibheqe-glyphs.js:171-175 | a move by a fixed number of units shifts with the frame |
| Glyphs.MovedTranslates | lib/isibheqe-glyphs.js:166-170 | a move along a scaled vector shifts with the frame |
| Glyphs.RenderTranslates | lib/isibheqe-glyphs.js:80-90 | a drawn line, arc or circle shifts with the frame; radii and angles stay |
| Glyphs.DrawTranslates | lib/isibheqe-glyphs.js:163-383 | drawing a mark on a shifted frame is the same as shifting its drawing |
| Glyphs.MarkPrimitivesTranslate | lib/isibheqe-glyphs.js:163-383 | the same for any code, including unknown ones |
| Glyphs.DrawingTranslates | lib/isibheqe-glyphs.js:147-161 | a whole glyph drawing moves with its frame, which is why translate and setLeft keep a glyph valid |
| Glyphs.RenderShapes | lib/isibheqe-glyphs.js:80-90 | a rendered line, descending arc or circle is stored as a primitive of the same kind, one for one |
| Glyphs.RecipeShapes | lib/isibheqe-glyphs.js:163-383 | each mark's recipe calls addLine, addArc and addCircle exactly in the order its table entry lists, and every arc it draws sweeps from a larger to a smaller angle, so none is a full circle |
| Glyphs.MarkShapesAgree | lib/isibheqe-glyphs.js:163-383 | the kinds of primitive any code draws are those of its table entry |
| Factory.VowelTriangle | lib/isibheqe-glyphs.js:395-443 | e, o, ɔ and ɛ stand on a vertical base edge and i, a and u on a horizontal one; one corner lies on the left edge and one on the baseline, and for a non-negative unit the whole triangle lies right of the left edge and above the baseline |
| Factory.VowelLayout | lib/isibheqe-glyphs.js:391-443 | i, a and u are built horizontal and e, o, ɔ and ɛ vertical (a zero unit collapses every frame), every frame has the factory's unit in size, and for a positive unit each apex points as the layout table says |
| Factory.VowelApex | lib/isibheqe-glyphs.js:391-443 | every vowel's apex stands HEIGHT units squarely off the middle of its base, in the letter's own axes |
| Factory.GlyphFactory.constructor | lib/isibheqe-glyphs.js:387-389 | keeps the unit |
| Factory.GlyphFactory.NewVowel | lib/isibheqe-glyphs.js:391-449 | sets the baseline TONE + HEIGHT + 2 units below the origin; builds a fresh valid glyph for the letter with the layout's corners, the solid outline for i, a, ɔ and ɛ and the open one otherwise, no codes and a kerning of BASE units |
| Typesetting.Then | lib/isibheqe-rendering.js:97-115 | two calls in a row end with Settled(0), that is without any reflow, only if both do; they run out of fuel if either does, and otherwise raise if either does |
| Typesetting.WithMark | lib/isibheqe-rendering.js:83-89 | a vowel with one more code serializes as a pair whose keys are the old keys followed by the code |
| Typesetting.StepVowel | lib/isibheqe-rendering.js:123-130 | a vowel key appends the vowel, which becomes current |
| Typesetting.StepConsonant | lib/isibheqe-rendering.js:141-146 | a consonant code joins the last element when the current vowel is that element, and changes nothing otherwise |
| Typesetting.StepSpace | lib/isibheqe-rendering.js:147-155 | the space key appends the space marker and detaches |
| Typesetting.StepEnter | lib/isibheqe-rendering.js:156-161 | the enter key appends the enter marker and detaches |
| Typesetting.StepShape | lib/isibheqe-rendering.js:118-162 | one key never touches the elements before the last and appends at most one: a vowel appends itself and attaches, space and enter append one marker and detach, and any other key keeps the count and the attachment, changing nothing while detached |
| Typesetting.ReplayAppend | lib/isibheqe-rendering.js:97-115 | replaying two key sequences one after the other is replaying their concatenation |
| Typesetting.ReplaySnoc | lib/isibheqe-rendering.js:97-115 | replaying one more key is one more step |
| Typesetting.KeysSnoc | lib/isibheqe-rendering.js:97-115 | the keys of one more element are the earlier keys followed by that element's keys |
| Typesetting.KeysPush | lib/isibheqe-rendering.js:97-115 | the same, for an appended element |
| Typesetting.KeysAppend | lib/isibheqe-rendering.js:97-115 | the keys of a concatenation are the concatenated keys |
| Typesetting.MarksReplay | lib/isibheqe-rendering.js:109-114 | consonant codes typed right after a vowel collect on it, in order |
| Typesetting.MarkerKeys | lib/isibheqe-rendering.js:147-161 | the space and enter keys are neither vowels nor consonant codes |
| Typesetting.StrReplay | lib/isibheqe-rendering.js:99-108 | typing a bare vowel or a marker appends it; only a vowel stays current |
| Typesetting.PairReplay | lib/isibheqe-rendering.js:109-114 | typing a vowel and its codes appends the pair |
| Typesetting.ElementReplay | lib/isibheqe-rendering.js:97-115 | typing one well-formed element appends exactly it |
| Typesetting.ReplayRoundTrip | lib/isibheqe-rendering.js:71-116 | typing the keys of any well-formed serialized sentence from an empty context rebuilds exactly that sentence |
| Typesetting.LastSpace | lib/isibheqe-rendering.js:164 | the index of the last space marker, or -1 when there is none: the item there is a space and none comes after it |
| Typesetting.LastSpaceSnoc | lib/isibheqe-rendering.js:164 | appending anything but a space leaves the last space where it was |
| Typesetting.Insert | lib/isibheqe-rendering.js:166 | splice inserts one item at the index and shifts the rest by one |
| Typesetting.GrownHeight | lib/isibheqe-rendering.js:119-121 | the canvas stays as it is or grows by exactly one line height, so with a non-negative line height it never shrinks |
| Typesetting.PrefixKeeps | lib/isibheqe-rendering.js:173-176 | popping items keeps every glyph sound and distinct |
| Typesetting.AppendKeeps | lib/isibheqe-rendering.js:123-161 | pushing a marker or a new sound glyph keeps the sentence sound and distinct, the new glyph only at the end |
| Typesetting.InsertKeeps | lib/isibheqe-rendering.js:166 | inserting the enter marker keeps the sentence sound and distinct |
| Typesetting.ElementsOf | lib/isibheqe-rendering.js:71-92 | serialize writes one element per item |
| Typesetting.ElementOf | lib/isibheqe-rendering.js:71-92 | the serialized form of an item is retyped by exactly the keys that made it: the space or enter key for a marker, the vowel followed by its codes for a glyph |
| Typesetting.AppendElements | lib/isibheqe-rendering.js:71-92 | serializing commutes with appending an item |
| Typesetting.ConcatElements | lib/isibheqe-rendering.js:71-92 | serializing commutes with concatenation |
| Typesetting.SoundElements | lib/isibheqe-rendering.js:71-92 | a sentence of sound glyphs and markers serializes to well-formed elements |
| Typesetting.InsertElements | lib/isibheqe-rendering.js:164-167 | serializing commutes with splicing in an item |
| Typesetting.MarkGlyph | lib/isibheqe-rendering.js:141-146 | adding a listed code keeps the glyph sound, keeps its vowel, and serializes it with the code appended |
| Typesetting.Context.constructor | lib/isibheqe-rendering.js:1-12 | line height, line width and space width follow from the unit; the canvas size is kept; the cursor is at the origin with an empty sentence and undo stack |
| Typesetting.Context.Reset | lib/isibheqe-rendering.js:14-19 | back to the origin with an empty sentence, an empty undo stack and no current vowel; the canvas height is kept |
| Typesetting.Context.Serialize | lib/isibheqe-rendering.js:71-92 | the output is the sentence's serialized form and is well formed |
| Typesetting.Context.GrowCanvas | lib/isibheqe-rendering.js:119-121 | the canvas height after the growth check |
| Typesetting.Context.Advance | lib/isibheqe-rendering.js:124-127 | the cursor advance is zero without a current vowel and at least that vowel's base otherwise |
| Typesetting.Context.Overflows | lib/isibheqe-rendering.js:130-163 | a vowel placed at x overflows exactly when x plus the advance of a freshly built glyph (no codes, any orientation, as `KerningOf` defines it) reaches the canvas width |
| Typesetting.Context.PlaceVowel | lib/isibheqe-rendering.js:123-130 | saves the cursor and moves it past the current vowel (if any); appends a fresh glyph for the vowel and makes it current; its right edge overflows exactly when the old cursor plus the advance plus one base reaches the canvas width; the layout takes the vowel step |
| Typesetting.Context.PassCurrentVowel | lib/isibheqe-rendering.js:124-127 | with a current vowel, the cursor is saved on the undo stack and moves right by that vowel's advance; without one, neither changes |
| Typesetting.Context.AttachConsonant | lib/isibheqe-rendering.js:141-146 | the code joins the current vowel; the layout takes the consonant step |
| Typesetting.Context.MarkLast | lib/isibheqe-rendering.js:141-146 | when the current vowel is the last item, its serialized element gains the code |
| Typesetting.Context.MarkDetached | lib/isibheqe-rendering.js:141-146 | when the current vowel has left the sentence, it gains the code and the sentence stays as it was |
| Typesetting.Context.PlaceSpace | lib/isibheqe-rendering.js:147-155 | saves the cursor, moves it past the current vowel and the space width, appends the space marker and clears the current vowel |
| Typesetting.Context.PlaceEnter | lib/isibheqe-rendering.js:156-161 | saves the cursor, moves it to the start of the next line, appends the enter marker and clears the current vowel |
| Typesetting.Context.Undo | lib/isibheqe-rendering.js:173-176 | drops the last item and the last saved cursor, restoring it; the cursor is undefined when the stack was empty; the serialized sentence loses its last element |
| Typesetting.Context.AddLetter | lib/isibheqe-rendering.js:118-171 | raises exactly when the cursor is undefined, leaving everything unchanged; otherwise the canvas grows as checked; only a vowel can reflow, exactly when it overflows and the last space is not the first item; without a reflow the layout takes exactly one step, the cursor and undo stack move as `CursorStep` says (a vowel after a vowel, space and enter save the cursor; a consonant or unknown key leaves both), a vowel becomes the fresh current glyph with no codes, a consonant joins the current vowel, space and enter clear it, and an unknown key changes nothing; a vowel key never alters the glyph it passes over |
| Typesetting.Context.TypeVowel | lib/isibheqe-rendering.js:123-170 | it reflows exactly when the vowel overflows and the last space is not the first item; without a reflow it appends exactly that vowel as a fresh current glyph with no codes, takes the vowel step, and moves the cursor and undo stack as `CursorStep` says |
| Typesetting.Context.TypeOther | lib/isibheqe-rendering.js:141-162 | a consonant, space, enter or unknown key takes exactly its step; the cursor and undo stack move as `CursorStep` says; a consonant joins the current vowel and leaves the items alone, space and enter append their marker and clear the current vowel, and an unknown key changes neither |
| Typesetting.Context.CursorStep | lib/isibheqe-rendering.js:123-161 | the cursor moves only when the key saves the old position on the undo stack (a vowel after a vowel, space or enter), so undo always returns to where the key found it |
| Typesetting.Context.BreakLine | lib/isibheqe-rendering.js:164-167 | an enter marker goes in right after the last space, and the serialized data is the old serialization with a newline spliced in there, well formed |
| Typesetting.Context.Reflow | lib/isibheqe-rendering.js:163-170 | with fuel it breaks the line and retypes everything; one reflow yields exactly the old sentence with the newline spliced in; with no fuel it changes nothing |
| Typesetting.Context.TypeElement | lib/isibheqe-rendering.js:97-114 | one element is typed as its keys; without a reflow the layout is the replay of those keys |
| Typesetting.Context.TypeCodes | lib/isibheqe-rendering.js:111-113 | the codes are typed in order; without a reflow the layout is their replay |
| Typesetting.Context.TypeNext | lib/isibheqe-rendering.js:111-113 | one more code typed keeps the context valid, and without a reflow extends the replay by that code |
| Typesetting.Context.Deserialize | lib/isibheqe-rendering.js:94-116 | resets and types every element; without a reflow the result is the replay of all keys, and a well-formed input (which serialize always produces) comes back exactly |

## Left out

- render, makeTarget, renderOn and the canvas and DOM drawing calls: they only draw the stored
  primitives, which the model keeps as data.
- JSON.stringify and JSON.parse: serialize and deserialize exchange the `Element` sequence
  itself, not its JSON text.
- The syllabic-consonant branch of addLetter and `newSyllabicConsonant`: neither is part of this
  model, because `SYLLABIC_CONSONANTS` and `newSyllabicConsonant` are defined in neither core
  file. The model treats the list as empty (see above).
- IEEE-754 doubles: coordinates are exact reals. Math.PI and the cosines and sines the marks use
  are the decimal constants of the doubles; rounding is not modelled.
- SibilantScale: a zero divisor (the browser's Infinity) is taken as a zero factor.
- Typesetting.Context.AddLetter: the reflow recursion is bounded by a `fuel` argument, and
  `OutOfFuel` stands for a recursion deeper than that. The source's recursion is unbounded, and it
  never ends whenever breaking after the last space leaves the overflowing line as long as before:
  when the sentence has no space (the enter goes in at the front, every time), when an enter
  already follows the last space (in [a, space, b, enter, c, d, ...] the new enter lands before the
  old one), or when one vowel is wider than the canvas.
- Typesetting.Context.AddLetter: states the sentence after a key only when no reflow happens.
  After a reflow it states only validity and the outcome; `Typesetting.Context.Reflow` states the
  sentence after one reflow.
- Typesetting.Context.TypeVowel: the same limit; the sentence after a reflow is stated only by
  `Typesetting.Context.Reflow`.
- Factory.GlyphFactory.NewVowel: requires a listed vowel. For an unknown letter the source logs a
  message and then fails on the undefined result; that console path is not modelled, and
  addLetter calls newVowel only for listed vowels.
- Glyphs.Glyph.AddConsonant: the primitives are stated through `Valid()`. For a glyph whose
  stored primitives no longer match its frame and codes, only the codes, margin and frame are
  stated.
- Typesetting.Context.Valid: validity of the context does not track whether each glyph's stored
  primitives match its frame; the context states only the glyph's vowel and codes.
- GlyphFactory.punctuation: the source leaves it empty.
- The dynamic-object shape of the source: move, padding and kerning are per-instance closures
  chosen in the constructor. The model chooses by the stored orientation instead.
