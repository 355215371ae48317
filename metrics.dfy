/** Glyph metrics. A font is known only through the bounding boxes it
    reports, so every property proved with it holds for any font. */
module Metrics {

  /** `draw.textbbox((0, 0), s, font)` / `font.getbbox(s)`: the box
      (left, top, right, bottom) that `s` covers when drawn at the origin. */
  datatype BBox = BBox(left: int, top: int, right: int, bottom: int)

  /** A loaded font at one size: what it measures for every string. */
  type Font = string -> BBox

  /** A typeface file: the font it gives at every point size
      (`ImageFont.truetype(path, size)`). */
  type Typeface = int -> Font

  /** Measured width, `bbox[2] - bbox[0]`. */
  function Width(font: Font, s: string): int {
    font(s).right - font(s).left
  }

  /** Measured height, `bbox[3] - bbox[1]`. */
  function Height(font: Font, s: string): int {
    font(s).bottom - font(s).top
  }

  /** The line height of a headline font: the height of "A", measured once
      and shared by every line. */
  function LineHeight(font: Font): int {
    Height(font, "A")
  }

  //---------------------------------------------------------------------------
  // The metric arithmetic as the source spells it
  //---------------------------------------------------------------------------

  /** Line 42 as written, `bbox_A[3] - bbox_A[3]`. */
  function LineHeightAsWritten(font: Font): int {
    font("A").bottom - font("A").bottom
  }

  /** The few Python values the measuring lines combine. */
  datatype PyValue = PyInt(n: int) | PyTuple(items: seq<int>)

  datatype PyError = TypeError

  datatype Result<T> = Ok(value: T) | Err(error: PyError)

  /** Python's binary `-` on these values: defined on two ints, a TypeError
      when either operand is a tuple. */
  function PySub(a: PyValue, b: PyValue): (r: Result<int>)
    ensures r.Ok? <==> a.PyInt? && b.PyInt?
    ensures r.Ok? ==> r.value + b.n == a.n
  {
    if a.PyInt? && b.PyInt? then Ok(a.n - b.n) else Err(TypeError)
  }

  function AsTuple(b: BBox): PyValue {
    PyTuple([b.left, b.top, b.right, b.bottom])
  }

  /** Lines 10, 50, 57 and 64 as written, `bbox[2] - bbox`. */
  function WidthAsWritten(b: BBox): Result<int> {
    PySub(PyInt(b.right), AsTuple(b))
  }

  /** Line 65 as written, `brand_bbox - brand_bbox[3]`. */
  function HeightAsWritten(b: BBox): Result<int> {
    PySub(AsTuple(b), PyInt(b.bottom))
  }

  /** As written, every width and brand-height measurement raises TypeError,
      whatever the box. */
  lemma AsWrittenMeasuresRaise(b: BBox)
    ensures WidthAsWritten(b) == Err(TypeError)
    ensures HeightAsWritten(b) == Err(TypeError)
  {
  }

  /** As written, the line height is zero for every font, while the intended
      one is the height of "A": a font whose "A" spans rows 10 to 70 shows
      the difference. */
  lemma LineHeightAsWrittenIsZero(font: Font)
    ensures LineHeightAsWritten(font) == 0
    ensures font("A") == BBox(0, 10, 40, 70) ==> LineHeight(font) == 60
  {
  }
}
