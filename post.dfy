/** `create_insta_post_img`: the layout of the headline band, the tag, the
    headline lines and the brand mark on a 1080 x 1080 canvas, and the order
    in which they are drawn. */
module Post {
  import opened Words
  import opened Metrics
  import opened TextWrap
  import opened Draw

  const CanvasSize := 1080

  /** `int(1080 * 0.92)`: 92% of the canvas width, truncated. */
  const MaxTextWidth := CanvasSize * 92 / 100

  const BandTop := 24
  /** What the band adds to the lines' height: 24 above, 24 below. */
  const BandPadding := 48
  const HeadlineTop := BandTop + 24
  const TagY := 8
  const TagText := "VIRAL"
  const BrandMargin := 40
  const ShadowOffset := 2

  //---------------------------------------------------------------------------
  // Geometry
  //---------------------------------------------------------------------------

  /** `(1080 - w) // 2`: the left edge that centres a width `w`. The margins
      left and right of it differ by at most one pixel, and that determines
      the result. (Dafny's `/` by a positive divisor rounds down, like
      Python's `//`.) */
  function CenterX(w: int): (x: int)
    ensures 0 <= (CanvasSize - x - w) - x <= 1
  {
    (CanvasSize - w) / 2
  }

  function BandBottom(lineHeight: int, lineCount: nat): int {
    BandTop + lineHeight * lineCount + BandPadding
  }

  /** The top of headline line `k`. */
  function LineTop(lineHeight: int, k: nat): int {
    HeadlineTop + k * lineHeight
  }

  /** Where the brand is drawn: its measured height plus `BrandMargin` above
      the bottom edge. The box it covers there is offset by the box's own
      top (see `BrandBoxBottom`). */
  function BrandY(brandHeight: int): int {
    CanvasSize - brandHeight - BrandMargin
  }

  //---------------------------------------------------------------------------
  // The drawing calls
  //---------------------------------------------------------------------------

  function ShadowOp(x: int, y: int, s: string, size: int): DrawOp {
    DrawText(x + ShadowOffset, y + ShadowOffset, s, size, Black)
  }

  function PrimaryOp(x: int, y: int, s: string, size: int): DrawOp {
    DrawText(x, y, s, size, White)
  }

  /** Text with a drop shadow: the dark copy first, then the light one. */
  function Shadowed(x: int, y: int, s: string, size: int): seq<DrawOp> {
    [ShadowOp(x, y, s, size), PrimaryOp(x, y, s, size)]
  }

  /** The calls the headline loop makes: each line centred on its own
      measured width, one line height below the previous one. */
  function HeadlineOps(lines: seq<string>, font: Font, lineHeight: int, size: int): (ops: seq<DrawOp>)
    ensures |ops| == 2 * |lines|
    decreases |lines|
  {
    if lines == [] then []
    else
      var k := |lines| - 1;
      HeadlineOps(lines[..k], font, lineHeight, size)
        + Shadowed(CenterX(Width(font, lines[k])), LineTop(lineHeight, k), lines[k], size)
  }

  /** Everything drawn for one post, given the headline's line height. */
  function PostOpsWith(lines: seq<string>, brand: string, typeface: Typeface, textSize: int,
                       brandSize: int, lineHeight: int): seq<DrawOp>
  {
    var factFont, viralFont, brandFont := typeface(textSize), typeface(textSize / 2), typeface(brandSize);
    [ FillRect(0, BandTop, CanvasSize, BandBottom(lineHeight, |lines|), BandFill),
      DrawText(CenterX(Width(viralFont, TagText)), TagY, TagText, textSize / 2, Red) ]
    + HeadlineOps(lines, factFont, lineHeight, textSize)
    + Shadowed(CenterX(Width(brandFont, brand)), BrandY(Height(brandFont, brand)), brand, brandSize)
  }

  /** Everything drawn for one post, with the line height of "A". */
  function PostOps(lines: seq<string>, brand: string, typeface: Typeface, textSize: int, brandSize: int): seq<DrawOp> {
    PostOpsWith(lines, brand, typeface, textSize, brandSize, LineHeight(typeface(textSize)))
  }

  /** The same, with the line height that line 42 computes as written; the
      widths and the brand's height are still the measured ones, not the
      raising subtractions of lines 10, 50 and 57 and the brand
      measurements of lines 64 and 65. */
  function PostOpsAsWritten(lines: seq<string>, brand: string, typeface: Typeface, textSize: int, brandSize: int): seq<DrawOp> {
    PostOpsWith(lines, brand, typeface, textSize, brandSize, LineHeightAsWritten(typeface(textSize)))
  }

  //---------------------------------------------------------------------------
  // Composition
  //---------------------------------------------------------------------------

  /** `create_insta_post_img`: upper-cases the headline and the brand, wraps
      the headline to 92% of the canvas width with the headline font, and
      composes the post on a fresh canvas. `upper` is `str.upper`; the tag
      font is the headline size halved. */
  method CreatePost(fact: string, brandName: string, upper: string -> string, typeface: Typeface,
                    textSize: int := 84, brandSize: int := 36)
    returns (canvas: Canvas)
    ensures fresh(canvas) && canvas.width == CanvasSize && canvas.height == CanvasSize
    ensures canvas.ops == PostOps(Wrap(typeface(textSize), MaxTextWidth, upper(fact)), upper(brandName),
                                  typeface, textSize, brandSize)
  {
    canvas := new Canvas(CanvasSize, CanvasSize);
    var headline := upper(fact);
    var brand := upper(brandName);
    var factLines := WrapText(headline, typeface(textSize), MaxTextWidth);
    Compose(canvas, factLines, brand, typeface, textSize, brandSize);
  }

  /** The drawing part of `create_insta_post_img`, once the headline is
      wrapped: the band sized to the lines, the tag, the headline lines, and
      the brand at the bottom with its shadow. */
  method Compose(canvas: Canvas, factLines: seq<string>, brand: string, typeface: Typeface,
                 textSize: int, brandSize: int)
    modifies canvas
    ensures canvas.ops == old(canvas.ops) + PostOps(factLines, brand, typeface, textSize, brandSize)
  {
    var factFont := typeface(textSize);
    var brandFont := typeface(brandSize);
    var viralFont := typeface(textSize / 2);
    ghost var start := canvas.ops;

    var lineHeight := LineHeight(factFont);
    var bandHeight := lineHeight * |factLines| + BandPadding;
    var bandY0 := BandTop;
    var bandY1 := bandY0 + bandHeight;
    canvas.Rectangle(0, bandY0, CanvasSize, bandY1, BandFill);

    var viralW := Width(viralFont, TagText);
    canvas.Text((CanvasSize - viralW) / 2, TagY, TagText, textSize / 2, Red);

    DrawHeadline(canvas, factLines, factFont, lineHeight, textSize);

    var brandW := Width(brandFont, brand);
    var brandH := Height(brandFont, brand);
    var brandX := (CanvasSize - brandW) / 2;
    var brandY := CanvasSize - brandH - BrandMargin;
    TextWithShadow(canvas, brandX, brandY, brand, brandSize);
    Assemble(start, FillRect(0, BandTop, CanvasSize, BandBottom(lineHeight, |factLines|), BandFill),
             DrawText(CenterX(viralW), TagY, TagText, textSize / 2, Red),
             HeadlineOps(factLines, factFont, lineHeight, textSize),
             Shadowed(CenterX(brandW), BrandY(brandH), brand, brandSize), canvas.ops);
  }

  /** The headline loop: each line centred on its measured width, drawn
      with its shadow, `lineHeight` below the one before. */
  method DrawHeadline(canvas: Canvas, factLines: seq<string>, factFont: Font, lineHeight: int, textSize: int)
    modifies canvas
    ensures canvas.ops == old(canvas.ops) + HeadlineOps(factLines, factFont, lineHeight, textSize)
  {
    ghost var before := canvas.ops;
    var top := BandTop + 24;
    for k := 0 to |factLines|
      invariant top == LineTop(lineHeight, k)
      invariant canvas.ops == before + HeadlineOps(factLines[..k], factFont, lineHeight, textSize)
    {
      var line := factLines[k];
      var w := Width(factFont, line);
      TextWithShadow(canvas, (CanvasSize - w) / 2, top, line, textSize);
      HeadlineOpsSnoc(factLines, factFont, lineHeight, textSize, k);
      top := top + lineHeight;
      assert (k + 1) * lineHeight == k * lineHeight + lineHeight;
    }
    assert factLines[..|factLines|] == factLines;
  }

  /** The two `draw.text` calls for shadowed text: black at `(x + 2, y + 2)`,
      then white at `(x, y)` over it. */
  method TextWithShadow(canvas: Canvas, x: int, y: int, s: string, size: int)
    modifies canvas
    ensures canvas.ops == old(canvas.ops) + Shadowed(x, y, s, size)
  {
    canvas.Text(x + ShadowOffset, y + ShadowOffset, s, size, Black);
    canvas.Text(x, y, s, size, White);
  }

  /** One more pass of the headline loop adds the shadow and the primary of
      the next line. */
  lemma HeadlineOpsSnoc(lines: seq<string>, font: Font, lineHeight: int, size: int, k: nat)
    requires k < |lines|
    ensures HeadlineOps(lines[..k + 1], font, lineHeight, size)
         == HeadlineOps(lines[..k], font, lineHeight, size)
            + Shadowed(CenterX(Width(font, lines[k])), LineTop(lineHeight, k), lines[k], size)
  {
    assert lines[..k + 1][..k] == lines[..k];
  }

  /** The calls made one at a time are the whole post's calls after the
      ones already on the canvas. */
  lemma Assemble(start: seq<DrawOp>, band: DrawOp, tag: DrawOp, headline: seq<DrawOp>,
                 brandOps: seq<DrawOp>, ops: seq<DrawOp>)
    requires ops == start + [band] + [tag] + headline + brandOps
    ensures ops == start + ([band, tag] + headline + brandOps)
  {
  }

  //---------------------------------------------------------------------------
  // What the layout guarantees
  //---------------------------------------------------------------------------

  /** The 92% limit is 993 pixels. */
  lemma MaxTextWidthValue()
    ensures MaxTextWidth == 993
  {
  }

  /** The calls for headline line `k`: its shadow, then its primary. */
  lemma {:induction false} HeadlineOpsAt(lines: seq<string>, font: Font, lineHeight: int, size: int, k: nat)
    requires k < |lines|
    ensures var ops := HeadlineOps(lines, font, lineHeight, size);
      var x, y := CenterX(Width(font, lines[k])), LineTop(lineHeight, k);
      && ops[2 * k] == ShadowOp(x, y, lines[k], size)
      && ops[2 * k + 1] == PrimaryOp(x, y, lines[k], size)
    decreases |lines|
  {
    var n := |lines| - 1;
    if k < n {
      HeadlineOpsAt(lines[..n], font, lineHeight, size, k);
      assert lines[..n][k] == lines[k];
    }
  }

  /** Headline line `k` is drawn at the two positions after the band and
      the tag: the black shadow 2 pixels right of and below the white
      primary, which is centred on the line's width with its top at
      `48 + k * lineHeight`. */
  ghost predicate LineDrawnAt(ops: seq<DrawOp>, lines: seq<string>, font: Font, lineHeight: int,
                              size: int, k: nat)
    requires k < |lines| && 2 * k + 3 < |ops|
  {
    var x, y := (1080 - Width(font, lines[k])) / 2, 48 + k * lineHeight;
    && ops[2 * k + 2] == DrawText(x + 2, y + 2, lines[k], size, Black)
    && ops[2 * k + 3] == DrawText(x, y, lines[k], size, White)
  }

  /** The layout of a post: the band from y = 24 to 24 + lineHeight * n + 48
      across the whole width, the red tag centred at y = 8, then each of the
      `n` lines in order, and last the brand centred and drawn at its
      measured height plus 40 above the canvas bottom, shadow first. */
  lemma PostOpsWithLayout(lines: seq<string>, brand: string, typeface: Typeface, textSize: int,
                          brandSize: int, lineHeight: int)
    ensures var ops := PostOpsWith(lines, brand, typeface, textSize, brandSize, lineHeight);
      var n := |lines|;
      var tagFont, brandFont := typeface(textSize / 2), typeface(brandSize);
      var brandX, brandY := (1080 - Width(brandFont, brand)) / 2, 1080 - Height(brandFont, brand) - 40;
      && |ops| == 2 * n + 4
      && ops[0] == FillRect(0, 24, 1080, 24 + lineHeight * n + 48, BandFill)
      && ops[1] == DrawText((1080 - Width(tagFont, "VIRAL")) / 2, 8, "VIRAL", textSize / 2, Red)
      && (forall k :: 0 <= k < n ==> LineDrawnAt(ops, lines, typeface(textSize), lineHeight, textSize, k))
      && ops[2 * n + 2] == DrawText(brandX + 2, brandY + 2, brand, brandSize, Black)
      && ops[2 * n + 3] == DrawText(brandX, brandY, brand, brandSize, White)
  {
    var ops := PostOpsWith(lines, brand, typeface, textSize, brandSize, lineHeight);
    var font := typeface(textSize);
    var head := HeadlineOps(lines, font, lineHeight, textSize);
    var n := |lines|;
    forall k | 0 <= k < n ensures LineDrawnAt(ops, lines, font, lineHeight, textSize, k) {
      HeadlineOpsAt(lines, font, lineHeight, textSize, k);
      assert ops[2 * k + 2] == head[2 * k];
      assert ops[2 * k + 3] == head[2 * k + 1];
    }
  }

  /** The same layout with the line height of "A". */
  lemma PostOpsLayout(lines: seq<string>, brand: string, typeface: Typeface, textSize: int, brandSize: int)
    ensures var ops := PostOps(lines, brand, typeface, textSize, brandSize);
      var n, lh := |lines|, LineHeight(typeface(textSize));
      var brandFont := typeface(brandSize);
      var brandX, brandY := (1080 - Width(brandFont, brand)) / 2, 1080 - Height(brandFont, brand) - 40;
      && |ops| == 2 * n + 4
      && ops[0] == FillRect(0, 24, 1080, 24 + lh * n + 48, BandFill)
      && ops[1] == DrawText((1080 - Width(typeface(textSize / 2), "VIRAL")) / 2, 8, "VIRAL", textSize / 2, Red)
      && (forall k :: 0 <= k < n ==> LineDrawnAt(ops, lines, typeface(textSize), lh, textSize, k))
      && ops[2 * n + 2] == DrawText(brandX + 2, brandY + 2, brand, brandSize, Black)
      && ops[2 * n + 3] == DrawText(brandX, brandY, brand, brandSize, White)
  {
    PostOpsWithLayout(lines, brand, typeface, textSize, brandSize, LineHeight(typeface(textSize)));
  }

  //---------------------------------------------------------------------------
  // Drawing order
  //---------------------------------------------------------------------------

  predicate IsPrimary(op: DrawOp) {
    op.DrawText? && op.fill == White
  }

  predicate IsShadow(op: DrawOp) {
    op.DrawText? && op.fill == Black
  }

  /** `s` is the drop shadow of `p`: the same text at the same size, two
      pixels right and down, in black. */
  predicate ShadowOf(s: DrawOp, p: DrawOp) {
    p.DrawText? && s == DrawText(p.x + 2, p.y + 2, p.text, p.size, Black)
  }

  /** A white text at `i` is drawn right after its own shadow. */
  predicate PrimaryAfterShadow(ops: seq<DrawOp>, i: nat)
    requires i < |ops|
  {
    IsPrimary(ops[i]) ==> 0 < i && ShadowOf(ops[i - 1], ops[i])
  }

  /** A black text at `i` is immediately covered by the white text it
      shadows. */
  predicate ShadowBeforePrimary(ops: seq<DrawOp>, i: nat)
    requires i < |ops|
  {
    IsShadow(ops[i]) ==> i + 1 < |ops| && IsPrimary(ops[i + 1]) && ShadowOf(ops[i], ops[i + 1])
  }

  /** Every white text is drawn right after its black shadow, and every
      black text is a shadow immediately followed by its white text: the
      light copy always lands on top. */
  lemma ShadowThenPrimary(lines: seq<string>, brand: string, typeface: Typeface, textSize: int,
                          brandSize: int, lineHeight: int)
    ensures var ops := PostOpsWith(lines, brand, typeface, textSize, brandSize, lineHeight);
      forall i :: 0 <= i < |ops| ==> PrimaryAfterShadow(ops, i) && ShadowBeforePrimary(ops, i)
  {
    var ops := PostOpsWith(lines, brand, typeface, textSize, brandSize, lineHeight);
    var n := |lines|;
    PostOpsWithLayout(lines, brand, typeface, textSize, brandSize, lineHeight);
    forall i | 0 <= i < |ops| ensures PrimaryAfterShadow(ops, i) && ShadowBeforePrimary(ops, i) {
      if 2 <= i < 2 * n + 2 {
        var k := (i - 2) / 2;
        assert LineDrawnAt(ops, lines, typeface(textSize), lineHeight, textSize, k);
        assert i == 2 * k + 2 || i == 2 * k + 3;
      }
    }
  }

  /** The red tag is drawn exactly once, second, right after the band. */
  lemma TagOnce(lines: seq<string>, brand: string, typeface: Typeface, textSize: int,
                brandSize: int, lineHeight: int)
    ensures var ops := PostOpsWith(lines, brand, typeface, textSize, brandSize, lineHeight);
      forall i :: 0 <= i < |ops| ==> (ops[i].fill == Red <==> i == 1)
  {
    var ops := PostOpsWith(lines, brand, typeface, textSize, brandSize, lineHeight);
    var n := |lines|;
    PostOpsWithLayout(lines, brand, typeface, textSize, brandSize, lineHeight);
    forall i | 0 <= i < |ops| ensures ops[i].fill == Red <==> i == 1 {
      if 2 <= i < 2 * n + 2 {
        var k := (i - 2) / 2;
        assert LineDrawnAt(ops, lines, typeface(textSize), lineHeight, textSize, k);
        assert i == 2 * k + 2 || i == 2 * k + 3;
      }
    }
  }

  //---------------------------------------------------------------------------
  // Geometry
  //---------------------------------------------------------------------------

  /** The band is `lineHeight * n + 48` tall: exactly 48 with no lines, and
      never less than 48 when the line height is not negative. It fits on
      the canvas exactly when the lines take at most 1008 pixels. */
  lemma BandGeometry(lineHeight: int, n: nat)
    ensures BandBottom(lineHeight, n) - BandTop == lineHeight * n + 48
    ensures n == 0 ==> BandBottom(lineHeight, n) - BandTop == 48
    ensures lineHeight >= 0 ==> BandBottom(lineHeight, n) - BandTop >= 48
    ensures BandBottom(lineHeight, n) <= CanvasSize <==> lineHeight * n <= 1008
  {
    if lineHeight >= 0 {
      assert lineHeight * n >= 0;
    }
  }

  /** Line tops start at 48 and advance by the line height: with a line
      height that is not negative they never go up, and with a positive one
      consecutive lines are exactly one line height apart and never share a
      top. */
  lemma {:induction false} LineTopsMonotone(lineHeight: int, k: nat, m: nat)
    requires k <= m
    ensures LineTop(lineHeight, 0) == 48
    ensures LineTop(lineHeight, m) - LineTop(lineHeight, k) == (m - k) * lineHeight
    ensures lineHeight >= 0 ==> LineTop(lineHeight, k) <= LineTop(lineHeight, m)
    ensures lineHeight > 0 && k < m ==> LineTop(lineHeight, k) + lineHeight <= LineTop(lineHeight, m)
    decreases m - k
  {
    if k < m {
      LineTopsMonotone(lineHeight, k + 1, m);
      assert (m - k) * lineHeight == (m - (k + 1)) * lineHeight + lineHeight;
    }
  }

  /** Each line's slot, from its top to its top plus one line height, lies
      inside the band, 24 pixels from each edge of the band. */
  lemma LinesInsideBand(lineHeight: int, n: nat, k: nat)
    requires k < n && lineHeight >= 0
    ensures BandTop + 24 <= LineTop(lineHeight, k)
    ensures LineTop(lineHeight, k) + lineHeight + 24 <= BandBottom(lineHeight, n)
  {
    LineTopsMonotone(lineHeight, k, n);
    assert LineTop(lineHeight, n) == BandBottom(lineHeight, n) - 24;
    LineTopsMonotone(lineHeight, 0, k);
  }

  /** Every headline line, the tag and the brand is centred: its margins to
      the left and right canvas edges differ by at most one pixel. */
  lemma LinesCentred(lines: seq<string>, brand: string, typeface: Typeface, textSize: int,
                     brandSize: int, lineHeight: int)
    ensures var ops := PostOpsWith(lines, brand, typeface, textSize, brandSize, lineHeight);
      var n := |lines|;
      && |ops| == 2 * n + 4
      && (forall k :: 0 <= k < n ==>
            ops[2 * k + 3].DrawText? &&
            var x := ops[2 * k + 3].x;
            0 <= (1080 - x - Width(typeface(textSize), lines[k])) - x <= 1)
      && ops[1].DrawText? && ops[2 * n + 3].DrawText?
      && 0 <= (1080 - ops[1].x - Width(typeface(textSize / 2), "VIRAL")) - ops[1].x <= 1
      && 0 <= (1080 - ops[2 * n + 3].x - Width(typeface(brandSize), brand)) - ops[2 * n + 3].x <= 1
  {
    var ops := PostOpsWith(lines, brand, typeface, textSize, brandSize, lineHeight);
    PostOpsWithLayout(lines, brand, typeface, textSize, brandSize, lineHeight);
    forall k | 0 <= k < |lines|
      ensures ops[2 * k + 3].DrawText? && var x := ops[2 * k + 3].x; 0 <= (1080 - x - Width(typeface(textSize), lines[k])) - x <= 1
    {
      assert LineDrawnAt(ops, lines, typeface(textSize), lineHeight, textSize, k);
      var w := Width(typeface(textSize), lines[k]);
      assert ops[2 * k + 3].x == CenterX(w);
    }
    assert ops[1].x == CenterX(Width(typeface(textSize / 2), "VIRAL"));
    assert ops[2 * |lines| + 3].x == CenterX(Width(typeface(brandSize), brand));
  }

  /** An empty or whitespace-only headline draws only the band, 48 pixels
      tall, the tag and the brand. */
  lemma BlankHeadline(fact: string, brand: string, typeface: Typeface, textSize: int, brandSize: int)
    requires Blank(fact)
    ensures var ops := PostOps(Wrap(typeface(textSize), MaxTextWidth, fact), brand, typeface, textSize, brandSize);
      |ops| == 4 && ops[0] == FillRect(0, 24, 1080, 72, BandFill)
  {
    WrapBlank(typeface(textSize), MaxTextWidth, fact);
    PostOpsLayout([], brand, typeface, textSize, brandSize);
  }

  /** With line 42 as written and the width subtractions of lines 10, 50
      and 57, and the brand measurements of lines 64 and 65, repaired, the
      band is 48 pixels tall whatever the number of lines and every line is
      drawn with its top at 48, on top of the others. */
  lemma AsWrittenLinesCoincide(lines: seq<string>, brand: string, typeface: Typeface, textSize: int,
                               brandSize: int)
    ensures var ops := PostOpsAsWritten(lines, brand, typeface, textSize, brandSize);
      && |ops| == 2 * |lines| + 4
      && ops[0] == FillRect(0, 24, 1080, 72, BandFill)
      && forall k :: 0 <= k < |lines| ==> ops[2 * k + 3].DrawText? && ops[2 * k + 3].y == 48
  {
    var ops := PostOpsAsWritten(lines, brand, typeface, textSize, brandSize);
    var font := typeface(textSize);
    LineHeightAsWrittenIsZero(font);
    PostOpsWithLayout(lines, brand, typeface, textSize, brandSize, 0);
    forall k | 0 <= k < |lines| ensures ops[2 * k + 3].DrawText? && ops[2 * k + 3].y == 48 {
      assert LineDrawnAt(ops, lines, font, 0, textSize, k);
    }
  }

  /** With the height of "A" as the line height, two lines are drawn one
      line height apart: on a font whose "A" is 60 pixels tall the second
      line's top is at 108, where line 42 as written (with the widths and
      the brand measurements repaired) puts it at 48. */
  lemma IntendedLinesApart(lines: seq<string>, brand: string, typeface: Typeface, textSize: int,
                           brandSize: int)
    requires |lines| >= 2 && typeface(textSize)("A") == BBox(0, 10, 40, 70)
    ensures var ops := PostOps(lines, brand, typeface, textSize, brandSize);
      |ops| > 5 && ops[5].DrawText? && ops[5].y == 108
    ensures var ops := PostOpsAsWritten(lines, brand, typeface, textSize, brandSize);
      |ops| > 5 && ops[5].DrawText? && ops[5].y == 48
  {
    var font := typeface(textSize);
    LineHeightAsWrittenIsZero(font);
    PostOpsLayout(lines, brand, typeface, textSize, brandSize);
    assert LineDrawnAt(PostOps(lines, brand, typeface, textSize, brandSize), lines, font, 60, textSize, 1);
    AsWrittenLinesCoincide(lines, brand, typeface, textSize, brandSize);
  }

  /** The texts of the first `n` white headline calls, in drawing order. */
  function HeadlineTexts(ops: seq<DrawOp>, n: nat): seq<string>
    requires 2 * n + 2 <= |ops|
  {
    if n == 0 then []
    else
      var op := ops[2 * n + 1];
      HeadlineTexts(ops, n - 1) + [if op.DrawText? then op.text else ""]
  }

  lemma {:induction false} HeadlineTextsAreLines(lines: seq<string>, brand: string, typeface: Typeface,
                                                 textSize: int, brandSize: int, n: nat)
    requires n <= |lines|
    ensures var ops := PostOps(lines, brand, typeface, textSize, brandSize);
      2 * n + 2 <= |ops| && HeadlineTexts(ops, n) == lines[..n]
  {
    var ops := PostOps(lines, brand, typeface, textSize, brandSize);
    PostOpsLayout(lines, brand, typeface, textSize, brandSize);
    if n > 0 {
      HeadlineTextsAreLines(lines, brand, typeface, textSize, brandSize, n - 1);
      assert LineDrawnAt(ops, lines, typeface(textSize), LineHeight(typeface(textSize)), textSize, n - 1);
      assert lines[..n] == lines[..n - 1] + [lines[n - 1]];
    }
  }

  /** What a post shows of its headline: the texts of the white headline
      calls, read back with `split()`, are the headline's words in order,
      none dropped or repeated. */
  lemma PostShowsHeadlineWords(headline: string, brand: string, typeface: Typeface, textSize: int,
                               brandSize: int)
    ensures var lines := Wrap(typeface(textSize), MaxTextWidth, headline);
      var ops := PostOps(lines, brand, typeface, textSize, brandSize);
      2 * |lines| + 2 <= |ops|
      && Flatten(SplitAll(HeadlineTexts(ops, |lines|))) == Split(headline)
  {
    var lines := Wrap(typeface(textSize), MaxTextWidth, headline);
    HeadlineTextsAreLines(lines, brand, typeface, textSize, brandSize, |lines|);
    assert lines[..|lines|] == lines;
    WrapKeepsWords(typeface(textSize), MaxTextWidth, headline);
  }

  /** Where the measured boxes land. A box measured at the origin covers
      rows `y + top .. y + bottom` when drawn at `y`. The brand's box
      therefore ends `40 - top` pixels above the bottom edge, which is 40
      exactly when the box starts at row 0. */
  lemma BrandBoxBottom(font: Font, brand: string)
    ensures BrandY(Height(font, brand)) + font(brand).bottom == 1040 + font(brand).top
    ensures BrandY(Height(font, brand)) + font(brand).bottom == 1040 <==> font(brand).top == 0
  {
  }

  /** The "A" box of the last of `n` lines, drawn at its top, ends
      `24 - top` pixels above the band's bottom edge, where `top` is the
      first row of the "A" box; the first line's box starts `24 + top`
      below the band's top edge. */
  lemma LineBoxesInBand(font: Font, n: nat)
    requires n > 0
    ensures var a, lh := font("A"), LineHeight(font);
      && BandBottom(lh, n) - (LineTop(lh, n - 1) + a.bottom) == 24 - a.top
      && (LineTop(lh, 0) + a.top) - BandTop == 24 + a.top
  {
    var lh := LineHeight(font);
    assert (n - 1) * lh + lh == lh * n;
  }
}
