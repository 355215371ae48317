# Headline layout engine of the post generator

This project models the text-layout and composition engine that turns a
headline ("fact") and a brand name into a 1080 x 1080 social-media post.
The engine lives in `src/routes/content.py`, which has two parts:

- `wrap_text` (lines 1-18) breaks the headline into lines greedily, one
  word at a time. Each trial line is measured with the font. A line is
  closed when the next word would make it wider than the limit. The first
  word of a line is always taken, even when it does not fit on its own.
- `create_insta_post_img` (lines 39-69) lays the post out and draws it:
  - a translucent band sized to the number of lines;
  - a red "VIRAL" tag;
  - each headline line, centred and drawn with a drop shadow;
  - the brand name, centred near the bottom and also shadowed.

The model is in five modules:

- `Words` (`words.dfy`) covers Python's `str.split()`, `str.strip()` and
  `' '.join`, with CPython's whitespace set.
- `Metrics` (`metrics.dfy`) covers fonts. A font is a function from a string
  to the bounding box it measures, and a typeface is a function from a point
  size to a font. Everything proved therefore holds for every font. The
  file also models the source's bounding-box arithmetic exactly as written
  (see Findings).
- `TextWrap` (`wrap.dfy`):
  - `WrapText` is the outer loop of `wrap_text`. `GrowLine` is its inner
    loop, which grows one line.
  - Both are imperative methods, proved against the specification function
    `Wrap`. `Wrap` splits the text into words, groups them with `LineEnd`,
    and joins each group.
  - `GreedyBreak` defines greedy breaking independently of the algorithm.
    The model proves that the computed grouping satisfies it
    (`GroupsAreGreedy`), and that it is the only grouping that does
    (`GreedyIsGroups`).
- `Draw` (`canvas.dfy`) holds the drawing surface. Pixels are not modelled.
  A `Canvas` object keeps the log of the `draw.rectangle` and `draw.text`
  calls made on it, in order.
- `Post` (`post.dfy`):
  - `CreatePost` is `create_insta_post_img`: it upper-cases the inputs,
    wraps the headline, and calls `Compose`.
  - `Compose` draws the band and the tag, then calls `DrawHeadline` (the
    `for line in fact_lines` loop) and `TextWithShadow` (the pair of
    `draw.text` calls for shadowed text).
  - Their contracts tie the canvas log to the function `PostOps`. The lemmas
    state the layout, the drawing order and the geometry in terms of
    `PostOps`.

Widths and heights are the measured ones, `right - left` and
`bottom - top`. The line height is the height of "A". The source's own
arithmetic differs in both places; see Findings.

## Model

| member | source | states |
|---|---|---|
| Words.Split | src/routes/content.py:2 | `text.split()`: at most as many words as characters; what the words are is stated by SplitWords, SplitBlank, SplitWord, SplitAtSpace and SplitJoin |
| Words.TokenLength | src/routes/content.py:2 | the leading run of non-whitespace: no whitespace before its end, and whitespace (or the end of the string) right after it |
| Words.SplitWords | src/routes/content.py:2 | every piece `text.split()` yields is non-empty and contains no whitespace |
| Words.SplitBlank | src/routes/content.py:2-4 | `text.split()` is empty exactly when the text is empty or whitespace only (both directions) |
| Words.SplitWord | src/routes/content.py:2 | splitting a single word yields that word |
| Words.SplitAtSpace | src/routes/content.py:2 | a whitespace character separates: the words of `a + c + b` are the words of `a` followed by those of `b` |
| Words.SplitJoin | src/routes/content.py:8 | round trip: splitting words joined by single spaces gives back the same words |
| Words.StripLeft | src/routes/content.py:8 | `lstrip()` removes exactly a whitespace prefix, and the result does not start with whitespace |
| Words.StripRight | src/routes/content.py:8 | `rstrip()` removes exactly a whitespace suffix, and the result does not end with whitespace |
| Words.Strip | src/routes/content.py:8 | the result of `strip()` neither starts nor ends with whitespace |
| Words.StripUnchanged | src/routes/content.py:8 | `strip()` leaves unchanged a string that neither starts nor ends with whitespace |
| Words.JoinEdges | src/routes/content.py:8 | joining one or more words gives a non-empty line with no whitespace at either edge |
| Words.Join | src/routes/content.py:8 | the line built from words with single spaces (`' '.join`); no contract of its own, its properties are stated by SplitJoin, JoinEdges and JoinSnoc |
| Words.JoinSnoc | src/routes/content.py:8 | the trial `line + ' ' + word` is the join of the line's words with that word added |
| Metrics.Width | src/routes/content.py:57 | the intended width `bbox[2] - bbox[0]`; no contract of its own, used by every width bound and centring lemma |
| Metrics.Height | src/routes/content.py:65 | the intended height `bbox[3] - bbox[1]`; no contract of its own, used by PostOpsLayout and BrandBoxBottom |
| Metrics.LineHeight | src/routes/content.py:41-42 | the intended line height, the height of "A"; no contract of its own, see LineHeightAsWrittenIsZero and IntendedLinesApart |
| Metrics.LineHeightAsWritten | src/routes/content.py:42 | `bbox_A[3] - bbox_A[3]` as written; no contract of its own, LineHeightAsWrittenIsZero proves it is 0 |
| Metrics.WidthAsWritten | src/routes/content.py:57 | `bbox[2] - bbox` as written (also lines 10, 50 and 64); no contract of its own, AsWrittenMeasuresRaise proves it raises |
| Metrics.HeightAsWritten | src/routes/content.py:65 | `brand_bbox - brand_bbox[3]` as written; no contract of its own, AsWrittenMeasuresRaise proves it raises |
| Metrics.PySub | src/routes/content.py:57 | Python `-` succeeds exactly on two ints, and gives their difference |
| Metrics.AsWrittenMeasuresRaise | src/routes/content.py:64-65 | as written, `bbox[2] - bbox` and `brand_bbox - brand_bbox[3]` raise TypeError for every box (the width expression also appears at lines 10, 50 and 57) |
| Metrics.LineHeightAsWrittenIsZero | src/routes/content.py:41-42 | as written, the line height is 0 for every font; for a font whose "A" box spans rows 10 to 70, the intended line height is 60 |
| TextWrap.Groups | src/routes/content.py:4-17 | the words of each line the outer loop emits; no contract of its own, characterised by GroupsAreGreedy and GreedyIsGroups |
| TextWrap.Wrap | src/routes/content.py:1-18 | the lines `wrap_text` returns, as a function; no contract of its own, WrapText is proved equal to it and the Wrap lemmas state its properties |
| TextWrap.LineEnd | src/routes/content.py:7-15 | where a line that holds the words before index `i` stops: an index from `i` to the number of words |
| TextWrap.GrowLine | src/routes/content.py:5-15 | the inner loop returns the join of the words it took, and it takes exactly the `LineEnd` words |
| TextWrap.TestLineGrows | src/routes/content.py:8-10 | the trial line is the join of the first `i + 1` words, and the width measured on it is that join's width |
| TextWrap.JoinGrows | src/routes/content.py:8 | `(line + ' ' + word).strip()` on a non-empty joined line is the join of the words with `word` added |
| TextWrap.FirstGroup | src/routes/content.py:16-17 | the line emitted is the first group, and the remaining `words[i:]` are still words |
| TextWrap.WrapText | src/routes/content.py:1-18 | `wrap_text` returns exactly `Wrap(font, maxWidth, text)`, the greedy grouping of `text.split()`, joined line by line |
| TextWrap.LineEndProperties | src/routes/content.py:7-15 | a line grown from a fitting start fits at every step, and is closed by a word that does not fit unless it reaches the end |
| TextWrap.LineEndUnique | src/routes/content.py:7-15 | a line that fits as it grows and stops where the next word would not fit ends exactly at `LineEnd` (both directions, with LineEndProperties) |
| TextWrap.FirstLine | src/routes/content.py:5-15 | the first computed line fits at every step, and was closed by a word that does not fit unless it took every word |
| TextWrap.GreedyCons | src/routes/content.py:4-17 | a fitting line, closed by the next line's first word, placed before a greedy breaking gives a greedy breaking |
| TextWrap.GroupsAreGreedy | src/routes/content.py:2-17 | the computed grouping is a greedy breaking. The groups concatenate to exactly the words. Each group is non-empty and fits as it grows. Each group but the last is too wide with the next group's first word added |
| TextWrap.GreedyIsGroups | src/routes/content.py:2-17 | any greedy breaking of the words is the computed grouping, so greedy breaking is unique |
| TextWrap.GroupsOfWords | src/routes/content.py:2-17 | every group is a non-empty sequence of words |
| TextWrap.GroupsCount | src/routes/content.py:4-17 | there are no more groups than words, so each pass takes at least one word |
| TextWrap.WrapLineWords | src/routes/content.py:2-17 | each output line, read back with `split()`, holds exactly the words its group took |
| TextWrap.WrapKeepsWords | src/routes/content.py:2-17 | the words of the output lines, in order, are exactly `text.split()`: none dropped, repeated or reordered |
| TextWrap.WrapLinesNonEmpty | src/routes/content.py:4-17 | every output line is non-empty with no whitespace at either edge, and there are at most as many lines as words |
| TextWrap.WrapWidthBound | src/routes/content.py:8-14 | an output line of two or more words is no wider than `max_width`; only a single word may exceed it |
| TextWrap.WrapMaximal | src/routes/content.py:11-12 | every line but the last would be wider than `max_width` with the next line's first word added |
| TextWrap.WrapBlank | src/routes/content.py:2-4 | the output is empty exactly when the text is empty or whitespace only (both directions) |
| Draw.Canvas.constructor | src/routes/content.py:23-24 | a surface of the given size (1080 x 1080 here) with nothing drawn on it yet |
| Draw.Canvas.Rectangle | src/routes/content.py:46 | `draw.rectangle` appends one filled rectangle to the log and changes nothing else |
| Draw.Canvas.Text | src/routes/content.py:51 | `draw.text` appends one text call to the log and changes nothing else |
| Post.CenterX | src/routes/content.py:66 | `(1080 - w) // 2` leaves margins on the left and right that differ by at most one pixel, with the right one never smaller |
| Post.BandBottom | src/routes/content.py:43-45 | `band_y1`; no contract of its own, see BandGeometry and LinesInsideBand |
| Post.LineTop | src/routes/content.py:54-60 | the top of line `k` after `k` passes of `top += line_height`; no contract of its own, see LineTopsMonotone |
| Post.BrandY | src/routes/content.py:67 | `by`, the brand's draw position; no contract of its own, BrandBoxBottom states where the brand's box ends |
| Post.HeadlineOps | src/routes/content.py:55-60 | the headline loop makes two calls per line |
| Post.MaxTextWidthValue | src/routes/content.py:39 | `int(1080 * 0.92)` is 993 |
| Post.TextWithShadow | src/routes/content.py:58-59 | a shadowed text appends the black copy at `(x + 2, y + 2)` and then the white copy at `(x, y)` |
| Post.DrawHeadline | src/routes/content.py:54-60 | the headline loop appends exactly `HeadlineOps`: each line centred on its width, with its top at `48 + k * line_height` |
| Post.Compose | src/routes/content.py:41-69 | the drawing part of the function appends exactly `PostOps` to the canvas: band, tag, headline lines, then brand |
| Post.CreatePost | src/routes/content.py:30-69 | the canvas is fresh and 1080 x 1080, and holds exactly `PostOps` for the upper-cased headline wrapped to 993 pixels with the headline font, and the upper-cased brand |
| Post.HeadlineOpsAt | src/routes/content.py:55-60 | headline call `2k` is line `k`'s shadow and call `2k + 1` its primary, both centred on that line's width, with its top at `48 + k * line_height` |
| Post.PostOpsWith | src/routes/content.py:43-69 | every call the function makes, for a given line height; no contract of its own, laid out by PostOpsWithLayout |
| Post.PostOps | src/routes/content.py:41-69 | the same with the height of "A"; no contract of its own, laid out by PostOpsLayout |
| Post.PostOpsAsWritten | src/routes/content.py:42-69 | the same with line 42 as written and the width subtractions of lines 10, 50 and 57, and the brand measurements of lines 64 and 65, repaired; no contract of its own, see AsWrittenLinesCoincide |
| Post.PostOpsWithLayout | src/routes/content.py:43-69 | the post makes `2n + 4` calls. First the band, spanning x 0..1080 and y 24 to `24 + line_height * n + 48`. Then the red tag, centred at y 8. Then each line `k`, shadow then primary, at `((1080 - w_k) // 2, 48 + k * line_height)`. Last the brand, shadow then primary, drawn at `((1080 - brand_w) // 2, 1080 - brand_h - 40)` |
| Post.PostOpsLayout | src/routes/content.py:41-69 | the same layout, with the height of "A" as the line height |
| Post.ShadowThenPrimary | src/routes/content.py:58-69 | every white text is drawn right after its black shadow, 2 pixels right and down. Every black text is immediately followed by the white text it shadows |
| Post.TagOnce | src/routes/content.py:49-51 | exactly one call is red: the tag, drawn second |
| Post.BandGeometry | src/routes/content.py:43-46 | the band is `line_height * n + 48` tall. It is exactly 48 with no lines, and at least 48 when the line height is not negative. It fits on the canvas exactly when `line_height * n <= 1008` |
| Post.LineTopsMonotone | src/routes/content.py:54-60 | line tops start at 48 and are `line_height` apart per line. They never decrease for a non-negative line height, and they are strictly separated for a positive one |
| Post.LinesInsideBand | src/routes/content.py:43-60 | with a non-negative line height, each line's slot, from its top to its top plus one line height, lies inside the band, 24 pixels from each edge |
| Post.LineBoxesInBand | src/routes/content.py:41-60 | the "A" box of the last line ends `24 - top_A` above the band's bottom, and that of the first line starts `24 + top_A` below the band's top, where `top_A` is the first row of the "A" box |
| Post.BrandBoxBottom | src/routes/content.py:63-67 | the brand's box, drawn at `1080 - h - 40`, ends at row `1040 + top`, so it ends 40 pixels above the bottom edge exactly when the box starts at row 0 |
| Post.LinesCentred | src/routes/content.py:50-66 | every headline line, the tag and the brand is centred: its left and right margins differ by at most one pixel |
| Post.BlankHeadline | src/routes/content.py:40-46 | a blank headline gives four calls, with a band 48 pixels tall |
| Post.AsWrittenLinesCoincide | src/routes/content.py:41-60 | with line 42 as written and the width subtractions of lines 10, 50 and 57, and the brand measurements of lines 64 and 65, repaired, the band is 48 pixels tall whatever the line count, and every line is drawn with its top at 48 |
| Post.IntendedLinesApart | src/routes/content.py:41-60 | with the height of "A" as the line height (60 in this example), the second line's top is at 108, where line 42 as written (with the widths and the brand measurements repaired) puts it at 48 |
| Post.HeadlineTextsAreLines | src/routes/content.py:55-59 | the texts of the white headline calls, in order, are the wrapped lines |
| Post.PostShowsHeadlineWords | src/routes/content.py:40-59 | the words of the drawn headline texts, read back with `split()`, are exactly the headline's words in order |

## Left out

- Image loading, `convert("RGBA")`, `resize((1080, 1080))` and rasterisation (lines 23-24) are left out: pixels are not modelled. The canvas keeps only the ordered log of drawing calls, and the order decides what lands on top.
- The background path is not modelled, because the background never affects the layout.
- TrueType loading and the font-path fallback (lines 26-32) are not modelled. The fonts are the values of a `typeface` parameter at the three point sizes.
- A drawing call records its font by point size only, because all three fonts come from one typeface.
- `draw.textbbox((0, 0), s, font=f)` and `f.getbbox(s)` are both modelled as the font's box for `s`.
- Measuring takes no drawing context, so the `draw` argument of `wrap_text` is not modelled.
- `str(...).upper()` (lines 34-35) is the parameter `upper`, because Unicode case mapping is out of reach. Inputs are taken to be strings already.
- PNG encoding, base64 and the `data:` URL (lines 71-74) are left out, because they serialise opaque library bytes.
- The float `1080 * 0.92` (line 39) is replaced by the integer `1080 * 92 / 100`, which is 993, as `int()` truncates it.
- `text_x` and `text_y` are not modelled, because the function never uses them.
- There is no overflow check. The system's design calls for clamping the band, or reporting an overflow, when the band is taller than the canvas; the code does neither. The model follows the code: `BandGeometry` states when the band fits, and nothing enforces it.
- The tag has no shadow. The system's design draws every text element, the tag included, shadow first; the code draws the tag once, in red (line 51), and the model follows the code.
- There are no font-load, image-decode or composition errors in the code beyond what the libraries raise, so the model has no such error paths.
- The model draws with the measured widths and the height of "A", not with the source's arithmetic, which raises or gives zero (see Findings). The as-written subtractions are modelled separately in `Metrics`. `Post.PostOpsAsWritten` combines line 42 as written with the width subtractions of lines 10, 50 and 57, and the brand measurements of lines 64 and 65, repaired: as written those raise before any headline line or the brand is drawn.
- Colours are given as RGBA values. The names "red", "black" and "white" become (255,0,0,255), (0,0,0,255) and (255,255,255,255).
- `src/routes/content_simple.py` and `src/routes/content_minimal.py` are not part of this model. They hold the web routes, the language-model call, random sample selection and configuration tables, and no layout logic.

## Findings

| source | as written | input that shows it | evidently intended | confidence | as-written member | corrected member |
|---|---|---|---|---|---|---|
| src/routes/content.py:42 | `line_height = bbox_A[3] - bbox_A[3]`, which is always 0 | once the width subtractions of lines 10, 50 and 57 and the brand measurements of lines 64 and 65 are repaired (as written they raise first), any headline of two or more lines on a font whose "A" box is (0, 10, 40, 70): both lines are drawn with their top at 48, one over the other, and the band is 48 pixels tall | `bbox_A[3] - bbox_A[1]`, the height of "A" (60 here), so the second line's top is at 108 | not executed | Post.AsWrittenLinesCoincide | Post.IntendedLinesApart |
| src/routes/content.py:57 | `w = bbox[2] - bbox` subtracts a tuple from an int (the same at lines 10, 50 and 64) | every call raises TypeError: inside `wrap_text` at line 10 when the headline is not blank, otherwise at line 50 after the band is drawn; no headline line or brand is ever drawn | `bbox[2] - bbox[0]`, the measured width, which centres every line | not executed | Metrics.AsWrittenMeasuresRaise | Post.LinesCentred |
| src/routes/content.py:65 | `brand_h = brand_bbox - brand_bbox[3]` subtracts an int from a tuple | any brand name: TypeError | `brand_bbox[3] - brand_bbox[1]`, the measured height, which puts the brand's draw position `h + 40` above the bottom edge | not executed | Metrics.AsWrittenMeasuresRaise | Post.PostOpsLayout |
