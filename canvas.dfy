/** The drawing surface. Pixels are not modelled: the canvas keeps the log of
    drawing calls made on it, in order, which is what decides what ends up
    on top. */
module Draw {

  /** An RGBA colour, each channel 0..255. */
  datatype Color = Rgba(r: int, g: int, b: int, a: int)

  const Black := Rgba(0, 0, 0, 255)
  const White := Rgba(255, 255, 255, 255)
  const Red := Rgba(255, 0, 0, 255)

  /** The headline band: black at alpha 190. */
  const BandFill := Rgba(0, 0, 0, 190)

  /** One drawing call: `draw.rectangle([(x0, y0), (x1, y1)], fill=...)` or
      `draw.text((x, y), text, font=..., fill=...)`, where the font is named
      by its point size (all fonts come from one typeface). */
  datatype DrawOp =
    | FillRect(x0: int, y0: int, x1: int, y1: int, fill: Color)
    | DrawText(x: int, y: int, text: string, size: int, fill: Color)

  /** The image being composed and the drawing context on it. */
  class Canvas {
    const width: int
    const height: int
    var ops: seq<DrawOp>

    /** A background resized to `width` x `height`, with nothing drawn on it
        yet. */
    constructor (width: int, height: int)
      ensures this.width == width && this.height == height
      ensures ops == []
    {
      this.width := width;
      this.height := height;
      ops := [];
    }

    method Rectangle(x0: int, y0: int, x1: int, y1: int, fill: Color)
      modifies this
      ensures ops == old(ops) + [FillRect(x0, y0, x1, y1, fill)]
    {
      ops := ops + [FillRect(x0, y0, x1, y1, fill)];
    }

    method Text(x: int, y: int, text: string, size: int, fill: Color)
      modifies this
      ensures ops == old(ops) + [DrawText(x, y, text, size, fill)]
    {
      ops := ops + [DrawText(x, y, text, size, fill)];
    }
  }
}
