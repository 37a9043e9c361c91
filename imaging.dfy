/** Images as the core sees them: a size plus either the draw commands that
    made it or the fact that it was decoded from a backend's reply. PIL's
    in-place drawing surface (Image.new plus ImageDraw.Draw) is the class
    Canvas. Pixels, fonts and rasterisation are not modelled. */
module Imaging {

  datatype Rgb = Rgb(r: int, g: int, b: int)

  /** ImageDraw.rectangle([x0, y0, x1, y1], fill) and ImageDraw.text((x, y), s, fill). */
  datatype DrawCmd =
    | Rect(x0: int, y0: int, x1: int, y1: int, fill: Rgb)
    | Text(x: int, y: int, text: string, fill: Rgb)

  /** Drawn: a canvas filled with `background`, then `cmds` in order.
      Decoded: pixels a backend returned at their native size. */
  datatype Body =
    | Drawn(background: Rgb, cmds: seq<DrawCmd>)
    | Decoded(origin: string, nativeWidth: int, nativeHeight: int)

  datatype Picture = Picture(width: int, height: int, body: Body)

  /** img.resize((w, h)): new size, same content resampled. */
  function Resize(p: Picture, w: int, h: int): Picture {
    Picture(w, h, p.body)
  }

  /** The picture after one more draw command on a drawn canvas. */
  function Overlay(p: Picture, c: DrawCmd): Picture
    requires p.body.Drawn?
  {
    Picture(p.width, p.height, Drawn(p.body.background, p.body.cmds + [c]))
  }

  /** A PIL RGB image with an ImageDraw attached; drawing appends commands. */
  class Canvas {
    var width: int
    var height: int
    var background: Rgb
    var cmds: seq<DrawCmd>

    /** Image.new('RGB', (w, h), background) */
    constructor (w: int, h: int, bg: Rgb)
      ensures width == w && height == h && background == bg && cmds == []
    {
      width, height, background, cmds := w, h, bg, [];
    }

    method Rectangle(x0: int, y0: int, x1: int, y1: int, fill: Rgb)
      modifies this
      ensures width == old(width) && height == old(height) && background == old(background)
      ensures cmds == old(cmds) + [Rect(x0, y0, x1, y1, fill)]
    {
      cmds := cmds + [Rect(x0, y0, x1, y1, fill)];
    }

    method DrawText(x: int, y: int, s: string, fill: Rgb)
      modifies this
      ensures width == old(width) && height == old(height) && background == old(background)
      ensures cmds == old(cmds) + [Text(x, y, s, fill)]
    {
      cmds := cmds + [Text(x, y, s, fill)];
    }

    /** The image as a value, as handed to the caller. */
    function Snapshot(): Picture
      reads this
    {
      Picture(width, height, Drawn(background, cmds))
    }
  }
}
