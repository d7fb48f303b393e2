/**
 * A 2D canvas that records what is drawn on it, and a PDF document that records its pages.
 * Pixels and PDF bytes are not modelled: a canvas is its log of draw operations, each
 * carrying the style that was current when it was issued, and a page is the list of images
 * placed on it.
 */
module Drawing {

  datatype DrawOp =
    | FillRect(fill: string, x: int, y: int, w: int, h: int)
    | StrokeRect(stroke: string, x: int, y: int, w: int, h: int)
    | FillText(fill: string, font: string, text: string, x: int, y: int)
    | DrawImage(src: string, x: int, y: int, w: int, h: int)

  const DefaultWidth := 300
  const DefaultHeight := 150
  const DefaultColour := "#000000"
  const DefaultFont := "10px sans-serif"

  class Canvas {
    var width: int
    var height: int
    var fillStyle: string
    var strokeStyle: string
    var font: string
    var ops: seq<DrawOp>

    /** A fresh `<canvas>` element with its context in the default state. */
    constructor ()
      ensures width == DefaultWidth && height == DefaultHeight
      ensures fillStyle == DefaultColour && strokeStyle == DefaultColour && font == DefaultFont
      ensures ops == []
    {
      width := DefaultWidth;
      height := DefaultHeight;
      fillStyle := DefaultColour;
      strokeStyle := DefaultColour;
      font := DefaultFont;
      ops := [];
    }

    /** Setting `width` and `height` clears the bitmap and resets the context state. */
    method SetSize(w: int, h: int)
      modifies this
      ensures width == w && height == h
      ensures fillStyle == DefaultColour && strokeStyle == DefaultColour && font == DefaultFont
      ensures ops == []
    {
      width, height := w, h;
      fillStyle, strokeStyle, font := DefaultColour, DefaultColour, DefaultFont;
      ops := [];
    }

    method SetFillStyle(s: string)
      modifies this
      ensures fillStyle == s
      ensures width == old(width) && height == old(height) && strokeStyle == old(strokeStyle)
      ensures font == old(font) && ops == old(ops)
    {
      fillStyle := s;
    }

    method SetStrokeStyle(s: string)
      modifies this
      ensures strokeStyle == s
      ensures width == old(width) && height == old(height) && fillStyle == old(fillStyle)
      ensures font == old(font) && ops == old(ops)
    {
      strokeStyle := s;
    }

    method SetFont(f: string)
      modifies this
      ensures font == f
      ensures width == old(width) && height == old(height) && fillStyle == old(fillStyle)
      ensures strokeStyle == old(strokeStyle) && ops == old(ops)
    {
      font := f;
    }

    method FillRect(x: int, y: int, w: int, h: int)
      modifies this
      ensures ops == old(ops) + [DrawOp.FillRect(fillStyle, x, y, w, h)]
      ensures width == old(width) && height == old(height) && fillStyle == old(fillStyle)
      ensures strokeStyle == old(strokeStyle) && font == old(font)
    {
      ops := ops + [DrawOp.FillRect(fillStyle, x, y, w, h)];
    }

    method StrokeRect(x: int, y: int, w: int, h: int)
      modifies this
      ensures ops == old(ops) + [DrawOp.StrokeRect(strokeStyle, x, y, w, h)]
      ensures width == old(width) && height == old(height) && fillStyle == old(fillStyle)
      ensures strokeStyle == old(strokeStyle) && font == old(font)
    {
      ops := ops + [DrawOp.StrokeRect(strokeStyle, x, y, w, h)];
    }

    method FillText(text: string, x: int, y: int)
      modifies this
      ensures ops == old(ops) + [DrawOp.FillText(fillStyle, font, text, x, y)]
      ensures width == old(width) && height == old(height) && fillStyle == old(fillStyle)
      ensures strokeStyle == old(strokeStyle) && font == old(font)
    {
      ops := ops + [DrawOp.FillText(fillStyle, font, text, x, y)];
    }

    /** Draws a loaded image, identified by the `src` it was loaded from. */
    method DrawImage(src: string, x: int, y: int, w: int, h: int)
      modifies this
      ensures ops == old(ops) + [DrawOp.DrawImage(src, x, y, w, h)]
      ensures width == old(width) && height == old(height) && fillStyle == old(fillStyle)
      ensures strokeStyle == old(strokeStyle) && font == old(font)
    {
      ops := ops + [DrawOp.DrawImage(src, x, y, w, h)];
    }
  }

  /**
   * An image placed on a PDF page (always at 0,0 and 85.6 x 54 mm): a JPEG snapshot of a
   * canvas, or an image given by URL.
   */
  datatype PdfImage = CanvasJpeg(ops: seq<DrawOp>) | UrlImage(url: string)

  /** What `doc.output('blob')` returns: the document's pages. */
  datatype PdfBlob = PdfBlob(pages: seq<seq<PdfImage>>)

  /** A jsPDF document. It always has at least one page; images go on the last page. */
  class PdfDoc {
    var pages: seq<seq<PdfImage>>

    predicate Valid()
      reads this
    {
      |pages| >= 1
    }

    /** A new document has one blank page. */
    constructor ()
      ensures pages == [[]] && Valid()
    {
      pages := [[]];
    }

    method AddPage()
      requires Valid()
      modifies this
      ensures pages == old(pages) + [[]] && Valid()
    {
      pages := pages + [[]];
    }

    method AddImage(img: PdfImage)
      requires Valid()
      modifies this
      ensures pages == old(pages)[..|old(pages)| - 1] + [old(pages)[|old(pages)| - 1] + [img]]
      ensures Valid()
    {
      pages := pages[..|pages| - 1] + [pages[|pages| - 1] + [img]];
    }

    method Output() returns (blob: PdfBlob)
      ensures blob == PdfBlob(pages)
    {
      blob := PdfBlob(pages);
    }
  }
}
