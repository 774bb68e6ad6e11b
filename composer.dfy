/**
 * The code image composer (`showqrcode` without its one DOM write): a 320 by 320 canvas,
 * the QR matrix of the payload drawn by the encoder, the logo drawn over its centre, and the
 * canvas exported as a PNG data URL.  The encoder and the image loader are foreign code;
 * their success or failure is an input.
 */
module Composer {

  import opened Wrappers
  import opened PayConfig

  const CanvasSize: nat := 320
  const QrMargin: nat := 1
  const LogoSize: nat := 44
  const LogoOffset: nat := 138

  datatype ErrorCorrection = Low | Medium | Quartile | High

  /**
   * What has been drawn on the canvas.  A `QrMatrix` is the opaque token the encoder leaves,
   * recording the options it was called with.
   */
  datatype Layer =
    | QrMatrix(payload: string, width: nat, margin: nat, level: ErrorCorrection)
    | Logo(src: string, x: int, y: int, w: int, h: int)

  /** A canvas: its size, its image-smoothing flag and its layers in drawing order. */
  datatype Canvas = Canvas(width: nat, height: nat, smoothing: bool, layers: seq<Layer>)

  /** The value of an element's `src` or `href`: a plain URL, or a canvas exported as PNG. */
  datatype Href = Link(url: string) | PngData(image: Canvas)

  /** A logo layer sits in the middle of the canvas and does not leave it. */
  predicate Centered(c: Canvas, l: Layer) {
    l.Logo? ==>
      && 2 * l.x + l.w == c.width && 2 * l.y + l.h == c.height
      && 0 <= l.x && l.x + l.w <= c.width && 0 <= l.y && l.y + l.h <= c.height
  }

  /** True when a logo is configured and its image loaded and was drawn. */
  predicate LogoDrawn(qrlogo: Option<string>, logoOk: bool) {
    Truthy(qrlogo) && logoOk
  }

  /**
   * The canvas `showqrcode` exports.  An encoder failure is caught and logged and leaves the
   * canvas blank; a logo that fails to load is caught and leaves the code unbranded; the
   * load is not even attempted when no logo is configured.
   */
  function Compose(url: string, qrlogo: Option<string>, encodeOk: bool, logoOk: bool): (c: Canvas)
    ensures c.width == CanvasSize && c.height == CanvasSize && !c.smoothing
    ensures |c.layers| == (if encodeOk then 1 else 0) + (if LogoDrawn(qrlogo, logoOk) then 1 else 0)
    ensures encodeOk <==> |c.layers| > 0 && c.layers[0] == QrMatrix(url, CanvasSize, QrMargin, High)
    ensures LogoDrawn(qrlogo, logoOk) <==> |c.layers| > 0 && c.layers[|c.layers| - 1].Logo?
    ensures LogoDrawn(qrlogo, logoOk) ==>
      c.layers[|c.layers| - 1] == Logo(qrlogo.value, LogoOffset, LogoOffset, LogoSize, LogoSize)
    ensures forall i :: 0 <= i < |c.layers| ==> Centered(c, c.layers[i])
  {
    var code := if encodeOk then [QrMatrix(url, CanvasSize, QrMargin, High)] else [];
    var logo := if LogoDrawn(qrlogo, logoOk)
      then [Logo(qrlogo.value, LogoOffset, LogoOffset, LogoSize, LogoSize)] else [];
    Canvas(CanvasSize, CanvasSize, false, code + logo)
  }

  /** A logo that fails to load gives the same image as no logo at all. */
  lemma LogoFailureIsNoLogo(url: string, logo: string, encodeOk: bool, logoOk: bool)
    ensures Compose(url, Some(logo), encodeOk, false) == Compose(url, None, encodeOk, logoOk)
  {
  }

  /** Without a configured logo the image is the bare code, whatever the loader would do. */
  lemma NoLogoConfigured(url: string, encodeOk: bool, logoOk: bool)
    ensures Compose(url, None, encodeOk, logoOk).layers ==
      if encodeOk then [QrMatrix(url, CanvasSize, QrMargin, High)] else []
  {
  }

}
