/**
 * What the exporter reads from a top-level layer of the host document.
 * Pixel data is not part of the record: it is reached only through the
 * texture encoder handed to the writer.
 */
module Layers {

  /** A layer's integer pixel bounds, as `bounds()` reports them. */
  datatype Rect = Rect(x: int, y: int, width: int, height: int)

  datatype Layer = Layer(
    name: string,
    bounds: Rect,
    opacity: int,         // 0..255 in the host
    blendMode: string,    // the host's blending-mode identifier
    colorModel: string,
    colorDepth: string,
    colorProfile: string)
}
