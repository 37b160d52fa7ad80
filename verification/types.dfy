/**
 * The data that the image-processing function delivers to the painting canvas:
 * regions to paint, the palette they refer to, and the canvas dimensions.
 */
module PaintTypes {

  datatype Option<+T> = None | Some(value: T)

  /** One paintable region. `isPainted` is an optional field: absent is read as unpainted. */
  datatype Region = Region(id: int, colorNumber: int, path: string, isPainted: Option<bool>)

  /** One palette entry: the number printed in regions, its colour and its display name. */
  datatype Color = Color(number: int, hex: string, name: string)

  datatype Dimensions = Dimensions(width: int, height: int)

  datatype PaintData = PaintData(
    processedImageUrl: Option<string>,
    regions: seq<Region>,
    colors: seq<Color>,
    dimensions: Dimensions)

  /** The truthiness test `region.isPainted`: only a present `true` counts. */
  predicate IsPainted(r: Region) {
    r.isPainted == Some(true)
  }

  /** The region after a successful paint: only its paint flag changes. */
  function MarkPainted(r: Region): (r': Region)
    ensures IsPainted(r')
    ensures r'.id == r.id && r'.colorNumber == r.colorNumber && r'.path == r.path
  {
    r.(isPainted := Some(true))
  }
}
