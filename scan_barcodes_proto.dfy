/** The result messages both barcode-scanning skills fill, and the detector's corner points. */
module ScanBarcodesProto {

  /** The `BarcodeType` proto enumeration. */
  datatype BarcodeType =
    | BarcodeUnspecified
    | BarcodeNone
    | BarcodeEan8
    | BarcodeEan13
    | BarcodeUpcA
    | BarcodeUpcE
    | BarcodeUpcEanExtension

  datatype Corner = Corner(x: real, y: real)

  datatype Barcode = Barcode(barcodeType: BarcodeType, data: string, corners: seq<Corner>)

  /** One corner point reported by the OpenCV detector. */
  datatype Point2f = Point2f(x: real, y: real)

  /** The `Corner` message holding a point's x and y. */
  function CornerOf(p: Point2f): Corner
  {
    Corner(p.x, p.y)
  }

  /** One `Corner` per point, in point order. */
  function CornersOf(points: seq<Point2f>): seq<Corner>
  {
    seq(|points|, j requires 0 <= j < |points| => CornerOf(points[j]))
  }
}
