/**
 * The C++ barcode-scanning skill's conversion of the OpenCV detector's output
 * (decoded data, type names and a flat list of four corner points per code)
 * into the result message. Sizes are checked first; no entry is skipped.
 *
 * Two members are kept as written: the type conversion, whose conditions after
 * the first test a string literal and therefore always hold, and the result
 * conversion, which writes all four points into one corner. The corrected
 * members beside them are what the rest of the model states properties of.
 */
module ScanBarcodesCc {
  import opened Outcomes
  import opened ScanBarcodesProto

  /** `kNumCorners`: the detector reports four corner points per code. */
  const NumCorners: nat := 4

  /** The type names OpenCV's barcode decoder reports besides `NONE`. */
  const Ean8Name: string := "EAN_8"
  const Ean13Name: string := "EAN_13"
  const UpcEName: string := "UPC_E"
  const UpcAName: string := "UPC_A"
  const UpcEanExtensionName: string := "UPC_EAN_EXTENSION"

  const TypeNames: set<string> := {Ean8Name, Ean13Name, UpcEName, UpcAName, UpcEanExtensionName}

  /** The only error `ConvertToResultProto` returns: `absl::InternalError`. */
  datatype CcError = InternalError

  /**
   * A string literal used as a condition: it decays to an address that is never
   * null, so the condition holds whatever the literal says. This predicate
   * stands for the C++ truth value of that non-null `const char*`.
   */
  predicate LiteralHolds(literal: string)
  {
    true
  }

  /** `ConvertBarcodeTypeToProto` as written: only the first branch compares with `type`. */
  function ConvertBarcodeTypeToProtoAsWritten(barcodeType: string): (r: BarcodeType)
    ensures r == BarcodeEan8 <==> barcodeType == Ean8Name
    ensures r == BarcodeEan13 <==> barcodeType != Ean8Name
  {
    if Ean8Name == barcodeType then BarcodeEan8
    else if LiteralHolds(Ean13Name) then BarcodeEan13
    else if LiteralHolds(UpcEName) then BarcodeUpcE
    else if LiteralHolds(UpcAName) then BarcodeUpcA
    else if LiteralHolds(UpcEanExtensionName) then BarcodeUpcEanExtension
    else BarcodeUnspecified
  }

  /**
   * `ConvertBarcodeTypeToProto` as intended: every name compared with `type`,
   * `BARCODE_UNSPECIFIED` for any other name, `NONE` included.
   */
  function ConvertBarcodeTypeToProto(barcodeType: string): (r: BarcodeType)
    ensures r == BarcodeUnspecified <==> barcodeType !in TypeNames
    ensures r != BarcodeNone
  {
    if Ean8Name == barcodeType then BarcodeEan8
    else if Ean13Name == barcodeType then BarcodeEan13
    else if UpcEName == barcodeType then BarcodeUpcE
    else if UpcAName == barcodeType then BarcodeUpcA
    else if UpcEanExtensionName == barcodeType then BarcodeUpcEanExtension
    else BarcodeUnspecified
  }

  /** The OpenCV name a proto type comes from; `BARCODE_UNSPECIFIED` and `BARCODE_NONE` come from none. */
  function TypeName(t: BarcodeType): Option<string>
  {
    match t
    case BarcodeEan8 => Some(Ean8Name)
    case BarcodeEan13 => Some(Ean13Name)
    case BarcodeUpcE => Some(UpcEName)
    case BarcodeUpcA => Some(UpcAName)
    case BarcodeUpcEanExtension => Some(UpcEanExtensionName)
    case _ => None
  }

  /** The corrected conversion is one-to-one on the names and reaches every code type from them. */
  lemma ConvertRoundTrip(barcodeType: string, t: BarcodeType)
    ensures barcodeType in TypeNames ==> TypeName(ConvertBarcodeTypeToProto(barcodeType)) == Some(barcodeType)
    ensures barcodeType !in TypeNames ==> TypeName(ConvertBarcodeTypeToProto(barcodeType)) == None
    ensures TypeName(t).Some? ==> ConvertBarcodeTypeToProto(TypeName(t).value) == t
  {
  }

  /** The conversion as written and as intended agree on `EAN_8` and `EAN_13` and on nothing else. */
  lemma ConvertAsWrittenAgreesOnlyOnEan(barcodeType: string)
    ensures ConvertBarcodeTypeToProtoAsWritten(barcodeType) == ConvertBarcodeTypeToProto(barcodeType) <==>
      barcodeType == Ean8Name || barcodeType == Ean13Name
  {
  }

  /** A `UPC_A` code is reported as `BARCODE_EAN_13` by the conversion as written. */
  lemma UpcAReportedAsEan13()
    ensures ConvertBarcodeTypeToProtoAsWritten(UpcAName) == BarcodeEan13
    ensures ConvertBarcodeTypeToProto(UpcAName) == BarcodeUpcA
  {
  }

  /** The sizes `ConvertToResultProto` accepts: one type per datum and four points per type. */
  predicate ConsistentSizes(decodedData: seq<string>, decodedTypes: seq<string>, detectedCorners: seq<Point2f>)
  {
    |decodedData| == |decodedTypes| && NumCorners * |decodedTypes| == |detectedCorners|
  }

  /** The intended barcode of entry `d`: its type, its data and its four corners in point order. */
  function BarcodeAt(decodedData: seq<string>, decodedTypes: seq<string>, detectedCorners: seq<Point2f>, d: nat): Barcode
    requires ConsistentSizes(decodedData, decodedTypes, detectedCorners) && d < |decodedTypes|
  {
    Barcode(ConvertBarcodeTypeToProto(decodedTypes[d]), decodedData[d],
            CornersOf(detectedCorners[NumCorners * d..NumCorners * d + NumCorners]))
  }

  /** The barcode entry `d` becomes as written: one corner, holding the last of its four points. */
  function BarcodeAtAsWritten(decodedData: seq<string>, decodedTypes: seq<string>, detectedCorners: seq<Point2f>,
                              d: nat): Barcode
    requires ConsistentSizes(decodedData, decodedTypes, detectedCorners) && d < |decodedTypes|
  {
    Barcode(ConvertBarcodeTypeToProtoAsWritten(decodedTypes[d]), decodedData[d],
            [CornerOf(detectedCorners[NumCorners * d + NumCorners - 1])])
  }

  function Barcodes(decodedData: seq<string>, decodedTypes: seq<string>, detectedCorners: seq<Point2f>): seq<Barcode>
    requires ConsistentSizes(decodedData, decodedTypes, detectedCorners)
  {
    seq(|decodedTypes|, d requires 0 <= d < |decodedTypes| => BarcodeAt(decodedData, decodedTypes, detectedCorners, d))
  }

  function BarcodesAsWritten(decodedData: seq<string>, decodedTypes: seq<string>, detectedCorners: seq<Point2f>)
    : seq<Barcode>
    requires ConsistentSizes(decodedData, decodedTypes, detectedCorners)
  {
    seq(|decodedTypes|, d requires 0 <= d < |decodedTypes| =>
      BarcodeAtAsWritten(decodedData, decodedTypes, detectedCorners, d))
  }

  /** `ScanBarcodes::ConvertToResultProto` as written. */
  method ConvertToResultProtoAsWritten(decodedData: seq<string>, decodedTypes: seq<string>, detectedCorners: seq<Point2f>)
    returns (r: Result<seq<Barcode>, CcError>)
    ensures r.Failure? <==> !ConsistentSizes(decodedData, decodedTypes, detectedCorners)
    ensures r.Failure? ==> r.error == InternalError
    ensures r.Success? ==> r.value == BarcodesAsWritten(decodedData, decodedTypes, detectedCorners)
  {
    if |decodedData| != |decodedTypes| || NumCorners * |decodedTypes| != |detectedCorners| {
      return Failure(InternalError);
    }
    var barcodes: seq<Barcode> := [];
    var d := 0;
    while d < |decodedTypes|
      invariant 0 <= d <= |decodedTypes|
      invariant |barcodes| == d
      invariant forall k :: 0 <= k < d ==> barcodes[k] == BarcodeAtAsWritten(decodedData, decodedTypes, detectedCorners, k)
    {
      var barcodeData := decodedData[d];
      var barcodeType := decodedTypes[d];
      var first := NumCorners * d;
      // The one corner added to the barcode; every point overwrites it.
      var corner := Corner(0.0, 0.0);
      var c := 0;
      while c < NumCorners
        invariant 0 <= c <= NumCorners
        invariant c > 0 ==> corner == CornerOf(detectedCorners[first + c - 1])
      {
        var point := detectedCorners[first + c];
        corner := corner.(x := point.x);
        corner := corner.(y := point.y);
        c := c + 1;
      }
      barcodes := barcodes + [Barcode(ConvertBarcodeTypeToProtoAsWritten(barcodeType), barcodeData, [corner])];
      d := d + 1;
    }
    return Success(barcodes);
  }

  /** `ScanBarcodes::ConvertToResultProto` as intended: a corner per point. */
  method ConvertToResultProto(decodedData: seq<string>, decodedTypes: seq<string>, detectedCorners: seq<Point2f>)
    returns (r: Result<seq<Barcode>, CcError>)
    ensures r.Failure? <==> !ConsistentSizes(decodedData, decodedTypes, detectedCorners)
    ensures r.Failure? ==> r.error == InternalError
    ensures r.Success? ==> r.value == Barcodes(decodedData, decodedTypes, detectedCorners)
  {
    if |decodedData| != |decodedTypes| || NumCorners * |decodedTypes| != |detectedCorners| {
      return Failure(InternalError);
    }
    var barcodes: seq<Barcode> := [];
    var d := 0;
    while d < |decodedTypes|
      invariant 0 <= d <= |decodedTypes|
      invariant |barcodes| == d
      invariant forall k :: 0 <= k < d ==> barcodes[k] == BarcodeAt(decodedData, decodedTypes, detectedCorners, k)
    {
      var barcodeData := decodedData[d];
      var barcodeType := decodedTypes[d];
      var first := NumCorners * d;
      var corners: seq<Corner> := [];
      var c := 0;
      while c < NumCorners
        invariant 0 <= c <= NumCorners
        invariant |corners| == c
        invariant forall m :: 0 <= m < c ==> corners[m] == CornerOf(detectedCorners[first + m])
      {
        var point := detectedCorners[first + c];
        corners := corners + [Corner(point.x, point.y)];
        c := c + 1;
      }
      assert corners == CornersOf(detectedCorners[first..first + NumCorners]);
      barcodes := barcodes + [Barcode(ConvertBarcodeTypeToProto(barcodeType), barcodeData, corners)];
      d := d + 1;
    }
    return Success(barcodes);
  }

  /** The corners of a sequence of barcodes, one barcode after the other. */
  function AllCorners(bs: seq<Barcode>): seq<Corner>
  {
    if bs == [] then [] else bs[0].corners + AllCorners(bs[1..])
  }

  /** Barcodes holding four consecutive points each hold, together, every point in order. */
  lemma {:induction false} AllCornersOfGroups(bs: seq<Barcode>, points: seq<Point2f>)
    requires |points| == NumCorners * |bs|
    requires forall k :: 0 <= k < |bs| ==>
      bs[k].corners == CornersOf(points[NumCorners * k..NumCorners * k + NumCorners])
    ensures AllCorners(bs) == CornersOf(points)
  {
    if bs != [] {
      var rest := points[NumCorners..];
      forall k | 0 <= k < |bs[1..]|
        ensures bs[1..][k].corners == CornersOf(rest[NumCorners * k..NumCorners * k + NumCorners])
      {
        assert bs[1..][k] == bs[k + 1];
        assert rest[NumCorners * k..NumCorners * k + NumCorners] ==
               points[NumCorners * (k + 1)..NumCorners * (k + 1) + NumCorners];
      }
      AllCornersOfGroups(bs[1..], rest);
      assert points[0..NumCorners] == points[..NumCorners];
      assert points == points[..NumCorners] + rest;
      assert CornersOf(points) == CornersOf(points[..NumCorners]) + CornersOf(rest);
    }
  }

  /**
   * What the intended result promises: one barcode per entry, in entry order,
   * with its data and its like-named type, and the barcodes' corners taken
   * together are all the detected points, in order.
   */
  lemma BarcodesFollowEntries(decodedData: seq<string>, decodedTypes: seq<string>, detectedCorners: seq<Point2f>)
    requires ConsistentSizes(decodedData, decodedTypes, detectedCorners)
    ensures var bs := Barcodes(decodedData, decodedTypes, detectedCorners);
      && |bs| == |decodedTypes|
      && (forall d :: 0 <= d < |bs| ==>
            && bs[d].data == decodedData[d]
            && bs[d].barcodeType == ConvertBarcodeTypeToProto(decodedTypes[d])
            && |bs[d].corners| == NumCorners)
      && AllCorners(bs) == CornersOf(detectedCorners)
  {
    var bs := Barcodes(decodedData, decodedTypes, detectedCorners);
    AllCornersOfGroups(bs, detectedCorners);
  }

  /**
   * As written, each barcode keeps the right data but a single corner: the
   * last of the four its intended counterpart holds.
   */
  lemma AsWrittenKeepsOnlyLastCorner(decodedData: seq<string>, decodedTypes: seq<string>, detectedCorners: seq<Point2f>)
    requires ConsistentSizes(decodedData, decodedTypes, detectedCorners)
    ensures var written := BarcodesAsWritten(decodedData, decodedTypes, detectedCorners);
      var intended := Barcodes(decodedData, decodedTypes, detectedCorners);
      && |written| == |intended|
      && forall d :: 0 <= d < |written| ==>
           && written[d].data == intended[d].data
           && |intended[d].corners| == NumCorners
           && written[d].corners == [intended[d].corners[NumCorners - 1]]
  {
  }

  /** One `UPC_A` code with its four points: as written it comes back as `EAN_13` with one corner. */
  lemma SingleUpcADetection(data: string, p0: Point2f, p1: Point2f, p2: Point2f, p3: Point2f)
    ensures BarcodesAsWritten([data], [UpcAName], [p0, p1, p2, p3]) ==
      [Barcode(BarcodeEan13, data, [CornerOf(p3)])]
    ensures Barcodes([data], [UpcAName], [p0, p1, p2, p3]) ==
      [Barcode(BarcodeUpcA, data, [CornerOf(p0), CornerOf(p1), CornerOf(p2), CornerOf(p3)])]
  {
    var points := [p0, p1, p2, p3];
    assert points[0..4] == points;
    assert CornersOf(points) == [CornerOf(p0), CornerOf(p1), CornerOf(p2), CornerOf(p3)];
  }
}
