/**
 * The Python barcode-scanning skill's conversion of the OpenCV detector's
 * output (parallel lists of decoded data, type codes and corner points) into
 * the result message. Entries the detector could not decode (type `NONE`)
 * are skipped. Sizes are not checked: a missing entry raises `IndexError`.
 */
module ScanBarcodesPy {
  import opened Outcomes
  import opened ScanBarcodesProto

  /** OpenCV's `cv2.barcode` type codes. */
  const CvNone: int := 0
  const CvEan8: int := 1
  const CvEan13: int := 2
  const CvUpcA: int := 3
  const CvUpcE: int := 4
  const CvUpcEanExtension: int := 5

  /** The codes `convert_barcode_type_to_proto` names. */
  const KnownCodes: set<int> := {CvNone, CvEan8, CvEan13, CvUpcA, CvUpcE, CvUpcEanExtension}

  datatype ConversionError = IndexError

  /** `convert_barcode_type_to_proto`: the like-named proto type, `BARCODE_UNSPECIFIED` for any other code. */
  function ConvertBarcodeTypeToProto(barcodeType: int): (r: BarcodeType)
    ensures r == BarcodeUnspecified <==> barcodeType !in KnownCodes
    ensures r == BarcodeNone <==> barcodeType == CvNone
  {
    if barcodeType == CvNone then BarcodeNone
    else if barcodeType == CvEan8 then BarcodeEan8
    else if barcodeType == CvEan13 then BarcodeEan13
    else if barcodeType == CvUpcA then BarcodeUpcA
    else if barcodeType == CvUpcE then BarcodeUpcE
    else if barcodeType == CvUpcEanExtension then BarcodeUpcEanExtension
    else BarcodeUnspecified
  }

  /** The OpenCV code a proto type stands for; `BARCODE_UNSPECIFIED` stands for none. */
  function CvCodeOf(t: BarcodeType): Option<int>
  {
    match t
    case BarcodeUnspecified => None
    case BarcodeNone => Some(CvNone)
    case BarcodeEan8 => Some(CvEan8)
    case BarcodeEan13 => Some(CvEan13)
    case BarcodeUpcA => Some(CvUpcA)
    case BarcodeUpcE => Some(CvUpcE)
    case BarcodeUpcEanExtension => Some(CvUpcEanExtension)
  }

  /** The mapping loses nothing on the codes it names, and reaches every proto type but the unspecified one from them. */
  lemma ConvertRoundTrip(barcodeType: int, t: BarcodeType)
    ensures barcodeType in KnownCodes ==> CvCodeOf(ConvertBarcodeTypeToProto(barcodeType)) == Some(barcodeType)
    ensures barcodeType !in KnownCodes ==> CvCodeOf(ConvertBarcodeTypeToProto(barcodeType)) == None
    ensures t != BarcodeUnspecified ==> CvCodeOf(t).Some? && ConvertBarcodeTypeToProto(CvCodeOf(t).value) == t
  {
  }

  /** The indices below `n` whose type is not `NONE`, in increasing order: the entries that become barcodes. */
  function NonNoneIndices(types: seq<int>, n: nat): seq<nat>
    requires n <= |types|
  {
    if n == 0 then [] else NonNoneIndices(types, n - 1) + (if types[n - 1] != CvNone then [n - 1] else [])
  }

  /**
   * `NonNoneIndices` enumerates exactly the non-`NONE` indices, in increasing
   * order, and there are as many as entries that are not `NONE`.
   */
  lemma {:induction false} NonNoneIndicesEnumerate(types: seq<int>, n: nat)
    requires n <= |types|
    ensures var r := NonNoneIndices(types, n);
      && |r| == n - multiset(types[..n])[CvNone]
      && (forall k :: 0 <= k < |r| ==> r[k] < n && types[r[k]] != CvNone)
      && (forall k, l :: 0 <= k < l < |r| ==> r[k] < r[l])
      && (forall i :: 0 <= i < n && types[i] != CvNone ==> i in r)
  {
    if n > 0 {
      NonNoneIndicesEnumerate(types, n - 1);
      assert types[..n] == types[..n - 1] + [types[n - 1]];
    }
  }

  /** Every entry that becomes a barcode has its data and its corners. */
  predicate EntriesPresent(decodedData: seq<string>, decodedTypes: seq<int>, detectedCorners: seq<seq<Point2f>>)
  {
    forall i :: 0 <= i < |decodedTypes| && decodedTypes[i] != CvNone ==> i < |decodedData| && i < |detectedCorners|
  }

  /** The barcode made from entry `i`. */
  function BarcodeAt(decodedData: seq<string>, decodedTypes: seq<int>, detectedCorners: seq<seq<Point2f>>, i: nat): Barcode
    requires i < |decodedData| && i < |decodedTypes| && i < |detectedCorners|
  {
    Barcode(ConvertBarcodeTypeToProto(decodedTypes[i]), decodedData[i], CornersOf(detectedCorners[i]))
  }

  /** The listed entries all have a type, data and corners. */
  predicate IndicesPresent(decodedData: seq<string>, decodedTypes: seq<int>, detectedCorners: seq<seq<Point2f>>,
                           idx: seq<nat>)
  {
    forall k :: 0 <= k < |idx| ==> idx[k] < |decodedData| && idx[k] < |decodedTypes| && idx[k] < |detectedCorners|
  }

  /** The barcodes made from the listed entries, in list order. */
  function BarcodesAt(decodedData: seq<string>, decodedTypes: seq<int>, detectedCorners: seq<seq<Point2f>>,
                      idx: seq<nat>): seq<Barcode>
    requires IndicesPresent(decodedData, decodedTypes, detectedCorners, idx)
  {
    seq(|idx|, k requires 0 <= k < |idx| => BarcodeAt(decodedData, decodedTypes, detectedCorners, idx[k]))
  }

  /** Listing one more entry appends its barcode. */
  lemma BarcodesAtAppend(decodedData: seq<string>, decodedTypes: seq<int>, detectedCorners: seq<seq<Point2f>>,
                         idx: seq<nat>, i: nat)
    requires IndicesPresent(decodedData, decodedTypes, detectedCorners, idx)
    requires i < |decodedData| && i < |decodedTypes| && i < |detectedCorners|
    ensures IndicesPresent(decodedData, decodedTypes, detectedCorners, idx + [i])
    ensures BarcodesAt(decodedData, decodedTypes, detectedCorners, idx + [i]) ==
      BarcodesAt(decodedData, decodedTypes, detectedCorners, idx) + [BarcodeAt(decodedData, decodedTypes, detectedCorners, i)]
  {
  }

  /** The barcodes of a detection whose entries are all present: one per non-`NONE` entry, in entry order. */
  function Barcodes(decodedData: seq<string>, decodedTypes: seq<int>, detectedCorners: seq<seq<Point2f>>): seq<Barcode>
    requires EntriesPresent(decodedData, decodedTypes, detectedCorners)
  {
    NonNoneIndicesEnumerate(decodedTypes, |decodedTypes|);
    BarcodesAt(decodedData, decodedTypes, detectedCorners, NonNoneIndices(decodedTypes, |decodedTypes|))
  }

  /** The corner loop of `convert_to_result_proto`: one corner per point, appended in point order. */
  method CopyCorners(points: seq<Point2f>) returns (corners: seq<Corner>)
    ensures corners == CornersOf(points)
  {
    corners := [];
    var j := 0;
    while j < |points|
      invariant 0 <= j <= |points|
      invariant |corners| == j
      invariant forall m :: 0 <= m < j ==> corners[m] == Corner(points[m].x, points[m].y)
    {
      corners := corners + [Corner(points[j].x, points[j].y)];
      j := j + 1;
    }
  }

  /** `ScanBarcodes.convert_to_result_proto`. */
  method ConvertToResultProto(ok: bool, decodedData: seq<string>, decodedTypes: seq<int>, detectedCorners: seq<seq<Point2f>>)
    returns (r: Result<seq<Barcode>, ConversionError>)
    ensures !ok ==> r == Success([])
    ensures ok && !EntriesPresent(decodedData, decodedTypes, detectedCorners) ==> r == Failure(IndexError)
    ensures ok && EntriesPresent(decodedData, decodedTypes, detectedCorners) ==>
      r == Success(Barcodes(decodedData, decodedTypes, detectedCorners))
    ensures r.Success? ==> forall b :: b in r.value ==> b.barcodeType != BarcodeNone
  {
    if !ok {
      return Success([]);
    }
    var barcodes: seq<Barcode> := [];
    var i := 0;
    while i < |decodedTypes|
      invariant 0 <= i <= |decodedTypes|
      invariant forall j :: 0 <= j < i && decodedTypes[j] != CvNone ==> j < |decodedData| && j < |detectedCorners|
      invariant IndicesPresent(decodedData, decodedTypes, detectedCorners, NonNoneIndices(decodedTypes, i))
      invariant barcodes == BarcodesAt(decodedData, decodedTypes, detectedCorners, NonNoneIndices(decodedTypes, i))
    {
      var barcodeType := decodedTypes[i];
      if barcodeType == CvNone {
        i := i + 1;
        continue;
      }
      if i >= |decodedData| || i >= |detectedCorners| {
        return Failure(IndexError);
      }
      var barcodeData := decodedData[i];
      var corners := CopyCorners(detectedCorners[i]);
      var barcode := Barcode(ConvertBarcodeTypeToProto(barcodeType), barcodeData, corners);
      BarcodesAtAppend(decodedData, decodedTypes, detectedCorners, NonNoneIndices(decodedTypes, i), i);
      barcodes := barcodes + [barcode];
      i := i + 1;
    }
    NonNoneIndicesEnumerate(decodedTypes, |decodedTypes|);
    return Success(barcodes);
  }

  /**
   * What the result promises: one barcode per non-`NONE` entry, as many as
   * there are such entries, the k-th taken from the k-th such entry, with its
   * data, its like-named type and one corner per point.
   */
  lemma BarcodesFollowEntries(decodedData: seq<string>, decodedTypes: seq<int>, detectedCorners: seq<seq<Point2f>>)
    requires EntriesPresent(decodedData, decodedTypes, detectedCorners)
    ensures var bs := Barcodes(decodedData, decodedTypes, detectedCorners);
      var idx := NonNoneIndices(decodedTypes, |decodedTypes|);
      && |bs| == |decodedTypes| - multiset(decodedTypes)[CvNone]
      && |bs| == |idx|
      && (forall k :: 0 <= k < |bs| ==>
            && idx[k] < |decodedTypes|
            && decodedTypes[idx[k]] != CvNone
            && bs[k].data == decodedData[idx[k]]
            && bs[k].barcodeType == ConvertBarcodeTypeToProto(decodedTypes[idx[k]])
            && |bs[k].corners| == |detectedCorners[idx[k]]|
            && forall j :: 0 <= j < |bs[k].corners| ==>
                 bs[k].corners[j] == Corner(detectedCorners[idx[k]][j].x, detectedCorners[idx[k]][j].y))
      && (forall i :: 0 <= i < |decodedTypes| && decodedTypes[i] != CvNone ==> exists k :: 0 <= k < |bs| && idx[k] == i)
  {
    var idx := NonNoneIndices(decodedTypes, |decodedTypes|);
    NonNoneIndicesEnumerate(decodedTypes, |decodedTypes|);
    assert decodedTypes[..|decodedTypes|] == decodedTypes;
    forall i | 0 <= i < |decodedTypes| && decodedTypes[i] != CvNone
      ensures exists k :: 0 <= k < |idx| && idx[k] == i
    {
      var k :| 0 <= k < |idx| && idx[k] == i;
    }
  }

  /** An image holding one EAN-8 code gives one barcode of type `BARCODE_EAN_8` with the decoded data. */
  lemma SingleEan8Detection(corners: seq<Point2f>)
    ensures Barcodes(["01234565"], [CvEan8], [corners]) ==
      [Barcode(BarcodeEan8, "01234565", CornersOf(corners))]
  {
    assert [CvEan8][..1] == [CvEan8];
    assert NonNoneIndices([CvEan8], 1) == [0] by {
      assert NonNoneIndices([CvEan8], 0) == [];
    }
  }
}
