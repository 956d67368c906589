/**
 * The chip extraction of the pin detectors: each detected chip's bounding
 * box, widened by a margin and limited to the board image, gives the part of
 * the image the pins are searched in and that part's offset. Pixels are not
 * modelled: an image is its width and height, an extracted image the
 * rectangle cut out of the board image.
 */
module PinDetector {
  import opened Wrappers
  import PythonNumeric

  /** A corner of a chip's bounding box, in pixels. */
  datatype Corner = Corner(x: real, y: real)

  /** The rectangle `board_image[minY:maxY, minX:maxX]` of a chip. */
  datatype Crop = Crop(minX: int, minY: int, maxX: int, maxY: int)
  {
    /** The size of the extracted image; a slice with crossed bounds is empty. */
    function Width(): nat { if maxX > minX then maxX - minX else 0 }
    function Height(): nat { if maxY > minY then maxY - minY else 0 }
  }

  function Max(a: int, b: int): int { if a >= b then a else b }
  function Min(a: int, b: int): int { if a <= b then a else b }

  function MinX(bbox: seq<Corner>): (r: real)
    requires bbox != []
    ensures forall k :: 0 <= k < |bbox| ==> r <= bbox[k].x
    ensures exists k :: 0 <= k < |bbox| && r == bbox[k].x
  {
    if |bbox| == 1 then bbox[0].x
    else
      var rest := MinX(bbox[1..]);
      assert forall k :: 1 <= k < |bbox| ==> bbox[k] == bbox[1..][k - 1];
      if bbox[0].x <= rest then bbox[0].x else rest
  }

  function MaxX(bbox: seq<Corner>): (r: real)
    requires bbox != []
    ensures forall k :: 0 <= k < |bbox| ==> bbox[k].x <= r
    ensures exists k :: 0 <= k < |bbox| && r == bbox[k].x
  {
    if |bbox| == 1 then bbox[0].x
    else
      var rest := MaxX(bbox[1..]);
      assert forall k :: 1 <= k < |bbox| ==> bbox[k] == bbox[1..][k - 1];
      if bbox[0].x >= rest then bbox[0].x else rest
  }

  function MinY(bbox: seq<Corner>): (r: real)
    requires bbox != []
    ensures forall k :: 0 <= k < |bbox| ==> r <= bbox[k].y
    ensures exists k :: 0 <= k < |bbox| && r == bbox[k].y
  {
    if |bbox| == 1 then bbox[0].y
    else
      var rest := MinY(bbox[1..]);
      assert forall k :: 1 <= k < |bbox| ==> bbox[k] == bbox[1..][k - 1];
      if bbox[0].y <= rest then bbox[0].y else rest
  }

  function MaxY(bbox: seq<Corner>): (r: real)
    requires bbox != []
    ensures forall k :: 0 <= k < |bbox| ==> bbox[k].y <= r
    ensures exists k :: 0 <= k < |bbox| && r == bbox[k].y
  {
    if |bbox| == 1 then bbox[0].y
    else
      var rest := MaxY(bbox[1..]);
      assert forall k :: 1 <= k < |bbox| ==> bbox[k] == bbox[1..][k - 1];
      if bbox[0].y >= rest then bbox[0].y else rest
  }

  /** The bounding box, its coordinates truncated to integers and widened by the margin on every side. */
  function RawCrop(bbox: seq<Corner>, margin: int): Crop
    requires bbox != []
  {
    Crop(PythonNumeric.Trunc(MinX(bbox)) - margin, PythonNumeric.Trunc(MinY(bbox)) - margin,
         PythonNumeric.Trunc(MaxX(bbox)) + margin, PythonNumeric.Trunc(MaxY(bbox)) + margin)
  }

  /**
   * The range adjustment: the lower bounds are raised to 0 and then cut to
   * the image size, the upper bounds cut to the image size and then raised to 0.
   */
  function Clamp(c: Crop, width: nat, height: nat): (r: Crop)
    ensures 0 <= r.minX <= width && 0 <= r.maxX <= width
    ensures 0 <= r.minY <= height && 0 <= r.maxY <= height
    ensures 0 <= c.minX <= width ==> r.minX == c.minX
    ensures 0 <= c.maxX <= width ==> r.maxX == c.maxX
    ensures 0 <= c.minY <= height ==> r.minY == c.minY
    ensures 0 <= c.maxY <= height ==> r.maxY == c.maxY
  {
    Crop(Min(Max(0, c.minX), width), Min(Max(0, c.minY), height),
         Max(0, Min(width, c.maxX)), Max(0, Min(height, c.maxY)))
  }

  /**
   * The part of a `width` by `height` board image that belongs to one chip.
   * The minimum of an empty bounding box raises.
   */
  function ChipCrop(bbox: seq<Corner>, margin: int, width: nat, height: nat): (r: Result<Crop>)
    ensures r.Err? <==> bbox == []
    ensures r.Ok? ==> r.value == Clamp(RawCrop(bbox, margin), width, height)
    ensures r.Ok? ==> r.value.Width() <= width && r.value.Height() <= height
  {
    if bbox == [] then Err(ValueError) else Ok(Clamp(RawCrop(bbox, margin), width, height))
  }

  /** A wider margin never cuts out less: its rectangle contains the narrower one's. */
  lemma MarginWidens(bbox: seq<Corner>, m1: int, m2: int, width: nat, height: nat)
    requires bbox != [] && m1 <= m2
    ensures var a := ChipCrop(bbox, m1, width, height).value; var b := ChipCrop(bbox, m2, width, height).value;
      b.minX <= a.minX && b.minY <= a.minY && a.maxX <= b.maxX && a.maxY <= b.maxY
  {
  }

  /** A box with a non-negative margin that lies inside the image is cut out whole, margin and all. */
  lemma InsideKeepsBox(bbox: seq<Corner>, margin: int, width: nat, height: nat)
    requires bbox != [] && margin >= 0
    requires var raw := RawCrop(bbox, margin); 0 <= raw.minX && raw.maxX <= width && 0 <= raw.minY && raw.maxY <= height
    ensures ChipCrop(bbox, margin, width, height) == Ok(RawCrop(bbox, margin))
  {
    var raw := RawCrop(bbox, margin);
    assert PythonNumeric.Trunc(MinX(bbox)) <= PythonNumeric.Trunc(MaxX(bbox)) by {
      TruncMonotone(MinX(bbox), MaxX(bbox));
    }
    assert PythonNumeric.Trunc(MinY(bbox)) <= PythonNumeric.Trunc(MaxY(bbox)) by {
      TruncMonotone(MinY(bbox), MaxY(bbox));
    }
  }

  lemma TruncMonotone(a: real, b: real)
    requires a <= b
    ensures PythonNumeric.Trunc(a) <= PythonNumeric.Trunc(b)
  {
  }

  /** The extracted images (as rectangles) and the offsets `(min_x, min_y)` of the chips. */
  datatype Extraction = Extraction(crops: seq<Crop>, offsets: seq<(int, int)>)

  /** The first `|crops|` chips are cut out as `crops`, each at the offset of its rectangle's corner. */
  predicate CutOut(chips: seq<seq<Corner>>, margin: int, width: nat, height: nat, crops: seq<Crop>, offsets: seq<(int, int)>)
  {
    |crops| <= |chips| && |offsets| == |crops| &&
    forall k :: 0 <= k < |crops| ==>
      ChipCrop(chips[k], margin, width, height) == Ok(crops[k]) && offsets[k] == (crops[k].minX, crops[k].minY)
  }

  lemma CutOutNext(chips: seq<seq<Corner>>, margin: int, width: nat, height: nat, crops: seq<Crop>, offsets: seq<(int, int)>, crop: Crop)
    requires CutOut(chips, margin, width, height, crops, offsets) && |crops| < |chips|
    requires ChipCrop(chips[|crops|], margin, width, height) == Ok(crop)
    ensures CutOut(chips, margin, width, height, crops + [crop], offsets + [(crop.minX, crop.minY)])
  {
  }

  /** `extract_chips`: one rectangle and one offset per chip, in the order of the detections. */
  method ExtractChips(width: nat, height: nat, chips: seq<seq<Corner>>, margin: int) returns (r: Result<Extraction>)
    ensures r.Err? <==> exists k :: 0 <= k < |chips| && chips[k] == []
    ensures r.Ok? ==> |r.value.crops| == |chips| && |r.value.offsets| == |chips|
    ensures r.Ok? ==> forall i :: 0 <= i < |chips| ==>
      ChipCrop(chips[i], margin, width, height) == Ok(r.value.crops[i]) &&
      r.value.offsets[i] == (r.value.crops[i].minX, r.value.crops[i].minY)
  {
    var crops: seq<Crop> := [];
    var offsets: seq<(int, int)> := [];
    while |crops| < |chips|
      invariant CutOut(chips, margin, width, height, crops, offsets)
    {
      var crop := ChipCrop(chips[|crops|], margin, width, height);
      if crop.Err? {
        return Err(crop.error);
      }
      CutOutNext(chips, margin, width, height, crops, offsets, crop.value);
      crops, offsets := crops + [crop.value], offsets + [(crop.value.minX, crop.value.minY)];
    }
    r := Ok(Extraction(crops, offsets));
    forall k | 0 <= k < |chips|
      ensures chips[k] != []
    {
      assert ChipCrop(chips[k], margin, width, height).Ok?;
    }
  }
}
