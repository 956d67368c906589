/**
 * The reference board of the probe calibration: the positions of its
 * markers and pins in the board's own coordinate system, whose origin is the
 * board's centre, and the lookup of an inner reference pin by its diameter.
 */
module ReferenceBoard {
  import opened Wrappers

  datatype Vec3 = Vec3(x: real, y: real, z: real)

  /** The board's dimensions, in millimetres. */
  datatype ReferenceBoardConfig = ReferenceBoardConfig(
    thickness: real,
    markerGridWidth: real,
    markerGridHeight: real,
    outerWhitePinWidth: real,
    outerWhitePinHeight: real,
    outerBrassPinWidth: real,
    outerBrassPinHeight: real,
    innerBrassPinWidth: real,
    innerBrassPinHeight: real,
    raisedBrassPinWidth: real,
    raisedBrassPinHeight: real)

  /** The z level of the board's coordinate system: half the thickness below the surface. */
  function Z0(c: ReferenceBoardConfig): real
  {
    -c.thickness * 0.5
  }

  /** The ids of the inner brass reference pins. */
  const InnerPinIds: set<int> := {7, 8, 9, 10}

  /**
   * The inner brass pin positions: pin 7 at the upper right, 8 at the lower
   * left, 9 at the lower right and 10 at the upper left corner of the inner
   * rectangle.
   */
  function InnerBrassPins(c: ReferenceBoardConfig): (r: map<int, Vec3>)
    ensures r.Keys == InnerPinIds
    ensures forall id :: id in r ==> r[id].z == Z0(c)
    ensures forall id :: id in r ==>
      (r[id].x == c.innerBrassPinWidth * 0.5 || r[id].x == -c.innerBrassPinWidth * 0.5) &&
      (r[id].y == c.innerBrassPinHeight * 0.5 || r[id].y == -c.innerBrassPinHeight * 0.5)
  {
    var w := c.innerBrassPinWidth * 0.5;
    var h := c.innerBrassPinHeight * 0.5;
    map[7 := Vec3(w, h, Z0(c)), 8 := Vec3(-w, -h, Z0(c)), 9 := Vec3(w, -h, Z0(c)), 10 := Vec3(-w, h, Z0(c))]
  }

  /** Pins 7 and 8, and pins 9 and 10, lie opposite each other through the centre. */
  lemma InnerPinsOpposite(c: ReferenceBoardConfig)
    ensures var p := InnerBrassPins(c);
      p[8] == Vec3(-p[7].x, -p[7].y, p[7].z) && p[10] == Vec3(-p[9].x, -p[9].y, p[9].z)
  {
  }

  /** The marker positions by marker id, at the corners of the marker grid. */
  function MarkerPositions(c: ReferenceBoardConfig): (r: map<int, Vec3>)
    ensures r.Keys == {1, 3, 6, 12}
    ensures forall id :: id in r ==> r[id].z == Z0(c)
  {
    var w := c.markerGridWidth * 0.5;
    var h := c.markerGridHeight * 0.5;
    map[1 := Vec3(w, h, Z0(c)), 3 := Vec3(-w, h, Z0(c)), 6 := Vec3(w, -h, Z0(c)), 12 := Vec3(-w, -h, Z0(c))]
  }

  /** The outer white pins, at the corners of their rectangle. */
  function OuterWhitePins(c: ReferenceBoardConfig): (r: seq<Vec3>)
    ensures |r| == 4 && forall k :: 0 <= k < 4 ==> r[k].z == Z0(c)
  {
    var w := c.outerWhitePinWidth * 0.5;
    var h := c.outerWhitePinHeight * 0.5;
    [Vec3(w, h, Z0(c)), Vec3(-w, h, Z0(c)), Vec3(w, -h, Z0(c)), Vec3(-w, -h, Z0(c))]
  }

  /** The outer brass pins, at the middles of the sides of their rectangle, counter-clockwise from the right. */
  function OuterBrassPins(c: ReferenceBoardConfig): (r: seq<Vec3>)
    ensures |r| == 4 && forall k :: 0 <= k < 4 ==> r[k].z == Z0(c)
    ensures forall k :: 0 <= k < 4 ==> r[k].x == 0.0 || r[k].y == 0.0
  {
    var w := c.outerBrassPinWidth * 0.5;
    var h := c.outerBrassPinHeight * 0.5;
    [Vec3(w, 0.0, Z0(c)), Vec3(0.0, h, Z0(c)), Vec3(-w, 0.0, Z0(c)), Vec3(0.0, -h, Z0(c))]
  }

  /** The raised brass pins, 12, 10, 8 and 6 millimetres below the board's z level. */
  function RaisedBrassPins(c: ReferenceBoardConfig): (r: seq<Vec3>)
    ensures |r| == 4
    ensures r[0].z == Z0(c) - 12.0 && r[1].z == Z0(c) - 10.0 && r[2].z == Z0(c) - 8.0 && r[3].z == Z0(c) - 6.0
  {
    var w := 0.5 * c.raisedBrassPinWidth;
    var h := 0.5 * c.raisedBrassPinHeight;
    [Vec3(w, h, -12.0 + Z0(c)), Vec3(-w, -h, -10.0 + Z0(c)), Vec3(w, -h, -8.0 + Z0(c)), Vec3(-w, h, -6.0 + Z0(c))]
  }

  /** Whether a diameter lies within `epsilon` of a nominal one. */
  predicate Near(diameter: real, nominal: real, epsilon: real)
  {
    nominal - epsilon <= diameter <= nominal + epsilon
  }

  /**
   * `get_reference_pin_coordinates_by_diameter`: the pins of diameter 7, 8,
   * 9 and 10 are the inner pins 7, 8, 9 and 10, at indices 3, 2, 1 and 0 of
   * the list [10, 9, 8, 7]; the first nominal diameter within `epsilon`
   * wins, and a diameter near none of them raises.
   */
  function PinByDiameter(c: ReferenceBoardConfig, diameter: real, epsilon: real): (r: Result<(int, Vec3)>)
    ensures r.Err? <==> !(Near(diameter, 7.0, epsilon) || Near(diameter, 8.0, epsilon) ||
                          Near(diameter, 9.0, epsilon) || Near(diameter, 10.0, epsilon))
    ensures r.Err? ==> r.error == DomainError("ReferenceBoardException")
    ensures r.Ok? ==> 0 <= r.value.0 <= 3 && Near(diameter, (10 - r.value.0) as real, epsilon)
    ensures r.Ok? ==> r.value.1 == InnerBrassPins(c)[10 - r.value.0]
  {
    var pins := InnerBrassPins(c);
    if Near(diameter, 7.0, epsilon) then Ok((3, pins[7]))
    else if Near(diameter, 8.0, epsilon) then Ok((2, pins[8]))
    else if Near(diameter, 9.0, epsilon) then Ok((1, pins[9]))
    else if Near(diameter, 10.0, epsilon) then Ok((0, pins[10]))
    else Err(DomainError("ReferenceBoardException"))
  }

  /** The default tolerance. */
  const DefaultEpsilon: real := 0.3

  /**
   * With the default tolerance the accepted ranges do not overlap: a
   * diameter near the nominal diameter of pin `id` is found as that pin.
   */
  lemma DefaultMatchIsUnique(c: ReferenceBoardConfig, diameter: real, id: int)
    requires id in InnerPinIds && Near(diameter, id as real, DefaultEpsilon)
    ensures PinByDiameter(c, diameter, DefaultEpsilon) == Ok((10 - id, InnerBrassPins(c)[id]))
  {
  }

  /** With a tolerance of half a millimetre or more, a diameter of 7.5 falls into two ranges and pin 7 wins. */
  lemma WideToleranceOverlaps(c: ReferenceBoardConfig, epsilon: real)
    requires epsilon >= 0.5
    ensures Near(7.5, 7.0, epsilon) && Near(7.5, 8.0, epsilon)
    ensures PinByDiameter(c, 7.5, epsilon).value.0 == 3
  {
  }
}
