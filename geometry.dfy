/**
 * The box type and the geometric primitives the structure losses are built
 * from. The primitive library (iou, mbr, diag, center_distance, aspect_ratio,
 * area, sum_si) and the arctangent are not part of this model: they are given
 * to every loss as the fields of a `Geometry` value, and what is assumed about
 * them is collected in the predicate `Sound`, which lemmas take as a
 * hypothesis where they need it.
 */
module Geometry {

  /** One row of a `[seq_len, 4]` box tensor. */
  datatype Box = Box(x1: real, y1: real, x2: real, y2: real)

  /** The primitives, in the argument order in which the losses call them. */
  datatype Geometry = Geometry(
    iou: (Box, Box) -> real,            // intersection over union of one pair
    mbr: (Box, Box) -> Box,             // minimum bounding rectangle of one pair
    mbrOf: seq<Box> -> Box,             // minimum bounding rectangle of a whole sequence
    diag: Box -> real,                  // length of a box's diagonal
    centerDistance: (Box, Box) -> real, // distance between the centres of a pair
    aspectRatio: Box -> real,           // width over height
    area: Box -> real,                  // area of one box
    sumSi: seq<Box> -> real,            // summed pairwise overlap inside a sequence
    arctan: real -> real                // torch.arctan
  )

  /** The facts about the primitives that the loss design relies on. */
  ghost predicate Sound(g: Geometry)
  {
    && (forall a, b :: 0.0 <= g.iou(a, b) <= 1.0)
    && (forall b :: g.diag(b) >= 0.0)
    && (forall a, b :: g.centerDistance(a, b) >= 0.0)
    && (forall b :: g.area(b) >= 0.0)
    && (forall s :: g.sumSi(s) >= 0.0)
  }

  /** The sequence-level primitives are aggregates: they depend on which
      boxes a sequence holds, not on their order. */
  ghost predicate OrderFree(g: Geometry)
  {
    forall s1: seq<Box>, s2: seq<Box> :: multiset(s1) == multiset(s2) ==>
      g.mbrOf(s1) == g.mbrOf(s2) && g.sumSi(s1) == g.sumSi(s2)
  }

  /** torch.pi: the double nearest to pi, written out exactly. */
  const Pi: real := 3.141592653589793115997963468544185161590576171875

  /** The constant factor 4 / pi^2 of the aspect-ratio penalty. */
  function AspectScale(): (r: real)
    ensures 0.0 < r < 1.0
  {
    4.0 / (Pi * Pi)
  }

  function Abs(x: real): (r: real)
    ensures r >= 0.0
    ensures r == x || r == -x
  {
    if x < 0.0 then -x else x
  }
}
