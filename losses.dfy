/**
 * The single-sample box losses: IoU, distance IoU, complete IoU and the
 * sequence-aware tile IoU loss. Each one filters the padding rows, builds one
 * term per surviving position and takes the mean; the tile loss then adds one
 * sequence-level term. The divisions of the source are unguarded, so every
 * divisor that could be zero is a precondition here.
 */
module Losses {
  import opened Geometry
  import opened Stats
  import opened Padding

  // ---------------------------------------------------------------------------
  // Per-position terms for one (target, prediction) pair.

  /** `1 - iou`: in [0, 1] whenever the IoU is, and 0 exactly at perfect
      overlap. */
  function IouTerm(g: Geometry, t: Box, p: Box): (r: real)
    ensures 0.0 <= g.iou(t, p) <= 1.0 ==> 0.0 <= r <= 1.0
    ensures r == 0.0 <==> g.iou(t, p) == 1.0
  {
    1.0 - g.iou(t, p)
  }

  /** The divisor of the distance term, `diag(mbr(target, output))`, is non-zero. */
  predicate DistanceDefined(g: Geometry, t: Box, p: Box)
  {
    g.diag(g.mbr(t, p)) != 0.0
  }

  /** `dist_center / mbr_diag`, never negative when the centre distance and
      the diagonal are not. */
  function DistanceTerm(g: Geometry, t: Box, p: Box): (r: real)
    requires DistanceDefined(g, t, p)
    ensures g.centerDistance(t, p) >= 0.0 && g.diag(g.mbr(t, p)) >= 0.0 ==> r >= 0.0
  {
    QuotientSign(g.centerDistance(t, p), g.diag(g.mbr(t, p)));
    g.centerDistance(t, p) / g.diag(g.mbr(t, p))
  }

  /** A non-negative number over a non-negative one is non-negative. */
  lemma QuotientSign(a: real, b: real)
    requires b != 0.0
    ensures a >= 0.0 && b >= 0.0 ==> a / b >= 0.0
  {
    if a >= 0.0 && b > 0.0 {
      assert (a / b) * b == a;
    }
  }

  /** `1 - iou + dist_center / mbr_diag`: the IoU term plus the distance
      term, and so never below the IoU term. */
  function DiouTerm(g: Geometry, t: Box, p: Box): (r: real)
    requires DistanceDefined(g, t, p)
    ensures r == IouTerm(g, t, p) + DistanceTerm(g, t, p)
    ensures g.centerDistance(t, p) >= 0.0 && g.diag(g.mbr(t, p)) >= 0.0 ==> r >= IouTerm(g, t, p)
  {
    1.0 - g.iou(t, p) + g.centerDistance(t, p) / g.diag(g.mbr(t, p))
  }

  /** `value = torch.pow(t_asp - p_asp, 2) * (4 / (pi * pi))`, where the
      aspect angles are `t_asp = arctan(aspect_ratio(target))` and
      `p_asp = arctan(aspect_ratio(output))`. It is never negative, and it is
      0 exactly when the two angles agree. */
  function AspectPenalty(g: Geometry, t: Box, p: Box): (v: real)
    ensures v >= 0.0
    ensures v == 0.0 <==> g.arctan(g.aspectRatio(t)) == g.arctan(g.aspectRatio(p))
  {
    var d := g.arctan(g.aspectRatio(t)) - g.arctan(g.aspectRatio(p));
    SquareSign(d);
    ProductSign(Pow(d, 2), AspectScale());
    Pow(d, 2) * AspectScale()
  }

  /** `torch.pow(x, n)` for a natural exponent. */
  function Pow(x: real, n: nat): real
  {
    if n == 0 then 1.0 else x * Pow(x, n - 1)
  }

  /** A square is non-negative, and zero only at zero. */
  lemma SquareSign(x: real)
    ensures Pow(x, 2) >= 0.0
    ensures Pow(x, 2) == 0.0 <==> x == 0.0
  {
    assert Pow(x, 0) == 1.0;
    var y := Pow(x, 1);
    assert y == x;
    assert Pow(x, 2) == x * y;
    if x > 0.0 {
      ProductSign(x, y);
    } else if x < 0.0 {
      ProductSign(-x, -y);
      assert (-x) * (-y) == x * y;
    }
  }

  lemma ProductSign(a: real, b: real)
    ensures a >= 0.0 && b >= 0.0 ==> a * b >= 0.0
    ensures a > 0.0 && b > 0.0 ==> a * b > 0.0
  {
  }

  /** The divisor of `alpha`, `(1 - iou) + value`, is non-zero. */
  predicate AlphaDefined(g: Geometry, t: Box, p: Box)
  {
    (1.0 - g.iou(t, p)) + AspectPenalty(g, t, p) != 0.0
  }

  /** `alpha = value / ((1 - iou) + value)`; with `iou <= 1` the trade-off
      weight lies in [0, 1]. */
  function Alpha(g: Geometry, t: Box, p: Box): (r: real)
    requires AlphaDefined(g, t, p)
    ensures g.iou(t, p) <= 1.0 ==> 0.0 <= r <= 1.0
  {
    var u, v := 1.0 - g.iou(t, p), AspectPenalty(g, t, p);
    RatioInUnit(v, u + v);
    v / (u + v)
  }

  /** A non-negative part over a whole at least as large lies in [0, 1]. */
  lemma RatioInUnit(part: real, whole: real)
    requires whole != 0.0
    ensures 0.0 <= part <= whole ==> 0.0 <= part / whole <= 1.0
  {
    if 0.0 <= part <= whole {
      assert (part / whole) * whole == part;
    }
  }

  /** `alpha` is the 0/0 of the source exactly at perfect overlap with equal
      aspect angles. */
  lemma AlphaUndefinedIff(g: Geometry, t: Box, p: Box)
    requires g.iou(t, p) <= 1.0
    ensures !AlphaDefined(g, t, p) <==>
              g.iou(t, p) == 1.0
              && g.arctan(g.aspectRatio(t)) == g.arctan(g.aspectRatio(p))
  {
  }

  predicate CiouDefined(g: Geometry, t: Box, p: Box)
  {
    DistanceDefined(g, t, p) && AlphaDefined(g, t, p)
  }

  /** `1 - iou + dist_center / mbr_diag + alpha * value`: the distance IoU
      term plus `alpha * value`, and so never below the distance IoU term. */
  function CiouTerm(g: Geometry, t: Box, p: Box): (r: real)
    requires CiouDefined(g, t, p)
    ensures r == DiouTerm(g, t, p) + Alpha(g, t, p) * AspectPenalty(g, t, p)
    ensures g.iou(t, p) <= 1.0 ==> r >= DiouTerm(g, t, p)
  {
    ProductSign(Alpha(g, t, p), AspectPenalty(g, t, p));
    1.0 - g.iou(t, p) + g.centerDistance(t, p) / g.diag(g.mbr(t, p))
      + Alpha(g, t, p) * AspectPenalty(g, t, p)
  }

  // ---------------------------------------------------------------------------
  // Terms of a whole aligned pair of sequences.

  function IouTerms(g: Geometry, o: seq<Box>, t: seq<Box>): (r: seq<real>)
    requires |o| == |t|
    ensures |r| == |t|
  {
    seq(|t|, i requires 0 <= i < |t| => IouTerm(g, t[i], o[i]))
  }

  predicate AllDistanceDefined(g: Geometry, o: seq<Box>, t: seq<Box>)
    requires |o| == |t|
  {
    forall i :: 0 <= i < |t| ==> DistanceDefined(g, t[i], o[i])
  }

  function DiouTerms(g: Geometry, o: seq<Box>, t: seq<Box>): (r: seq<real>)
    requires |o| == |t| && AllDistanceDefined(g, o, t)
    ensures |r| == |t|
  {
    seq(|t|, i requires 0 <= i < |t| => DiouTerm(g, t[i], o[i]))
  }

  predicate AllCiouDefined(g: Geometry, o: seq<Box>, t: seq<Box>)
    requires |o| == |t|
  {
    forall i :: 0 <= i < |t| ==> CiouDefined(g, t[i], o[i])
  }

  function CiouTerms(g: Geometry, o: seq<Box>, t: seq<Box>): (r: seq<real>)
    requires |o| == |t| && AllCiouDefined(g, o, t)
    ensures |r| == |t|
  {
    seq(|t|, i requires 0 <= i < |t| => CiouTerm(g, t[i], o[i]))
  }

  /** The mean IoU term lies in [0, 1] when every IoU does, and is 0 when
      every pair overlaps perfectly. */
  lemma IouTermsMean(g: Geometry, o: seq<Box>, t: seq<Box>)
    requires |o| == |t| > 0
    ensures (forall i :: 0 <= i < |t| ==> 0.0 <= g.iou(t[i], o[i]) <= 1.0) ==>
              0.0 <= Mean(IouTerms(g, o, t)) <= 1.0
    ensures (forall i :: 0 <= i < |t| ==> g.iou(t[i], o[i]) == 1.0) ==>
              Mean(IouTerms(g, o, t)) == 0.0
  {
    var terms := IouTerms(g, o, t);
    if forall i :: 0 <= i < |t| ==> 0.0 <= g.iou(t[i], o[i]) <= 1.0 {
      forall i | 0 <= i < |terms| ensures 0.0 <= terms[i] <= 1.0 {
        assert terms[i] == IouTerm(g, t[i], o[i]);
      }
      MeanBounds(terms, 0.0, 1.0);
    }
    if forall i :: 0 <= i < |t| ==> g.iou(t[i], o[i]) == 1.0 {
      forall i | 0 <= i < |terms| ensures terms[i] == 0.0 {
        assert terms[i] == IouTerm(g, t[i], o[i]);
      }
      MeanConstant(terms, 0.0);
    }
  }

  /** Under sound geometry the mean distance IoU term is at least the mean
      IoU term. */
  lemma DiouTermsDominate(g: Geometry, o: seq<Box>, t: seq<Box>)
    requires |o| == |t| > 0 && AllDistanceDefined(g, o, t)
    ensures Sound(g) ==> Mean(IouTerms(g, o, t)) <= Mean(DiouTerms(g, o, t))
  {
    if Sound(g) {
      var lo, hi := IouTerms(g, o, t), DiouTerms(g, o, t);
      forall i | 0 <= i < |lo| ensures lo[i] <= hi[i] {
        assert hi[i] == DiouTerm(g, t[i], o[i]);
        assert g.centerDistance(t[i], o[i]) >= 0.0 && g.diag(g.mbr(t[i], o[i])) >= 0.0;
      }
      MeanMonotone(lo, hi);
    }
  }

  /** Under sound geometry the mean complete IoU term is at least the mean
      distance IoU term. */
  lemma CiouTermsDominate(g: Geometry, o: seq<Box>, t: seq<Box>)
    requires |o| == |t| > 0 && AllCiouDefined(g, o, t)
    ensures AllDistanceDefined(g, o, t)
    ensures Sound(g) ==> Mean(DiouTerms(g, o, t)) <= Mean(CiouTerms(g, o, t))
  {
    if Sound(g) {
      var lo, hi := DiouTerms(g, o, t), CiouTerms(g, o, t);
      forall i | 0 <= i < |lo| ensures lo[i] <= hi[i] {
        assert hi[i] == CiouTerm(g, t[i], o[i]);
        assert g.iou(t[i], o[i]) <= 1.0;
      }
      MeanMonotone(lo, hi);
    }
  }

  // ---------------------------------------------------------------------------
  // Sequence-level term of the tile loss.

  /** The divisors `area(mbr(output))` and `area(mbr(target))` are non-zero. */
  predicate SeqDefined(g: Geometry, o: seq<Box>, t: seq<Box>)
  {
    g.area(g.mbrOf(o)) != 0.0 && g.area(g.mbrOf(t)) != 0.0
  }

  /** `geo.area` of every box. */
  function Areas(g: Geometry, s: seq<Box>): (r: seq<real>)
    ensures |r| == |s|
  {
    seq(|s|, i requires 0 <= i < |s| => g.area(s[i]))
  }

  /** `sum_si(s) / area(mbr(s)) + |1 - sum(area(s)) / area(mbr(s))|`, never
      negative under sound geometry. */
  function TileScore(g: Geometry, s: seq<Box>): (r: real)
    requires g.area(g.mbrOf(s)) != 0.0
    ensures Sound(g) ==> r >= 0.0
  {
    var a := g.area(g.mbrOf(s));
    QuotientSign(g.sumSi(s), a);
    g.sumSi(s) / a + Abs(1.0 - Sum(Areas(g, s)) / a)
  }

  /** Where the bounding rectangle has positive area, the computed tile score
      is the documented one,
      `(sum of overlaps + |sum of areas - area(mbr)|) / area(mbr)`. */
  lemma TileScoreAsDocumented(g: Geometry, s: seq<Box>)
    requires g.area(g.mbrOf(s)) != 0.0
    ensures g.area(g.mbrOf(s)) > 0.0 ==>
              TileScore(g, s) == (g.sumSi(s) + Abs(Sum(Areas(g, s)) - g.area(g.mbrOf(s)))) / g.area(g.mbrOf(s))
  {
    TileFormsAgree(g.sumSi(s), Sum(Areas(g, s)), g.area(g.mbrOf(s)));
  }

  /** Over a positive area, the computed form of the tile score equals the
      documented one. */
  lemma TileFormsAgree(si: real, total: real, a: real)
    requires a != 0.0
    ensures a > 0.0 ==> si / a + Abs(1.0 - total / a) == (si + Abs(total - a)) / a
  {
    if a > 0.0 {
      var q := total / a;
      assert q * a == total;
      var d := Abs(1.0 - q);
      assert total - a == (q - 1.0) * a;
      if q >= 1.0 {
        ProductSign(q - 1.0, a);
        assert Abs(total - a) == (q - 1.0) * a;
        assert d == q - 1.0;
      } else {
        ProductSign(1.0 - q, a);
        assert Abs(total - a) == (1.0 - q) * a;
        assert d == 1.0 - q;
      }
      assert d * a == Abs(total - a);
      assert (si / a) * a == si;
      assert (si / a + d) * a == si + Abs(total - a);
    }
  }

  /** `1 - iou(mbr(output), mbr(target)) + |p_tile - t_tile|`. With the
      sequence-level IoU at most 1 it is non-negative, and it is 0 exactly
      when the two bounding rectangles overlap perfectly and the tile scores
      agree. */
  function SeqLoss(g: Geometry, o: seq<Box>, t: seq<Box>): (r: real)
    requires SeqDefined(g, o, t)
    ensures g.iou(g.mbrOf(o), g.mbrOf(t)) <= 1.0 ==>
              && r >= 0.0
              && (r == 0.0 <==> g.iou(g.mbrOf(o), g.mbrOf(t)) == 1.0 && TileScore(g, o) == TileScore(g, t))
  {
    1.0 - g.iou(g.mbrOf(o), g.mbrOf(t)) + Abs(TileScore(g, o) - TileScore(g, t))
  }

  // ---------------------------------------------------------------------------
  // The four losses.

  /** What `iou_loss` needs to be defined: aligned inputs and something left
      after filtering. */
  predicate IouReady(o: seq<Box>, t: seq<Box>, ignoreZero: bool)
  {
    |o| == |t| && |Filter(o, t, ignoreZero).1| > 0
  }

  predicate DiouReady(g: Geometry, o: seq<Box>, t: seq<Box>, ignoreZero: bool)
  {
    IouReady(o, t, ignoreZero)
    && var f := Filter(o, t, ignoreZero); AllDistanceDefined(g, f.0, f.1)
  }

  predicate CiouReady(g: Geometry, o: seq<Box>, t: seq<Box>, ignoreZero: bool)
  {
    IouReady(o, t, ignoreZero)
    && var f := Filter(o, t, ignoreZero); AllCiouDefined(g, f.0, f.1)
  }

  predicate TileReady(g: Geometry, o: seq<Box>, t: seq<Box>, ignoreZero: bool)
  {
    CiouReady(g, o, t, ignoreZero)
    && var f := Filter(o, t, ignoreZero); SeqDefined(g, f.0, f.1)
  }

  /** `iou_loss(output, target, ignore_zero=True)`: in [0, 1] when every
      surviving IoU is, and 0 when every surviving pair overlaps perfectly. */
  function IouLoss(g: Geometry, output: seq<Box>, target: seq<Box>, ignoreZero: bool := true): (r: real)
    requires IouReady(output, target, ignoreZero)
    ensures var f := Filter(output, target, ignoreZero);
            (forall i :: 0 <= i < |f.1| ==> 0.0 <= g.iou(f.1[i], f.0[i]) <= 1.0) ==> 0.0 <= r <= 1.0
    ensures var f := Filter(output, target, ignoreZero);
            (forall i :: 0 <= i < |f.1| ==> g.iou(f.1[i], f.0[i]) == 1.0) ==> r == 0.0
  {
    var f := Filter(output, target, ignoreZero);
    IouTermsMean(g, f.0, f.1);
    Mean(IouTerms(g, f.0, f.1))
  }

  /** `distance_iou_loss(output, target, ignore_zero=True)`: under sound
      geometry at least `iou_loss` on the same input. */
  function DistanceIouLoss(g: Geometry, output: seq<Box>, target: seq<Box>, ignoreZero: bool := true): (r: real)
    requires DiouReady(g, output, target, ignoreZero)
    ensures Sound(g) ==> r >= IouLoss(g, output, target, ignoreZero)
  {
    var f := Filter(output, target, ignoreZero);
    DiouTermsDominate(g, f.0, f.1);
    Mean(DiouTerms(g, f.0, f.1))
  }

  /** `complete_iou_loss(output, target, ignore_zero=True)`: wherever it is
      defined `distance_iou_loss` is too, and under sound geometry it is at
      least `distance_iou_loss` on the same input. */
  function CompleteIouLoss(g: Geometry, output: seq<Box>, target: seq<Box>, ignoreZero: bool := true): (r: real)
    requires CiouReady(g, output, target, ignoreZero)
    ensures DiouReady(g, output, target, ignoreZero)
    ensures Sound(g) ==> r >= DistanceIouLoss(g, output, target, ignoreZero)
  {
    var f := Filter(output, target, ignoreZero);
    CiouTermsDominate(g, f.0, f.1);
    Mean(CiouTerms(g, f.0, f.1))
  }

  /** `tile_iou_loss(output, target, ignore_zero=True)`: the averaged complete
      IoU terms plus the sequence term, added once per sample; under sound
      geometry it is at least `complete_iou_loss` on the same input. */
  function TileIouLoss(g: Geometry, output: seq<Box>, target: seq<Box>, ignoreZero: bool := true): (r: real)
    requires TileReady(g, output, target, ignoreZero)
    ensures CiouReady(g, output, target, ignoreZero)
    ensures var f := Filter(output, target, ignoreZero);
            r == CompleteIouLoss(g, output, target, ignoreZero) + SeqLoss(g, f.0, f.1)
    ensures Sound(g) ==> r >= CompleteIouLoss(g, output, target, ignoreZero)
  {
    var f := Filter(output, target, ignoreZero);
    Mean(CiouTerms(g, f.0, f.1)) + SeqLoss(g, f.0, f.1)
  }

  // ---------------------------------------------------------------------------
  // Properties of the losses.

  /** The four losses in their order of strictness, the IoU loss non-negative. */
  lemma LossChain(g: Geometry, output: seq<Box>, target: seq<Box>, ignoreZero: bool)
    requires TileReady(g, output, target, ignoreZero)
    requires Sound(g)
    ensures DiouReady(g, output, target, ignoreZero)
    ensures 0.0 <= IouLoss(g, output, target, ignoreZero)
    ensures IouLoss(g, output, target, ignoreZero) <= DistanceIouLoss(g, output, target, ignoreZero)
    ensures DistanceIouLoss(g, output, target, ignoreZero) <= CompleteIouLoss(g, output, target, ignoreZero)
    ensures CompleteIouLoss(g, output, target, ignoreZero) <= TileIouLoss(g, output, target, ignoreZero)
  {
    var f := Filter(output, target, ignoreZero);
    assert forall i :: 0 <= i < |f.1| ==> 0.0 <= g.iou(f.1[i], f.0[i]) <= 1.0;
  }

  /** Each loss depends on its inputs only through the filtered pair. */
  lemma LossesFactorThroughFilter(g: Geometry, o1: seq<Box>, t1: seq<Box>, z1: bool,
                                  o2: seq<Box>, t2: seq<Box>, z2: bool)
    requires |o1| == |t1| && |o2| == |t2|
    requires Filter(o1, t1, z1) == Filter(o2, t2, z2)
    ensures IouReady(o1, t1, z1) ==>
              IouReady(o2, t2, z2) && IouLoss(g, o1, t1, z1) == IouLoss(g, o2, t2, z2)
    ensures DiouReady(g, o1, t1, z1) ==>
              DiouReady(g, o2, t2, z2) && DistanceIouLoss(g, o1, t1, z1) == DistanceIouLoss(g, o2, t2, z2)
    ensures CiouReady(g, o1, t1, z1) ==>
              CiouReady(g, o2, t2, z2) && CompleteIouLoss(g, o1, t1, z1) == CompleteIouLoss(g, o2, t2, z2)
    ensures TileReady(g, o1, t1, z1) ==>
              TileReady(g, o2, t2, z2) && TileIouLoss(g, o1, t1, z1) == TileIouLoss(g, o2, t2, z2)
  {
  }

  /** With `ignore_zero`, `iou_loss` equals `iou_loss` of the already
      filtered pair, with or without filtering it again. */
  lemma IouLossSeesOnlyFilteredRows(g: Geometry, output: seq<Box>, target: seq<Box>)
    requires IouReady(output, target, true)
    ensures var f := Filter(output, target, true);
            && IouReady(f.0, f.1, false) && IouReady(f.0, f.1, true)
            && IouLoss(g, output, target, true) == IouLoss(g, f.0, f.1, false)
            && IouLoss(g, output, target, true) == IouLoss(g, f.0, f.1, true)
  {
    var f := Filter(output, target, true);
    FilterIdempotent(output, target, true);
    LossesFactorThroughFilter(g, output, target, true, f.0, f.1, false);
    LossesFactorThroughFilter(g, output, target, true, f.0, f.1, true);
  }

  /** The same for `distance_iou_loss`. */
  lemma DiouLossSeesOnlyFilteredRows(g: Geometry, output: seq<Box>, target: seq<Box>)
    requires DiouReady(g, output, target, true)
    ensures var f := Filter(output, target, true);
            && DiouReady(g, f.0, f.1, false) && DiouReady(g, f.0, f.1, true)
            && DistanceIouLoss(g, output, target, true) == DistanceIouLoss(g, f.0, f.1, false)
            && DistanceIouLoss(g, output, target, true) == DistanceIouLoss(g, f.0, f.1, true)
  {
    var f := Filter(output, target, true);
    FilterIdempotent(output, target, true);
    LossesFactorThroughFilter(g, output, target, true, f.0, f.1, false);
    LossesFactorThroughFilter(g, output, target, true, f.0, f.1, true);
  }

  /** The same for `complete_iou_loss`. */
  lemma CiouLossSeesOnlyFilteredRows(g: Geometry, output: seq<Box>, target: seq<Box>)
    requires CiouReady(g, output, target, true)
    ensures var f := Filter(output, target, true);
            && CiouReady(g, f.0, f.1, false) && CiouReady(g, f.0, f.1, true)
            && CompleteIouLoss(g, output, target, true) == CompleteIouLoss(g, f.0, f.1, false)
            && CompleteIouLoss(g, output, target, true) == CompleteIouLoss(g, f.0, f.1, true)
  {
    var f := Filter(output, target, true);
    FilterIdempotent(output, target, true);
    LossesFactorThroughFilter(g, output, target, true, f.0, f.1, false);
    LossesFactorThroughFilter(g, output, target, true, f.0, f.1, true);
  }

  /** The same for `tile_iou_loss`. */
  lemma TileLossSeesOnlyFilteredRows(g: Geometry, output: seq<Box>, target: seq<Box>)
    requires TileReady(g, output, target, true)
    ensures var f := Filter(output, target, true);
            && TileReady(g, f.0, f.1, false) && TileReady(g, f.0, f.1, true)
            && TileIouLoss(g, output, target, true) == TileIouLoss(g, f.0, f.1, false)
            && TileIouLoss(g, output, target, true) == TileIouLoss(g, f.0, f.1, true)
  {
    var f := Filter(output, target, true);
    FilterIdempotent(output, target, true);
    LossesFactorThroughFilter(g, output, target, true, f.0, f.1, false);
    LossesFactorThroughFilter(g, output, target, true, f.0, f.1, true);
  }
}
