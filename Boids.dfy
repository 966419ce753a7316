/** One boid of the flocking simulation (src/Boid.cpp).
    A `Boid` is an immutable value: every operation of the C++ class is `const`
    and yields a fresh boid, so the class becomes a datatype and its operations
    become functions. The accumulation loops over the neighbour list are methods
    proved against the functions that specify them. */
module Boids {
  import opened Geometry

  /** The C++ constructor `Boid(coords, velocity, cohesion, separation, alignment,
      attraction, edges)` is the datatype constructor; `getCoordinates` and
      `getVelocity` are the destructors `coords` and `velocity`. */
  datatype Boid = Boid(
    coords: Point,
    velocity: Vector,
    cohesion: real,
    separation: real,
    alignment: real,
    attraction: real,
    edges: Point)

  /** The transcendental parts of the C++ code, left uninterpreted.
      - `dist`: the free function `d(a, b)`, the Euclidean distance of two points.
      - `pow`: `pow(base, exponent)`, non-negative for the non-negative distances it gets.
      - `len`: `Vector::len`, the Euclidean norm.
      - `axisCos`: for a vector v, the pair `(cos(acos(x̂ · v̂)), cos(acos(ŷ · v̂)))`
        obtained by normalising v and the two basis vectors.
      - `repulsion`: `collision_dist / pow(dist, 2)` with `collision_dist = 100`; its
        IEEE value at distance 0 is infinite, which no real stands for. */
  datatype Numerics = Numerics(
    dist: (Point, Point) -> NonNegReal,
    pow: (real, real) -> NonNegReal,
    len: Vector -> NonNegReal,
    axisCos: Vector -> Vector,
    repulsion: real -> real)

  /** Exponent of the perception fall-off, between inverse square and inverse cube. */
  const FALL_OFF: real := 2.75
  /** Smaller values let boids perceive the destination from further away. */
  const PERCEP_DECAY: real := 0.1
  const DRAG_COEFFICIENT: real := 0.005

  /** Coefficients and world edges: the part of a boid no tick changes. */
  predicate SameTraits(a: Boid, b: Boid) {
    a.cohesion == b.cohesion && a.separation == b.separation
    && a.alignment == b.alignment && a.attraction == b.attraction
    && a.edges == b.edges
  }

  /** The world `[0, edges.x] × [0, edges.y]`. */
  predicate InWorld(p: Point, edges: Point) {
    InBox(p, ZERO, edges)
  }

  // ---------------------------------------------------------------------------
  // Perception-weighted averages (accelCohesion and accelAlignment)
  // ---------------------------------------------------------------------------

  /** `min(1.0, 1.0 / pow(dist, 2.75))`. When `pow` yields 0 the C++ quotient is
      +infinity and `min` picks 1. */
  function Perception(n: Numerics, dist: real): (w: real)
    ensures 0.0 < w <= 1.0
    ensures n.pow(dist, FALL_OFF) <= 1.0 ==> w == 1.0
    ensures n.pow(dist, FALL_OFF) >= 1.0 ==> w == 1.0 / n.pow(dist, FALL_OFF)
  {
    var p := n.pow(dist, FALL_OFF);
    if p == 0.0 then 1.0
    else
      ReciprocalBounds(p);
      Min(1.0, 1.0 / p)
  }

  lemma PositiveFactor(a: real, b: real)
    requires a > 0.0 && a * b >= 0.0
    ensures b >= 0.0
  {
  }

  lemma ReciprocalBounds(p: real)
    requires p > 0.0
    ensures 1.0 / p > 0.0
    ensures p <= 1.0 ==> 1.0 / p >= 1.0
    ensures p >= 1.0 ==> 1.0 / p <= 1.0
  {
    var q := 1.0 / p;
    assert p * q == 1.0;
    PositiveFactor(p, q);
    assert p * (q - 1.0) == 1.0 - p;
    assert p * (1.0 - q) == p - 1.0;
    if p <= 1.0 {
      PositiveFactor(p, q - 1.0);
    } else {
      PositiveFactor(p, 1.0 - q);
    }
  }

  /** The perception weight each neighbour gets, in list order. */
  function Weights(n: Numerics, b: Boid, others: seq<Boid>): (w: seq<real>)
    ensures |w| == |others|
    ensures forall k :: 0 <= k < |w| ==> w[k] == Perception(n, n.dist(b.coords, others[k].coords))
    ensures forall k :: 0 <= k < |w| ==> 0.0 < w[k] <= 1.0
  {
    seq(|others|, k requires 0 <= k < |others| => Perception(n, n.dist(b.coords, others[k].coords)))
  }

  function Positions(others: seq<Boid>): seq<Point> {
    seq(|others|, k requires 0 <= k < |others| => others[k].coords)
  }

  function Velocities(others: seq<Boid>): seq<Vector> {
    seq(|others|, k requires 0 <= k < |others| => others[k].velocity)
  }

  predicate AllPositive(w: seq<real>) {
    forall k :: 0 <= k < |w| ==> w[k] > 0.0
  }

  /** The sum of `w[k] * vs[k]`, accumulated front to back as the loops do. */
  function WeightedSum(w: seq<real>, vs: seq<Vec>): Vec
    requires |w| == |vs|
    decreases |w|
  {
    if |w| == 0 then ZERO
    else Add(WeightedSum(w[..|w| - 1], vs[..|vs| - 1]), Scale(w[|w| - 1], vs[|vs| - 1]))
  }

  /** `percepTotal`: the sum of the weights. */
  function Total(w: seq<real>): real
    decreases |w|
  {
    if |w| == 0 then 0.0 else Total(w[..|w| - 1]) + w[|w| - 1]
  }

  lemma {:induction false} TotalPositive(w: seq<real>)
    requires |w| > 0 && AllPositive(w)
    ensures Total(w) > 0.0
  {
    if |w| > 1 {
      TotalPositive(w[..|w| - 1]);
    }
  }

  /** The weighted average; only defined for a non-empty list, because the C++
      code divides by the total weight whatever it is. */
  function WeightedMean(w: seq<real>, vs: seq<Vec>): Vec
    requires |w| == |vs| > 0 && AllPositive(w)
  {
    TotalPositive(w);
    Div(WeightedSum(w, vs), Total(w))
  }

  lemma MulMono(a: real, b: real, c: real)
    requires a >= 0.0 && b <= c
    ensures a * b <= a * c
  {
  }

  /** One accumulation step keeps a running sum between `total * lo` and `total * hi`. */
  lemma AccumulateBound(t: real, w: real, total: real, p: real, v: real, sum: real, lo: real, hi: real)
    requires w >= 0.0 && total == t + w && sum == p + w * v
    requires t * lo <= p <= t * hi && lo <= v <= hi
    ensures total * lo <= sum <= total * hi
  {
    MulMono(w, lo, v);
    MulMono(w, v, hi);
  }

  /** `AccumulateBound` on both axes at once, over plain reals. */
  lemma AccumulateBounds(px: real, py: real, t: real, w: real, vx: real, vy: real, total: real,
                         sx: real, sy: real, lox: real, loy: real, hix: real, hiy: real)
    requires w >= 0.0 && total == t + w && sx == px + w * vx && sy == py + w * vy
    requires t * lox <= px <= t * hix && t * loy <= py <= t * hiy
    requires lox <= vx <= hix && loy <= vy <= hiy
    ensures total * lox <= sx <= total * hix && total * loy <= sy <= total * hiy
  {
    AccumulateBound(t, w, total, px, vx, sx, lox, hix);
    AccumulateBound(t, w, total, py, vy, sy, loy, hiy);
  }

  /** `AccumulateBound` for a vector step. */
  lemma AccumulateBoxBound(prev: Vec, t: real, w: real, v: Vec, total: real, sum: Vec, lo: Vec, hi: Vec)
    requires w >= 0.0 && InBox(prev, Scale(t, lo), Scale(t, hi)) && InBox(v, lo, hi)
    requires total == t + w && sum == Add(prev, Scale(w, v))
    ensures InBox(sum, Scale(total, lo), Scale(total, hi))
  {
    AccumulateBounds(prev.x, prev.y, t, w, v.x, v.y, total, sum.x, sum.y, lo.x, lo.y, hi.x, hi.y);
  }

  /** Vectors inside a box add up, weighted, to a vector inside the box scaled by
      the total weight. */
  lemma {:induction false} WeightedSumBounds(w: seq<real>, vs: seq<Vec>, lo: Vec, hi: Vec)
    requires |w| == |vs| && AllPositive(w)
    requires forall k :: 0 <= k < |vs| ==> InBox(vs[k], lo, hi)
    ensures InBox(WeightedSum(w, vs), Scale(Total(w), lo), Scale(Total(w), hi))
  {
    if |w| > 0 {
      var m := |w| - 1;
      WeightedSumBounds(w[..m], vs[..m], lo, hi);
      AccumulateBoxBound(WeightedSum(w[..m], vs[..m]), Total(w[..m]), w[m], vs[m], Total(w), WeightedSum(w, vs), lo, hi);
    }
  }

  lemma QuotientBounds(s: real, t: real, lo: real, hi: real)
    requires t > 0.0 && t * lo <= s <= t * hi
    ensures lo <= s / t <= hi
  {
    var q := s / t;
    assert t * q == s;
    assert t * (q - lo) == s - t * lo;
    PositiveFactor(t, q - lo);
    assert t * (hi - q) == t * hi - s;
    PositiveFactor(t, hi - q);
  }

  /** A weighted average with positive weights lies in every box holding all the values. */
  lemma MeanWithinBounds(w: seq<real>, vs: seq<Vec>, lo: Vec, hi: Vec)
    requires |w| == |vs| > 0 && AllPositive(w)
    requires forall k :: 0 <= k < |vs| ==> InBox(vs[k], lo, hi)
    ensures InBox(WeightedMean(w, vs), lo, hi)
  {
    WeightedSumBounds(w, vs, lo, hi);
    TotalPositive(w);
    var s := WeightedSum(w, vs);
    QuotientBounds(s.x, Total(w), lo.x, hi.x);
    QuotientBounds(s.y, Total(w), lo.y, hi.y);
  }

  lemma {:induction false} WeightedSumOfConstant(w: seq<real>, vs: seq<Vec>, u: Vec)
    requires |w| == |vs|
    requires forall k :: 0 <= k < |vs| ==> vs[k] == u
    ensures WeightedSum(w, vs) == Scale(Total(w), u)
  {
    if |w| > 0 {
      var m := |w| - 1;
      WeightedSumOfConstant(w[..m], vs[..m], u);
      assert vs[m] == u;
      var t := Total(w[..m]);
      assert (t + w[m]) * u.x == t * u.x + w[m] * u.x;
      assert (t + w[m]) * u.y == t * u.y + w[m] * u.y;
    }
  }

  /** Averaging identical values gives that value back, whatever the weights. */
  lemma MeanOfConstant(w: seq<real>, vs: seq<Vec>, u: Vec)
    requires |w| == |vs| > 0 && AllPositive(w)
    requires forall k :: 0 <= k < |vs| ==> vs[k] == u
    ensures WeightedMean(w, vs) == u
  {
    WeightedSumOfConstant(w, vs, u);
    TotalPositive(w);
    var t := Total(w);
    assert (t * u.x) / t == u.x;
    assert (t * u.y) / t == u.y;
  }

  // ---------------------------------------------------------------------------
  // The four behavioural accelerations
  // ---------------------------------------------------------------------------

  /** The perception-weighted centroid of the neighbours' positions. */
  function Centroid(n: Numerics, b: Boid, others: seq<Boid>): Point
    requires |others| > 0
  {
    WeightedMean(Weights(n, b, others), Positions(others))
  }

  /** Cohesion: head toward the centroid, with the displacement `coords - centroid`
      split onto the axes through `axisCos` and negated. */
  function Cohesion(n: Numerics, b: Boid, others: seq<Boid>): Vector
    requires |others| > 0
  {
    var diff := Sub(b.coords, Centroid(n, b, others));
    var norm := n.len(diff);
    var dir := n.axisCos(diff);
    Vec(0.0 - norm * dir.x, 0.0 - norm * dir.y)
  }

  /** The centroid never leaves the bounding box of the neighbours. */
  lemma CentroidWithinNeighbours(n: Numerics, b: Boid, others: seq<Boid>, lo: Point, hi: Point)
    requires |others| > 0
    requires forall k :: 0 <= k < |others| ==> InBox(others[k].coords, lo, hi)
    ensures InBox(Centroid(n, b, others), lo, hi)
  {
    MeanWithinBounds(Weights(n, b, others), Positions(others), lo, hi);
  }

  /** Neighbours gathered on one point have that point as their centroid. */
  lemma CentroidOfGatheredFlock(n: Numerics, b: Boid, others: seq<Boid>, p: Point)
    requires |others| > 0
    requires forall k :: 0 <= k < |others| ==> others[k].coords == p
    ensures Centroid(n, b, others) == p
  {
    MeanOfConstant(Weights(n, b, others), Positions(others), p);
  }

  /** The loop of accelCohesion followed by its axis decomposition. */
  method AccelCohesion(n: Numerics, b: Boid, others: seq<Boid>) returns (acc: Vector)
    requires |others| > 0
    ensures acc == Cohesion(n, b, others)
  {
    acc := ZERO;
    var centroid: Point := ZERO;
    var percepTotal := 0.0;
    ghost var w := Weights(n, b, others);
    ghost var ps := Positions(others);
    for i := 0 to |others|
      invariant centroid == WeightedSum(w[..i], ps[..i])
      invariant percepTotal == Total(w[..i])
    {
      var dist := n.dist(b.coords, others[i].coords);
      var percepFactor := Perception(n, dist);
      centroid := Add(centroid, Scale(percepFactor, others[i].coords));
      percepTotal := percepTotal + percepFactor;
      assert w[..i + 1][..i] == w[..i] && ps[..i + 1][..i] == ps[..i];
    }
    assert w[..|others|] == w && ps[..|others|] == ps;
    TotalPositive(w);
    centroid := Div(centroid, percepTotal);
    var diff := Sub(b.coords, centroid);
    var norm := n.len(diff);
    var dir := n.axisCos(diff);
    acc := Vec(acc.x - norm * dir.x, acc.y - norm * dir.y);
  }

  /** The repulsion one neighbour exerts, at full strength whatever its distance. */
  function Repulsion(n: Numerics, b: Boid, other: Boid): Vector {
    var diff := Sub(b.coords, other.coords);
    Scale(n.repulsion(n.len(diff)), n.axisCos(diff))
  }

  /** Separation: the sum of the repulsions of all neighbours. */
  function Separation(n: Numerics, b: Boid, others: seq<Boid>): Vector
    decreases |others|
  {
    if |others| == 0 then ZERO
    else Add(Separation(n, b, others[..|others| - 1]), Repulsion(n, b, others[|others| - 1]))
  }

  /** Separation adds up over any split of the neighbour list: every neighbour
      contributes on its own, with no perception fall-off. */
  lemma {:induction false} SeparationSplit(n: Numerics, b: Boid, xs: seq<Boid>, ys: seq<Boid>)
    ensures Separation(n, b, xs + ys) == Add(Separation(n, b, xs), Separation(n, b, ys))
  {
    if |ys| == 0 {
      assert xs + ys == xs;
    } else {
      var zs := xs + ys;
      assert zs[..|zs| - 1] == xs + ys[..|ys| - 1];
      assert zs[|zs| - 1] == ys[|ys| - 1];
      SeparationSplit(n, b, xs, ys[..|ys| - 1]);
    }
  }

  /** The loop of accelSeparation. */
  method AccelSeparation(n: Numerics, b: Boid, others: seq<Boid>) returns (acc: Vector)
    ensures acc == Separation(n, b, others)
  {
    acc := ZERO;
    for i := 0 to |others|
      invariant acc == Separation(n, b, others[..i])
    {
      var diff := Sub(b.coords, others[i].coords);
      var dist := n.len(diff);
      var dir := n.axisCos(diff);
      assert others[..i + 1][..i] == others[..i];
      assert Separation(n, b, others[..i + 1]) == Add(acc, Repulsion(n, b, others[i]));
      acc := Vec(acc.x + n.repulsion(dist) * dir.x, acc.y + n.repulsion(dist) * dir.y);
    }
    assert others[..|others|] == others;
  }

  /** The perception-weighted average velocity of the neighbours. */
  function CommonVelocity(n: Numerics, b: Boid, others: seq<Boid>): Vector
    requires |others| > 0
  {
    WeightedMean(Weights(n, b, others), Velocities(others))
  }

  /** Alignment: accelerate by the gap between the common velocity and one's own. */
  function Alignment(n: Numerics, b: Boid, others: seq<Boid>): (acc: Vector)
    requires |others| > 0
    ensures acc == Sub(CommonVelocity(n, b, others), b.velocity)
  {
    Sub(ZERO, Sub(b.velocity, CommonVelocity(n, b, others)))
  }

  /** The common velocity lies in every box holding all the neighbours' velocities. */
  lemma CommonVelocityWithinNeighbours(n: Numerics, b: Boid, others: seq<Boid>, lo: Vector, hi: Vector)
    requires |others| > 0
    requires forall k :: 0 <= k < |others| ==> InBox(others[k].velocity, lo, hi)
    ensures InBox(CommonVelocity(n, b, others), lo, hi)
  {
    MeanWithinBounds(Weights(n, b, others), Velocities(others), lo, hi);
  }

  /** In a flock that shares one velocity u, alignment steers exactly to u, and
      a boid already moving at u feels no alignment at all. */
  lemma AlignmentWithUniformHeading(n: Numerics, b: Boid, others: seq<Boid>, u: Vector)
    requires |others| > 0
    requires forall k :: 0 <= k < |others| ==> others[k].velocity == u
    ensures Alignment(n, b, others) == Sub(u, b.velocity)
    ensures b.velocity == u ==> Alignment(n, b, others) == ZERO
  {
    MeanOfConstant(Weights(n, b, others), Velocities(others), u);
  }

  /** The loop of accelAlignment followed by `acc -= velocity - commonVeloc`. */
  method AccelAlignment(n: Numerics, b: Boid, others: seq<Boid>) returns (acc: Vector)
    requires |others| > 0
    ensures acc == Alignment(n, b, others)
  {
    acc := ZERO;
    var commonVeloc: Vector := ZERO;
    var percepTotal := 0.0;
    ghost var w := Weights(n, b, others);
    ghost var vs := Velocities(others);
    for i := 0 to |others|
      invariant commonVeloc == WeightedSum(w[..i], vs[..i])
      invariant percepTotal == Total(w[..i])
    {
      var dist := n.dist(b.coords, others[i].coords);
      var percepFactor := Perception(n, dist);
      commonVeloc := Add(commonVeloc, Scale(percepFactor, others[i].velocity));
      percepTotal := percepTotal + percepFactor;
      assert w[..i + 1][..i] == w[..i] && vs[..i + 1][..i] == vs[..i];
    }
    assert w[..|others|] == w && vs[..|others|] == vs;
    TotalPositive(w);
    commonVeloc := Div(commonVeloc, percepTotal);
    var velocDiff := Sub(b.velocity, commonVeloc);
    acc := Sub(acc, velocDiff);
  }

  /** `1 / (1 + 0.1 * distance)`: how strongly the destination is perceived. */
  function TowardStrength(distance: real): (s: real)
    requires distance >= 0.0
    ensures 0.0 < s <= 1.0
  {
    1.0 / (1.0 + PERCEP_DECAY * distance)
  }

  /** A nearer destination is perceived more strongly, and equally near ones equally. */
  lemma TowardStrengthDecreasing(d1: real, d2: real)
    requires 0.0 <= d1 <= d2
    ensures TowardStrength(d2) <= TowardStrength(d1)
    ensures d1 < d2 ==> TowardStrength(d2) < TowardStrength(d1)
  {
    var a, c := 1.0 + PERCEP_DECAY * d1, 1.0 + PERCEP_DECAY * d2;
    assert 1.0 <= a <= c;
    assert a * c >= 1.0 by { MulMono(a, 1.0, c); }
    var gap := 1.0 / a - 1.0 / c;
    assert (a * c) * gap == c - a;
    PositiveFactor(a * c, gap);
    if d1 < d2 {
      assert c - a > 0.0;
      PositiveFactorStrict(a * c, gap);
    }
  }

  lemma PositiveFactorStrict(a: real, b: real)
    requires a > 0.0 && a * b > 0.0
    ensures b > 0.0
  {
    PositiveFactor(a, b);
  }

  /** One axis of the attraction: `0 - s·c` with a strength s in (0, 1] opposes
      the direction cosine c and is no larger than it. */
  lemma PullAlongAxis(s: real, c: real, r: real)
    requires 0.0 < s <= 1.0 && r == 0.0 - s * c
    ensures r * c <= 0.0 && Abs(r) <= Abs(c)
    ensures c != 0.0 ==> r * c < 0.0
  {
    assert r * c == -(s * (c * c));
    if c >= 0.0 {
      MulMono(c, s, 1.0);
    } else {
      MulMono(-c, s, 1.0);
    }
  }

  /** accelToward: head toward the destination. Along each axis the pull opposes
      the direction cosine of `coords - destination` (so it points at the
      destination) and is at most that cosine in size, the strength being
      `TowardStrength` of the distance. */
  function AccelToward(n: Numerics, b: Boid, destination: Point): (acc: Vector)
    ensures var dir := n.axisCos(Sub(b.coords, destination));
            acc.x * dir.x <= 0.0 && acc.y * dir.y <= 0.0
            && Abs(acc.x) <= Abs(dir.x) && Abs(acc.y) <= Abs(dir.y)
    ensures var dir := n.axisCos(Sub(b.coords, destination));
            (dir.x != 0.0 ==> acc.x * dir.x < 0.0) && (dir.y != 0.0 ==> acc.y * dir.y < 0.0)
  {
    var diff := Sub(b.coords, destination);
    var norm := TowardStrength(n.len(diff));
    var dir := n.axisCos(diff);
    PullAlongAxis(norm, dir.x, 0.0 - norm * dir.x);
    PullAlongAxis(norm, dir.y, 0.0 - norm * dir.y);
    Vec(0.0 - norm * dir.x, 0.0 - norm * dir.y)
  }

  /** Viscous drag opposing the velocity; exactly zero for a boid at rest. */
  function StokesDrag(n: Numerics, velocity: Vector): (force: Vector)
    ensures velocity == ZERO ==> force == ZERO
  {
    if velocity == ZERO then ZERO
    else
      var drag := -1.0 * DRAG_COEFFICIENT * n.len(velocity);
      var dir := n.axisCos(velocity);
      Vec(drag * dir.x, drag * dir.y)
  }

  /** The coefficient-weighted sum of the four rule accelerations, accumulated
      from zero in the order cohesion, separation, alignment, attraction. */
  function Blend(b: Boid, cohesion: Vector, separation: Vector, alignment: Vector, toward: Vector): (acc: Vector)
    ensures b.separation == 0.0 && b.alignment == 0.0 && b.attraction == 0.0 ==> acc == Scale(b.cohesion, cohesion)
    ensures b.cohesion == 0.0 && b.alignment == 0.0 && b.attraction == 0.0 ==> acc == Scale(b.separation, separation)
    ensures b.cohesion == 0.0 && b.separation == 0.0 && b.attraction == 0.0 ==> acc == Scale(b.alignment, alignment)
    ensures b.cohesion == 0.0 && b.separation == 0.0 && b.alignment == 0.0 ==> acc == Scale(b.attraction, toward)
  {
    SingleTerm(b.cohesion, b.separation, b.alignment, b.attraction, cohesion.x, separation.x, alignment.x, toward.x);
    SingleTerm(b.cohesion, b.separation, b.alignment, b.attraction, cohesion.y, separation.y, alignment.y, toward.y);
    var totAcc := ZERO;
    var withCohesion := Add(totAcc, Scale(b.cohesion, cohesion));
    var withSeparation := Add(withCohesion, Scale(b.separation, separation));
    var withAlignment := Add(withSeparation, Scale(b.alignment, alignment));
    Add(withAlignment, Scale(b.attraction, toward))
  }

  /** No neighbour sits exactly on the boid. Where one does, the C++ separation
      divides by a zero distance and the acceleration is not a number. */
  predicate Apart(b: Boid, others: seq<Boid>) {
    forall k :: 0 <= k < |others| ==> others[k].coords != b.coords
  }

  /** compositeAcceleration. Each rule enters through its own coefficient only:
      a boid apart from its neighbours with a single rule switched on
      accelerates by that coefficient times that rule. */
  function CompositeAcceleration(n: Numerics, b: Boid, others: seq<Boid>, destination: Point): (acc: Vector)
    requires |others| > 0
    ensures Apart(b, others) && b.separation == 0.0 && b.alignment == 0.0 && b.attraction == 0.0
            ==> acc == Scale(b.cohesion, Cohesion(n, b, others))
    ensures Apart(b, others) && b.cohesion == 0.0 && b.alignment == 0.0 && b.attraction == 0.0
            ==> acc == Scale(b.separation, Separation(n, b, others))
    ensures Apart(b, others) && b.cohesion == 0.0 && b.separation == 0.0 && b.attraction == 0.0
            ==> acc == Scale(b.alignment, Alignment(n, b, others))
    ensures Apart(b, others) && b.cohesion == 0.0 && b.separation == 0.0 && b.alignment == 0.0
            ==> acc == Scale(b.attraction, AccelToward(n, b, destination))
  {
    Blend(b, Cohesion(n, b, others), Separation(n, b, others), Alignment(n, b, others), AccelToward(n, b, destination))
  }

  /** One component of `Blend` with three of its four coefficients zero. */
  lemma SingleTerm(c1: real, c2: real, c3: real, c4: real, x1: real, x2: real, x3: real, x4: real)
    ensures c2 == 0.0 && c3 == 0.0 && c4 == 0.0 ==> 0.0 + c1 * x1 + c2 * x2 + c3 * x3 + c4 * x4 == c1 * x1
    ensures c1 == 0.0 && c3 == 0.0 && c4 == 0.0 ==> 0.0 + c1 * x1 + c2 * x2 + c3 * x3 + c4 * x4 == c2 * x2
    ensures c1 == 0.0 && c2 == 0.0 && c4 == 0.0 ==> 0.0 + c1 * x1 + c2 * x2 + c3 * x3 + c4 * x4 == c3 * x3
    ensures c1 == 0.0 && c2 == 0.0 && c3 == 0.0 ==> 0.0 + c1 * x1 + c2 * x2 + c3 * x3 + c4 * x4 == c4 * x4
  {
  }

  /** The boid whose coefficients are the sums of those of `b1` and `b2`. */
  function SumOfCoefficients(b1: Boid, b2: Boid): Boid {
    b1.(cohesion := b1.cohesion + b2.cohesion, separation := b1.separation + b2.separation,
        alignment := b1.alignment + b2.alignment, attraction := b1.attraction + b2.attraction)
  }

  /** Blending is linear in the coefficients. */
  lemma BlendSuperposition(b1: Boid, b2: Boid, cohesion: Vector, separation: Vector, alignment: Vector, toward: Vector)
    ensures Blend(SumOfCoefficients(b1, b2), cohesion, separation, alignment, toward)
            == Add(Blend(b1, cohesion, separation, alignment, toward), Blend(b2, cohesion, separation, alignment, toward))
  {
    Superpose(b1.cohesion, b1.separation, b1.alignment, b1.attraction, b2.cohesion, b2.separation, b2.alignment, b2.attraction,
              cohesion.x, separation.x, alignment.x, toward.x);
    Superpose(b1.cohesion, b1.separation, b1.alignment, b1.attraction, b2.cohesion, b2.separation, b2.alignment, b2.attraction,
              cohesion.y, separation.y, alignment.y, toward.y);
  }

  /** The rules combine linearly in the coefficients: for two boids at the same
      position and velocity, the boid carrying the sums of their coefficients
      accelerates by the sum of their accelerations. */
  lemma CompositeSuperposition(n: Numerics, b1: Boid, b2: Boid, others: seq<Boid>, destination: Point)
    requires |others| > 0 && b1.coords == b2.coords && b1.velocity == b2.velocity
    ensures CompositeAcceleration(n, SumOfCoefficients(b1, b2), others, destination)
            == Add(CompositeAcceleration(n, b1, others, destination), CompositeAcceleration(n, b2, others, destination))
  {
    var b := SumOfCoefficients(b1, b2);
    CohesionSeesOnlyPosition(n, b, b1, others);
    CohesionSeesOnlyPosition(n, b2, b1, others);
    SeparationSeesOnlyPosition(n, b, b1, others);
    SeparationSeesOnlyPosition(n, b2, b1, others);
    AlignmentSeesOnlyMotion(n, b, b1, others);
    AlignmentSeesOnlyMotion(n, b2, b1, others);
    TowardSeesOnlyPosition(n, b, b1, destination);
    TowardSeesOnlyPosition(n, b2, b1, destination);
    BlendSuperposition(b1, b2, Cohesion(n, b1, others), Separation(n, b1, others), Alignment(n, b1, others), AccelToward(n, b1, destination));
  }

  lemma Superpose(c1: real, c2: real, c3: real, c4: real, d1: real, d2: real, d3: real, d4: real,
                  x1: real, x2: real, x3: real, x4: real)
    ensures 0.0 + (c1 + d1) * x1 + (c2 + d2) * x2 + (c3 + d3) * x3 + (c4 + d4) * x4
            == (0.0 + c1 * x1 + c2 * x2 + c3 * x3 + c4 * x4) + (0.0 + d1 * x1 + d2 * x2 + d3 * x3 + d4 * x4)
  {
  }

  lemma TowardSeesOnlyPosition(n: Numerics, b1: Boid, b2: Boid, destination: Point)
    requires b1.coords == b2.coords
    ensures AccelToward(n, b1, destination) == AccelToward(n, b2, destination)
  {
  }

  lemma CohesionSeesOnlyPosition(n: Numerics, b1: Boid, b2: Boid, others: seq<Boid>)
    requires |others| > 0 && b1.coords == b2.coords
    ensures Cohesion(n, b1, others) == Cohesion(n, b2, others)
  {
    WeightsSeeOnlyPosition(n, b1, b2, others);
  }

  lemma AlignmentSeesOnlyMotion(n: Numerics, b1: Boid, b2: Boid, others: seq<Boid>)
    requires |others| > 0 && b1.coords == b2.coords && b1.velocity == b2.velocity
    ensures Alignment(n, b1, others) == Alignment(n, b2, others)
  {
    WeightsSeeOnlyPosition(n, b1, b2, others);
  }

  lemma WeightsSeeOnlyPosition(n: Numerics, b1: Boid, b2: Boid, others: seq<Boid>)
    requires b1.coords == b2.coords
    ensures Weights(n, b1, others) == Weights(n, b2, others)
  {
    var w1, w2 := Weights(n, b1, others), Weights(n, b2, others);
    assert forall k :: 0 <= k < |w1| ==> w1[k] == w2[k];
  }

  lemma {:induction false} SeparationSeesOnlyPosition(n: Numerics, b1: Boid, b2: Boid, others: seq<Boid>)
    requires b1.coords == b2.coords
    ensures Separation(n, b1, others) == Separation(n, b2, others)
    decreases |others|
  {
    if |others| > 0 {
      SeparationSeesOnlyPosition(n, b1, b2, others[..|others| - 1]);
    }
  }

  // ---------------------------------------------------------------------------
  // One tick: integration and boundary handling
  // ---------------------------------------------------------------------------

  /** Velocity and position after the Euler update, before any boundary rule. */
  datatype Motion = Motion(velocity: Vector, coords: Point)

  /** `v' = v + (acceleration + drag)`, `p' = p + v'`, with a unit time step and
      the drag taken from the old velocity. */
  function Integrate(n: Numerics, b: Boid, others: seq<Boid>, destination: Point): (m: Motion)
    requires |others| > 0
    ensures Sub(m.velocity, b.velocity)
            == Add(CompositeAcceleration(n, b, others, destination), StokesDrag(n, b.velocity))
    ensures Sub(m.coords, b.coords) == m.velocity
  {
    var acceleration := CompositeAcceleration(n, b, others, destination);
    var drag := StokesDrag(n, b.velocity);
    var novelVelocity := Add(b.velocity, Add(acceleration, drag));
    Motion(novelVelocity, Add(b.coords, novelVelocity))
  }

  /** Coordinate and velocity component along one axis. */
  datatype Axis = Axis(coord: real, speed: real)

  /** The single-bounce reflection of one axis off the walls at 0 and `edge`. */
  function Bounce(c: real, v: real, edge: real): (r: Axis)
    ensures (c < 0.0 || c > edge) ==> r.speed == -v
    ensures c > edge ==> r.coord == 2.0 * edge - c
    ensures c < 0.0 && c <= edge ==> r.coord == -c
    ensures 0.0 <= c <= edge ==> r == Axis(c, v)
    ensures edge >= 0.0 ==> (0.0 <= r.coord <= edge <==> -edge <= c <= 2.0 * edge)
  {
    var distToEdge := edge - c;
    if distToEdge > edge || distToEdge < 0.0 then
      Axis(if distToEdge < 0.0 then c + 2.0 * distToEdge else Abs(c), v * -1.0)
    else
      Axis(c, v)
  }

  /** The failure `step` throws as `std::domain_error`. */
  datatype StepResult = Moved(boid: Boid) | OutOfWorld

  /** The wall rule of `step`: bounce each axis once, then give up when the
      boid is still outside its world. */
  function Reflect(b: Boid, m: Motion): (r: StepResult)
    ensures r.Moved? ==> InWorld(r.boid.coords, b.edges) && SameTraits(r.boid, b)
    ensures r.Moved? ==>
              var alongX := Bounce(m.coords.x, m.velocity.x, b.edges.x);
              var alongY := Bounce(m.coords.y, m.velocity.y, b.edges.y);
              r.boid.coords == Vec(alongX.coord, alongY.coord) && r.boid.velocity == Vec(alongX.speed, alongY.speed)
    ensures b.edges.x >= 0.0 && b.edges.y >= 0.0 ==>
              (r.Moved? <==> InBox(m.coords, Vec(-b.edges.x, -b.edges.y), Scale(2.0, b.edges)))
  {
    var alongX := Bounce(m.coords.x, m.velocity.x, b.edges.x);
    var alongY := Bounce(m.coords.y, m.velocity.y, b.edges.y);
    if alongX.coord > b.edges.x || alongX.coord < 0.0 || alongY.coord > b.edges.y || alongY.coord < 0.0 then
      OutOfWorld
    else
      Moved(Boid(Vec(alongX.coord, alongY.coord), Vec(alongX.speed, alongY.speed),
                 b.cohesion, b.separation, b.alignment, b.attraction, b.edges))
  }

  /** `step`: a tick against solid walls. It either fails or yields a boid inside
      its world that keeps its coefficients and edges. */
  function Step(n: Numerics, b: Boid, others: seq<Boid>, destination: Point): (r: StepResult)
    requires |others| > 0
    ensures r.Moved? ==> InWorld(r.boid.coords, b.edges) && SameTraits(r.boid, b)
  {
    Reflect(b, Integrate(n, b, others, destination))
  }

  /** One wrap-around correction of a coordinate against `[0, max]`. */
  function Wrap(c: real, max: real): (r: real)
    ensures c > max ==> r == c - max
    ensures c < 0.0 && c <= max ==> r == c + max
    ensures 0.0 <= c <= max ==> r == c
    ensures -max <= c <= 2.0 * max ==> 0.0 <= r <= max
  {
    if c > max then c - max
    else if c < 0.0 then c + max
    else c
  }

  /** The wrap-around rule of `wrappedStep`: one correction per axis, velocity untouched. */
  function WrapAround(b: Boid, m: Motion, maxX: int, maxY: int): (r: Boid)
    ensures SameTraits(r, b)
    ensures r.velocity == m.velocity
    ensures r.coords == Vec(Wrap(m.coords.x, maxX as real), Wrap(m.coords.y, maxY as real))
    ensures InBox(m.coords, Vec(-maxX as real, -maxY as real), Vec(2.0 * maxX as real, 2.0 * maxY as real))
            ==> InWorld(r.coords, Vec(maxX as real, maxY as real))
  {
    Boid(Vec(Wrap(m.coords.x, maxX as real), Wrap(m.coords.y, maxY as real)), m.velocity,
         b.cohesion, b.separation, b.alignment, b.attraction, b.edges)
  }

  /** `wrappedStep`: a tick on a torus of size `maxX × maxY`. It never fails and
      keeps the boid's coefficients and edges. */
  function WrappedStep(n: Numerics, b: Boid, others: seq<Boid>, destination: Point, maxX: int, maxY: int): (r: Boid)
    requires |others| > 0
    ensures SameTraits(r, b)
  {
    WrapAround(b, Integrate(n, b, others, destination), maxX, maxY)
  }

  /** With every coefficient zero and no velocity, the Euler update leaves the boid where it is. */
  lemma RestingMotion(n: Numerics, b: Boid, others: seq<Boid>, destination: Point)
    requires |others| > 0 && Apart(b, others)
    requires b.velocity == ZERO
    requires b.cohesion == 0.0 && b.separation == 0.0 && b.alignment == 0.0 && b.attraction == 0.0
    ensures Integrate(n, b, others, destination) == Motion(ZERO, b.coords)
  {
    var cohesion := Cohesion(n, b, others);
    assert CompositeAcceleration(n, b, others, destination) == Scale(0.0, cohesion);
    ScaleByZero(cohesion);
    assert StokesDrag(n, b.velocity) == ZERO;
  }

  /** A boid at rest inside its world with all four coefficients zero feels no
      force: a reflective tick leaves it as it is. */
  lemma RestingBoidStaysPut(n: Numerics, b: Boid, others: seq<Boid>, destination: Point)
    requires |others| > 0 && Apart(b, others)
    requires b.velocity == ZERO && InWorld(b.coords, b.edges)
    requires b.cohesion == 0.0 && b.separation == 0.0 && b.alignment == 0.0 && b.attraction == 0.0
    ensures Step(n, b, others, destination) == Moved(b)
  {
    RestingMotion(n, b, others, destination);
    ReflectAtRest(b);
  }

  lemma ScaleByZero(v: Vector)
    ensures Scale(0.0, v) == ZERO
  {
  }

  lemma ReflectAtRest(b: Boid)
    requires b.velocity == ZERO && InWorld(b.coords, b.edges)
    ensures Reflect(b, Motion(ZERO, b.coords)) == Moved(b)
  {
  }

  /** The same boid on a torus that holds its position is not moved by a wrapped tick. */
  lemma RestingBoidStaysPutWrapped(n: Numerics, b: Boid, others: seq<Boid>, destination: Point, maxX: int, maxY: int)
    requires |others| > 0 && Apart(b, others)
    requires b.velocity == ZERO && InWorld(b.coords, Vec(maxX as real, maxY as real))
    requires b.cohesion == 0.0 && b.separation == 0.0 && b.alignment == 0.0 && b.attraction == 0.0
    ensures WrappedStep(n, b, others, destination, maxX, maxY) == b
  {
    RestingMotion(n, b, others, destination);
    WrapAroundAtRest(b, maxX, maxY);
  }

  lemma WrapAroundAtRest(b: Boid, maxX: int, maxY: int)
    requires b.velocity == ZERO && InWorld(b.coords, Vec(maxX as real, maxY as real))
    ensures WrapAround(b, Motion(ZERO, b.coords), maxX, maxY) == b
  {
  }
}
