/** The driver's share of the simulation (src/flock.cpp): the random helper, the
    initial population, and one tick of the population update. `rand()` is a
    stream of non-negative draws, `rand(k)` being the k-th call; the functions and
    methods here take the position of the next unused draw and say how far it moved. */
module Flock {
  import opened Geometry
  import opened Boids

  const SCREEN_WIDTH: int := 1200
  const SCREEN_HEIGHT: int := 700
  const CENTER_X: int := SCREEN_WIDTH / 2
  const CENTER_Y: int := SCREEN_HEIGHT / 2
  /** Half the side of the square around the centre where boids are placed. */
  const SPAWN_RADIUS: int := 100
  const LAUNCH_SPEED: real := 3.0

  /** The coefficients read from the command line. */
  datatype Settings = Settings(cohesion: real, separation: real, alignment: real, attraction: real)

  /** `Point(screenLimits.first, screenLimits.second)`: the edges every boid gets. */
  function WorldEdges(): Point {
    Vec(SCREEN_WIDTH as real, SCREEN_HEIGHT as real)
  }

  predicate IsWhole(r: real) {
    r == r.Floor as real
  }

  /** `badRandom(start, end)`: `start + rand() % (end - start)` as a float. For a
      non-negative draw, C++'s truncating `%` and Dafny's Euclidean `%` agree. */
  function BadRandom(start: int, end: int, draw: nat): (r: real)
    requires start != end
    ensures IsWhole(r)
    ensures start < end ==> start as real <= r < end as real
    ensures end < start ==> start as real <= r < (2 * start - end) as real
  {
    (start + draw % (end - start)) as real
  }

  /** `copysign(magnitude, sign)` for a sign that is never a negative zero: the
      difference of two whole numbers is +0 when they are equal. */
  function CopySign(magnitude: real, sign: real): real {
    if sign >= 0.0 then magnitude else -magnitude
  }

  predicate InSpawnArea(p: Point) {
    (CENTER_X - SPAWN_RADIUS) as real <= p.x < (CENTER_X + SPAWN_RADIUS) as real
    && (CENTER_Y - SPAWN_RADIUS) as real <= p.y < (CENTER_Y + SPAWN_RADIUS) as real
  }

  /** The boid carries the command-line coefficients and the screen edges. */
  predicate Configured(b: Boid, s: Settings) {
    b.cohesion == s.cohesion && b.separation == s.separation
    && b.alignment == s.alignment && b.attraction == s.attraction
    && b.edges == WorldEdges()
  }

  /** Every boid of the population is configured and inside the screen. */
  predicate Settled(pop: seq<Boid>, s: Settings) {
    forall k :: 0 <= k < |pop| ==> Configured(pop[k], s) && InWorld(pop[k].coords, WorldEdges())
  }

  /** A boid of the initial population, from the draws for x and then y. */
  function Launched(s: Settings, drawX: nat, drawY: nat): (b: Boid)
    ensures InSpawnArea(b.coords) && IsWhole(b.coords.x) && IsWhole(b.coords.y)
    ensures b.velocity.x == if b.coords.x >= CENTER_X as real then LAUNCH_SPEED else -LAUNCH_SPEED
    ensures b.velocity.y == if b.coords.y >= CENTER_Y as real then LAUNCH_SPEED else -LAUNCH_SPEED
    ensures Configured(b, s)
  {
    var x := BadRandom(CENTER_X - SPAWN_RADIUS, CENTER_X + SPAWN_RADIUS, drawX);
    var y := BadRandom(CENTER_Y - SPAWN_RADIUS, CENTER_Y + SPAWN_RADIUS, drawY);
    Boid(Vec(x, y), Vec(CopySign(LAUNCH_SPEED, x - CENTER_X as real), CopySign(LAUNCH_SPEED, y - CENTER_Y as real)),
         s.cohesion, s.separation, s.alignment, s.attraction, WorldEdges())
  }

  /** The boid that replaces one whose reflective step failed. */
  function Respawn(s: Settings, drawX: nat, drawY: nat): (b: Boid)
    ensures IsRespawn(b, s)
  {
    var x := BadRandom(CENTER_X - SPAWN_RADIUS, CENTER_X + SPAWN_RADIUS, drawX);
    var y := BadRandom(CENTER_Y - SPAWN_RADIUS, CENTER_Y + SPAWN_RADIUS, drawY);
    Boid(Vec(x, y), ZERO, s.cohesion, s.separation, s.alignment, s.attraction, WorldEdges())
  }

  /** At rest, configured, at whole coordinates near the centre of the screen. */
  predicate IsRespawn(b: Boid, s: Settings) {
    b.velocity == ZERO && Configured(b, s)
    && InSpawnArea(b.coords) && IsWhole(b.coords.x) && IsWhole(b.coords.y)
  }

  /** The population-building loop: `numBoids` boids, two draws each. */
  method InitialPopulation(numBoids: nat, s: Settings, rand: nat -> nat, start: nat) returns (pop: seq<Boid>, next: nat)
    ensures |pop| == numBoids && next == start + 2 * numBoids
    ensures forall k :: 0 <= k < |pop| ==> pop[k] == Launched(s, rand(start + 2 * k), rand(start + 2 * k + 1))
    ensures Settled(pop, s)
  {
    pop := [];
    next := start;
    for i := 0 to numBoids
      invariant |pop| == i && next == start + 2 * i
      invariant forall k :: 0 <= k < i ==> pop[k] == Launched(s, rand(start + 2 * k), rand(start + 2 * k + 1))
    {
      var x := BadRandom(CENTER_X - SPAWN_RADIUS, CENTER_X + SPAWN_RADIUS, rand(next));
      var y := BadRandom(CENTER_Y - SPAWN_RADIUS, CENTER_Y + SPAWN_RADIUS, rand(next + 1));
      var velocity := Vec(CopySign(LAUNCH_SPEED, x - CENTER_X as real), CopySign(LAUNCH_SPEED, y - CENTER_Y as real));
      pop := pop + [Boid(Vec(x, y), velocity, s.cohesion, s.separation, s.alignment, s.attraction, WorldEdges())];
      next := next + 2;
    }
  }

  /** `allOthers`: a copy of the population with element `i` erased. */
  function AllOthers<T>(pop: seq<T>, i: nat): (others: seq<T>)
    requires i < |pop|
    ensures |others| == |pop| - 1
    ensures forall j :: 0 <= j < i ==> others[j] == pop[j]
    ensures forall j :: i <= j < |others| ==> others[j] == pop[j + 1]
    ensures multiset(others) + multiset{pop[i]} == multiset(pop)
  {
    assert pop == pop[..i] + [pop[i]] + pop[i + 1..];
    pop[..i] + pop[i + 1..]
  }

  /** Stepping the boid at index `i` against all the others of the old
      population: the reflective step, or the wrapped one, which never fails;
      `wrapped` stands for the compile-time switch `WRAPPED`. */
  function Outcome(n: Numerics, pop: seq<Boid>, i: nat, mouse: Point, wrapped: bool): (r: StepResult)
    requires i < |pop| && |pop| > 1
    ensures wrapped ==> r.Moved?
    ensures r.Moved? ==> SameTraits(r.boid, pop[i])
    ensures !wrapped && r.Moved? ==> InWorld(r.boid.coords, pop[i].edges)
  {
    var others := AllOthers(pop, i);
    if wrapped then Moved(WrappedStep(n, pop[i], others, mouse, SCREEN_WIDTH, SCREEN_HEIGHT))
    else Step(n, pop[i], others, mouse)
  }

  /** The outcome for every index. Each is computed from the old population
      alone, never from a boid the same tick has already replaced; on a torus
      every outcome is a move, and a moved boid keeps its traits. */
  function Outcomes(n: Numerics, pop: seq<Boid>, mouse: Point, wrapped: bool): (r: seq<StepResult>)
    requires |pop| != 1
    ensures |r| == |pop|
    ensures forall i :: 0 <= i < |pop| ==> r[i] == Outcome(n, pop, i, mouse, wrapped)
    ensures forall i :: 0 <= i < |pop| ==> (wrapped ==> r[i].Moved?) && (r[i].Moved? ==> SameTraits(r[i].boid, pop[i]))
  {
    seq(|pop|, i requires 0 <= i < |pop| => Outcome(n, pop, i, mouse, wrapped))
  }

  /** What the tick may put in place of a boid whose step had `outcome`: the
      moved boid, or a respawned one when the step failed. */
  predicate Successor(outcome: StepResult, s: Settings, next: Boid) {
    match outcome
    case Moved(b) => next == b
    case OutOfWorld => IsRespawn(next, s)
  }

  /** The boid that takes the place of one whose step had `outcome`, and the
      position of the next unused draw, `k` being the position before. */
  function Replacement(outcome: StepResult, s: Settings, rand: nat -> nat, k: nat): (r: (Boid, nat))
    ensures Successor(outcome, s, r.0)
    ensures r.1 == if outcome.Moved? then k else k + 2
  {
    match outcome
    case Moved(b) => (b, k)
    case OutOfWorld => (Respawn(s, rand(k), rand(k + 1)), k + 2)
  }

  /** The number of failed steps among `outcomes`. */
  function Failures(outcomes: seq<StepResult>): nat
    decreases |outcomes|
  {
    if |outcomes| == 0 then 0
    else Failures(outcomes[..|outcomes| - 1]) + (if outcomes[|outcomes| - 1].Moved? then 0 else 1)
  }

  /** The first `count` boids of the next population and the position of the next
      unused draw. */
  function Pass(outcomes: seq<StepResult>, count: nat, s: Settings, rand: nat -> nat, start: nat): (r: (seq<Boid>, nat))
    requires count <= |outcomes|
    ensures |r.0| == count
    ensures r.1 == start + 2 * Failures(outcomes[..count])
    decreases count
  {
    if count == 0 then ([], start)
    else
      var (prev, k) := Pass(outcomes, count - 1, s, rand, start);
      assert outcomes[..count][..count - 1] == outcomes[..count - 1];
      var (b, k') := Replacement(outcomes[count - 1], s, rand, k);
      (prev + [b], k')
  }

  /** Once a boid is in the next population, later steps of the pass leave it alone. */
  lemma {:induction false} PassKeepsEarlierAgents(outcomes: seq<StepResult>, count: nat, i: nat, s: Settings,
                                                  rand: nat -> nat, start: nat)
    requires i < count <= |outcomes|
    ensures Pass(outcomes, count, s, rand, start).0[i] == Pass(outcomes, i + 1, s, rand, start).0[i]
    decreases count
  {
    if i < count - 1 {
      PassKeepsEarlierAgents(outcomes, count - 1, i, s, rand, start);
    }
  }

  /** Every boid the pass produces is a successor of the boid at the same index
      of the old population. */
  lemma PassDerivesEachAgent(outcomes: seq<StepResult>, count: nat, i: nat, s: Settings, rand: nat -> nat, start: nat)
    requires i < count <= |outcomes|
    ensures Successor(outcomes[i], s, Pass(outcomes, count, s, rand, start).0[i])
  {
    PassKeepsEarlierAgents(outcomes, count, i, s, rand, start);
  }

  /** The outcome of a configured boid keeps its configuration; against solid
      walls a boid that moved is inside the screen. */
  lemma OutcomeSettles(n: Numerics, pop: seq<Boid>, i: nat, mouse: Point, s: Settings, wrapped: bool, next: Boid)
    requires i < |pop| && |pop| > 1 && Configured(pop[i], s)
    requires Successor(Outcome(n, pop, i, mouse, wrapped), s, next)
    ensures Configured(next, s) && (!wrapped ==> InWorld(next.coords, WorldEdges()))
  {
  }

  /** A tick of a configured population keeps every boid configured, in both
      modes; against solid walls it also puts every boid inside the screen. */
  lemma TickSettles(n: Numerics, pop: seq<Boid>, mouse: Point, s: Settings, wrapped: bool, rand: nat -> nat, start: nat)
    requires |pop| != 1
    requires forall k :: 0 <= k < |pop| ==> Configured(pop[k], s)
    ensures var next := Pass(Outcomes(n, pop, mouse, wrapped), |pop|, s, rand, start).0;
            forall k :: 0 <= k < |next| ==> Configured(next[k], s)
    ensures !wrapped ==> Settled(Pass(Outcomes(n, pop, mouse, wrapped), |pop|, s, rand, start).0, s)
  {
    var outcomes := Outcomes(n, pop, mouse, wrapped);
    var next := Pass(outcomes, |pop|, s, rand, start).0;
    forall k | 0 <= k < |next|
      ensures Configured(next[k], s) && (!wrapped ==> InWorld(next[k].coords, WorldEdges()))
    {
      PassDerivesEachAgent(outcomes, |pop|, k, s, rand, start);
      OutcomeSettles(n, pop, k, mouse, s, wrapped, next[k]);
    }
  }

  lemma {:induction false} NoFailures(outcomes: seq<StepResult>)
    requires forall k :: 0 <= k < |outcomes| ==> outcomes[k].Moved?
    ensures Failures(outcomes) == 0
    decreases |outcomes|
  {
    if |outcomes| > 0 {
      NoFailures(outcomes[..|outcomes| - 1]);
    }
  }

  /** On a torus no step fails, so a tick consumes no draws. */
  lemma WrappedTickDrawsNothing(n: Numerics, pop: seq<Boid>, mouse: Point, s: Settings, rand: nat -> nat, start: nat)
    requires |pop| != 1
    ensures Pass(Outcomes(n, pop, mouse, true), |pop|, s, rand, start).1 == start
  {
    var outcomes := Outcomes(n, pop, mouse, true);
    assert outcomes[..|pop|] == outcomes;
    NoFailures(outcomes);
  }

  /** One pass of the simulation loop. Every successor is computed from the
      unmodified old population `pop`; the caller replaces `pop` by `newPop`. */
  method Tick(n: Numerics, pop: seq<Boid>, mouse: Point, s: Settings, wrapped: bool, rand: nat -> nat, start: nat)
    returns (newPop: seq<Boid>, next: nat)
    requires |pop| != 1
    ensures (newPop, next) == Pass(Outcomes(n, pop, mouse, wrapped), |pop|, s, rand, start)
  {
    ghost var outcomes := Outcomes(n, pop, mouse, wrapped);
    newPop := [];
    next := start;
    for i := 0 to |pop|
      invariant (newPop, next) == Pass(outcomes, i, s, rand, start)
    {
      var allOthers := AllOthers(pop, i);
      ghost var expected := Replacement(outcomes[i], s, rand, next);
      var successor: Boid;
      if wrapped {
        successor := WrappedStep(n, pop[i], allOthers, mouse, SCREEN_WIDTH, SCREEN_HEIGHT);
      } else {
        match Step(n, pop[i], allOthers, mouse)
        case Moved(b) =>
          successor := b;
        case OutOfWorld =>
          successor := Respawn(s, rand(next), rand(next + 1));
          next := next + 2;
      }
      assert (successor, next) == expected;
      newPop := newPop + [successor];
    }
  }
}
