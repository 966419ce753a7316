# flock-sim in Dafny

A model of the simulation core of flock-sim, a 2-D boids simulator. Each boid has
a position, a velocity, four behaviour coefficients and the edges of its world.
One tick computes a fresh population. Every boid is stepped against all the
others of the old population. Its acceleration is the coefficient-weighted sum of
four rules:

- cohesion, toward the perception-weighted centroid of the others;
- separation, away from every other boid;
- alignment, toward the perception-weighted mean velocity;
- attraction, toward the mouse.

A Stokes drag is then added and an Euler step with unit time is taken. At the
screen edges a boid either bounces once off solid walls, or wraps around on a
torus. A boid that still lies outside the world after its bounce is replaced at
a random spot near the centre of the screen, at rest.

The model has three modules:

- `Geometry` (`Geometry.dfy`): points and vectors over exact reals.
- `Boids` (`Boids.dfy`): `src/Boid.cpp`. The boid is a value. Its operations are
  functions. The accumulation loops of `accelCohesion`, `accelSeparation` and
  `accelAlignment` are methods proved against the functions that specify them.
- `Flock` (`Flock.dfy`): from `src/flock.cpp`, the tick loop, `badRandom` and
  the loop that builds the initial population. The two loops are methods
  proved against recursive or closed-form specifications. `badRandom` is a
  function.

Things the model treats as parameters:

- The transcendental and library parts (`d`, `pow`, `len`, the `acos`/`cos`
  axis decomposition, the separation magnitude) are fields of a `Numerics`
  record of total functions.
- `rand()` is a stream `rand: nat -> nat` together with the position of the next
  unused draw.
- The mouse position is an argument.
- The compile-time switch `WRAPPED` is the argument `wrapped`.

## Model

| member | source | states |
|---|---|---|
| Boids.Perception | src/Boid.cpp:282-284 | The perception weight lies in (0, 1]. It is 1 when `pow(dist, 2.75) <= 1`, including the infinite quotient at `pow == 0`. Otherwise it is `1 / pow(dist, 2.75)`. |
| Boids.Weights | src/Boid.cpp:281-285 | One weight per neighbour, in list order: weight k is the perception of the distance to neighbour k, and each lies in (0, 1]. |
| Boids.TotalPositive | src/Boid.cpp:288-290 | For a non-empty neighbour list, `percepTotal` is strictly positive, so the division by it is defined. |
| Boids.WeightedSumBounds | src/Boid.cpp:286-288 | If every vector lies in a box [lo, hi], their weighted sum lies in [total·lo, total·hi]. |
| Boids.MeanWithinBounds | src/Boid.cpp:281-290 | A weighted average with positive weights lies in every box that holds all the averaged values. |
| Boids.WeightedSumOfConstant | src/Boid.cpp:286-288 | Weighting copies of one vector u gives total·u. |
| Boids.MeanOfConstant | src/Boid.cpp:386-389 | Averaging identical values gives that value back, whatever the weights. |
| Boids.CentroidWithinNeighbours | src/Boid.cpp:281-290 | The perception-weighted centroid lies inside every box that holds all the neighbours. |
| Boids.CentroidOfGatheredFlock | src/Boid.cpp:281-290 | Neighbours gathered on one point have that point as their centroid. |
| Boids.AccelCohesion | src/Boid.cpp:267-312 | The loop and the axis decomposition compute exactly `Cohesion`: the centroid invariant is the weighted sum over the visited prefix, and `percepTotal` is the total weight of that prefix. |
| Boids.SeparationSplit | src/Boid.cpp:337-351 | Separation is additive over any split of the neighbour list. Each neighbour contributes on its own, with no perception weighting. |
| Boids.AccelSeparation | src/Boid.cpp:323-354 | The loop computes exactly `Separation`: the accumulator is the sum of the repulsions of the visited prefix. |
| Boids.Alignment | src/Boid.cpp:394-396 | `acc -= velocity - commonVeloc` from zero is the common velocity minus one's own. |
| Boids.CommonVelocityWithinNeighbours | src/Boid.cpp:381-389 | The common velocity lies in every box that holds all the neighbours' velocities. |
| Boids.AlignmentWithUniformHeading | src/Boid.cpp:381-396 | If the others share one velocity u, alignment is exactly u minus one's velocity. A boid already moving at u feels none. |
| Boids.AccelAlignment | src/Boid.cpp:367-399 | The loop and the final subtraction compute exactly `Alignment`, by prefix invariants as in cohesion. |
| Boids.TowardStrength | src/Boid.cpp:425-426 | `1 / (1 + 0.1·len)` lies in (0, 1] for every distance. |
| Boids.TowardStrengthDecreasing | src/Boid.cpp:425-426 | A strictly nearer destination is perceived strictly more strongly, and an equally near one equally. |
| Boids.AccelToward | src/Boid.cpp:410-437 | Along each axis the pull points at the destination: it has the opposite sign of the direction cosine of `coords - destination`, strictly so when that cosine is not zero. It is never larger than that cosine in size, since its strength is at most 1. |
| Boids.StokesDrag | src/Boid.cpp:458-466 | A boid at rest feels no drag. |
| Boids.Blend | src/Boid.cpp:231-255 | With three coefficients zero, the accumulation from zero is the remaining coefficient times its rule's acceleration. |
| Boids.CompositeAcceleration | src/Boid.cpp:231-255 | Each rule enters through its own coefficient only. A boid with no neighbour on its own position and a single rule switched on accelerates by that coefficient times that rule. |
| Boids.BlendSuperposition | src/Boid.cpp:231-255 | The coefficient-weighted accumulation is linear in the coefficients. |
| Boids.CompositeSuperposition | src/Boid.cpp:231-255 | For two boids with the same position and velocity, the boid carrying the sums of their coefficients accelerates by the sum of their accelerations. The rules read position and velocity, never the coefficients. |
| Boids.CohesionSeesOnlyPosition | src/Boid.cpp:267-312 | Cohesion depends on the boid's position, not its coefficients or velocity. |
| Boids.SeparationSeesOnlyPosition | src/Boid.cpp:323-354 | Separation depends on the boid's position only. |
| Boids.AlignmentSeesOnlyMotion | src/Boid.cpp:367-399 | Alignment depends on the boid's position and velocity only. |
| Boids.TowardSeesOnlyPosition | src/Boid.cpp:410-437 | Attraction depends on the boid's position only. |
| Boids.Integrate | src/Boid.cpp:85-102 | The velocity changes by acceleration plus drag, where the drag is taken from the old velocity. The position changes by the new velocity. |
| Boids.Bounce | src/Boid.cpp:113-122 | Leaving an axis through either wall flips the speed and reflects the coordinate about that wall. Inside, nothing changes. With a non-negative edge, the result is inside exactly when the unbounced coordinate is within one world-width of the walls. |
| Boids.Reflect | src/Boid.cpp:113-137 | A successful step yields the bounced coordinates and velocities inside the world, with the coefficients and edges kept. It fails exactly when the unbounced position is outside [-edges, 2·edges]. |
| Boids.Step | src/Boid.cpp:84-138 | `step` either fails (`domain_error`) or yields a boid inside its world that keeps its coefficients and edges. |
| Boids.Wrap | src/Boid.cpp:183-194 | One wrap-around correction per axis. A coordinate within one width of the screen ends inside [0, max]. |
| Boids.WrapAround | src/Boid.cpp:183-196 | The velocity is untouched, the traits are kept, and each coordinate is wrapped. The result is on screen when the unwrapped position is within one width. |
| Boids.WrappedStep | src/Boid.cpp:158-197 | `wrappedStep` never fails and keeps the coefficients and edges. |
| Boids.RestingMotion | src/Boid.cpp:85-102 | With zero coefficients, zero velocity and no neighbour on its own position, the Euler update leaves the boid in place: there is no acceleration and no drag. |
| Boids.RestingBoidStaysPut | src/Boid.cpp:84-138 | Such a boid inside its world is returned unchanged by `step`. |
| Boids.RestingBoidStaysPutWrapped | src/Boid.cpp:158-197 | Such a boid on the torus is returned unchanged by `wrappedStep`. |
| Flock.BadRandom | src/flock.cpp:41-43 | The result is a whole number in [start, end) when start < end, and in [start, 2·start − end) otherwise. |
| Flock.Launched | src/flock.cpp:128-132 | An initial boid sits at whole coordinates in the 200×200 square around the centre. It moves at ±3 per axis, outward from the centre, and carries the command-line coefficients and the screen edges. |
| Flock.Respawn | src/flock.cpp:169-171 | A replacement boid is at rest, configured, and at whole coordinates near the centre. |
| Flock.InitialPopulation | src/flock.cpp:122-133 | The population has `numBoids` boids and uses two draws per boid. Boid k is built from draws 2k and 2k+1. Every boid is configured and inside the screen. |
| Flock.AllOthers | src/flock.cpp:149-150 | The copy with element i erased keeps the order of the rest and has one element less. As multisets, it plus `pop[i]` is the population. |
| Flock.Outcome | src/flock.cpp:149-163 | Boid i is stepped against the others of the old population, by `wrappedStep` or `step` as `WRAPPED` says. On a torus the step always succeeds. A moved boid keeps its traits, and against solid walls it is inside its world. |
| Flock.Outcomes | src/flock.cpp:144-163 | One outcome per boid, each computed from the old `pop` alone and never from a boid the same tick has already replaced. On a torus every outcome is a move, and every moved boid keeps its traits. |
| Flock.Replacement | src/flock.cpp:157-172 | A moved boid is taken as is. A failed step is replaced by a respawn that uses two draws. |
| Flock.Pass | src/flock.cpp:144-174 | The first `count` boids of the new population. The draw position advances by exactly two per failed step. |
| Flock.PassKeepsEarlierAgents | src/flock.cpp:145-174 | A boid already pushed into `newPop` is not changed by later iterations. |
| Flock.PassDerivesEachAgent | src/flock.cpp:145-174 | Boid i of the new population is the moved `pop[i]`, or a respawn when its step failed. |
| Flock.OutcomeSettles | src/flock.cpp:157-172 | The successor of a configured boid is configured. Against solid walls it is inside the screen. |
| Flock.TickSettles | src/flock.cpp:144-175 | A tick keeps every boid configured. Against solid walls it keeps every boid inside the screen. |
| Flock.WrappedTickDrawsNothing | src/flock.cpp:157-158 | On a torus no step fails, so a tick uses no random draws. |
| Flock.Tick | src/flock.cpp:144-175 | The loop builds exactly `Pass` over the whole population and returns the next draw position. |

## Left out

- Floating point: `float` and `double` are exact reals. Rounding, overflow, infinities and NaN are not modelled.
- `d`, `pow`, `Vector::len`, `normalize`, `acos`, `cos` and `collision_dist / pow(dist, 2)` are uninterpreted fields of `Numerics`. Only their non-negativity where it applies is assumed. The infinite separation at distance 0 has no real counterpart: `repulsion(0)` is some real number.
- Boids.Cohesion, Boids.CommonVelocity, Boids.Alignment, Boids.CompositeAcceleration, Boids.Step, Boids.WrappedStep: these require a non-empty neighbour list. The C++ code divides 0 by 0 there and carries NaN on. As a result, a population of exactly one boid gets NaN coordinates, which no exact real can represent. `Flock.Tick` therefore requires a population size other than 1.
- `Vector::operator==` in `stokesDrag` is taken as exact equality of both components.
- `stokesDrag` away from rest is a function of the `Numerics` fields with no further property. For `accelToward` only the direction and the bound of its pull are stated.
- Flock.TickSettles, Flock.OutcomeSettles, Boids.Step, Boids.CompositeAcceleration: when a neighbour sits exactly on a boid's position, the C++ separation computes `100 / pow(0, 2)`, which is infinite, so the separation is not finite. With a zero separation coefficient the product is 0 times infinity, which is NaN. An infinite coordinate past the far wall becomes infinity minus infinity, also NaN, in the reflection at `src/Boid.cpp:117`. A NaN position fails every comparison of the wall rule, so `step` returns the NaN boid without throwing, and the tick keeps it off the screen. The model instead gives `repulsion` a real value there. So these members promise a finite, on-screen successor where the C++ code produces NaN. Initial and respawned boids sit on whole coordinates in a 200×200 square, so this can happen. The single-rule clauses of `CompositeAcceleration` and the resting lemmas are stated only for a boid with no neighbour on its position (`Boids.Apart`).
- `Vector::normalize` is not part of this model. What it gives for the zero vector (a boid on its neighbours' centroid, or on the mouse) is whatever `axisCos` gives.
- `copysign` is modelled for a sign argument that is never −0. The argument is the difference of two whole numbers, which is +0 when they are equal.
- `srand(time(NULL))` and `rand()` are the draw stream passed in. Its values are arbitrary non-negative integers, and `RAND_MAX` is not modelled.
- `WRAPPED` is a compile-time constant in `src/flock.cpp`. It is modelled as a parameter so that both modes are covered.
- The getters `getCoordinates` and `getVelocity` are the datatype destructors. The constructor is the datatype constructor.
- Argument parsing, the SDL display, sprite selection (`closestFrame`), drawing, event polling, the frame loop and `exit` are I/O. The mouse position is an argument of a tick. `src/sdl` is not part of this model.
- `std::abs` in `step` is taken as the floating-point overload.
