/**
 * The per-frame motion rules of the floating objects in the star scene
 * (components/star-scene.tsx): the recentering impulse with its escalating
 * attraction, the hard correction of outliers back onto a sphere, the speed
 * clamp, the random initial spread and the pointer-to-world mapping.
 *
 * Numbers are exact reals. Every square root the source takes
 * (`Vector3.length()`, `Math.sqrt`) is handed in as an argument `r` that
 * satisfies IsRoot(r, x); RootUnique shows that this pins `r` down.
 */
module Motion {
  import opened Wrappers

  datatype Vec3 = Vec3(x: real, y: real, z: real)

  const Origin: Vec3 := Vec3(0.0, 0.0, 0.0)

  /** Radius beyond which the attraction escalates (`maxDistance`). */
  const MaxDistance: real := 8.0
  /** Radius beyond which a body is put back onto the sphere of radius MaxDistance. */
  const HardDistance: real := MaxDistance * 1.5
  /** Attraction multiplier inside MaxDistance. */
  const BaseAttraction: real := 0.05
  /** Extra attraction per MaxDistance of overshoot. */
  const AttractionSlope: real := 0.3
  /** Largest speed a body keeps after the clamp (`maxSpeed`). */
  const MaxSpeed: real := 2.0

  // ---------------------------------------------------------------------
  // Real arithmetic
  // ---------------------------------------------------------------------

  /**
   * The product of two reals. Every product of two variables in this module
   * is written with Mul, so that the solver keeps each one as a single term;
   * the lemmas below state the algebra the proofs use.
   */
  function Mul(a: real, b: real): real
  {
    a * b
  }

  /** The quotient of two reals, the divisor non-zero. */
  function Div(a: real, b: real): (q: real)
    requires b != 0.0
    ensures Mul(q, b) == a
  {
    a / b
  }

  lemma MulComm(a: real, b: real)
    ensures Mul(a, b) == Mul(b, a)
  {
  }

  lemma MulAssoc(a: real, b: real, c: real)
    ensures Mul(Mul(a, b), c) == Mul(a, Mul(b, c))
  {
  }

  lemma MulDistR(a: real, b: real, c: real)
    ensures Mul(a + b, c) == Mul(a, c) + Mul(b, c)
  {
  }

  lemma MulNegL(a: real, b: real)
    ensures Mul(-a, b) == -Mul(a, b)
  {
  }

  lemma MulNegR(a: real, b: real)
    ensures Mul(a, -b) == -Mul(a, b)
  {
  }

  lemma MulPos(a: real, b: real)
    requires a > 0.0 && b > 0.0
    ensures Mul(a, b) > 0.0
  {
  }

  lemma MulNeg(a: real, b: real)
    requires a < 0.0 && b < 0.0
    ensures Mul(a, b) > 0.0
  {
  }

  /** Multiplying by a non-negative factor on the left keeps `<=`. */
  lemma MulLe(a: real, x: real, y: real)
    requires a >= 0.0 && x <= y
    ensures Mul(a, x) <= Mul(a, y)
  {
  }

  /** Multiplying by a positive factor on the left keeps `<`. */
  lemma MulLt(a: real, x: real, y: real)
    requires a > 0.0 && x < y
    ensures Mul(a, x) < Mul(a, y)
  {
  }

  /** Multiplying by a non-negative factor on the right keeps `<=`. */
  lemma MulLeR(a: real, x: real, y: real)
    requires a >= 0.0 && x <= y
    ensures Mul(x, a) <= Mul(y, a)
  {
  }

  lemma MulSelfNonNegative(a: real)
    ensures Mul(a, a) >= 0.0
  {
    if a > 0.0 {
      MulPos(a, a);
    } else if a < 0.0 {
      MulNeg(a, a);
    }
  }

  /** The square of a real. */
  function Sq(a: real): (r: real)
    ensures r >= 0.0
  {
    MulSelfNonNegative(a);
    Mul(a, a)
  }

  lemma SqPositive(a: real)
    requires a != 0.0
    ensures Sq(a) > 0.0
  {
    if a > 0.0 {
      MulPos(a, a);
    } else {
      MulNeg(a, a);
    }
  }

  lemma SqNegate(a: real)
    ensures Sq(-a) == Sq(a)
  {
    MulNegL(a, -a);
    MulNegR(a, a);
  }

  /** Squaring is strictly increasing on the non-negative reals. */
  lemma SqLt(a: real, b: real)
    requires 0.0 <= a < b
    ensures Sq(a) < Sq(b)
  {
    MulLe(a, a, b);
    MulLt(b, a, b);
    MulComm(a, b);
  }

  lemma SqLe(a: real, b: real)
    requires 0.0 <= a <= b
    ensures Sq(a) <= Sq(b)
  {
    if a < b {
      SqLt(a, b);
    }
  }

  /** A value within [-b, b] has a square at most b². */
  lemma SqBound(a: real, b: real)
    requires -b <= a <= b
    ensures Sq(a) <= Sq(b)
  {
    if a >= 0.0 {
      SqLe(a, b);
    } else {
      SqLe(-a, b);
      SqNegate(a);
    }
  }

  lemma SqMul(a: real, b: real)
    ensures Sq(Mul(a, b)) == Mul(Sq(a), Sq(b))
  {
    calc {
      Sq(Mul(a, b));
      Mul(Mul(a, b), Mul(a, b));
      { MulAssoc(a, b, Mul(a, b)); }
      Mul(a, Mul(b, Mul(a, b)));
      { MulAssoc(b, a, b); MulComm(b, a); MulAssoc(a, b, b); }
      Mul(a, Mul(a, Mul(b, b)));
      { MulAssoc(a, a, Mul(b, b)); }
      Mul(Sq(a), Sq(b));
    }
  }

  // ---------------------------------------------------------------------
  // Vector arithmetic (the parts of THREE.Vector3 the callback uses)
  // ---------------------------------------------------------------------

  /** `lengthSq()`: the squared Euclidean length. */
  function LengthSq(v: Vec3): (r: real)
    ensures r >= 0.0
  {
    Sq(v.x) + Sq(v.y) + Sq(v.z)
  }

  /** Only the zero vector has length zero. */
  lemma LengthSqZero(v: Vec3)
    ensures LengthSq(v) == 0.0 <==> v == Origin
  {
    if v.x != 0.0 {
      SqPositive(v.x);
    } else if v.y != 0.0 {
      SqPositive(v.y);
    } else if v.z != 0.0 {
      SqPositive(v.z);
    }
  }

  /** `multiplyScalar(c)`. */
  function Scale(v: Vec3, c: real): Vec3
  {
    Vec3(Mul(v.x, c), Mul(v.y, c), Mul(v.z, c))
  }

  /** `negate()`. */
  function Negate(v: Vec3): Vec3
  {
    Vec3(-v.x, -v.y, -v.z)
  }

  function Dot(a: Vec3, b: Vec3): real
  {
    Mul(a.x, b.x) + Mul(a.y, b.y) + Mul(a.z, b.z)
  }

  lemma ScaleLengthSq(v: Vec3, c: real)
    ensures LengthSq(Scale(v, c)) == Mul(LengthSq(v), Sq(c))
  {
    SqMul(v.x, c);
    SqMul(v.y, c);
    SqMul(v.z, c);
    MulDistR(Sq(v.x) + Sq(v.y), Sq(v.z), Sq(c));
    MulDistR(Sq(v.x), Sq(v.y), Sq(c));
  }

  lemma MulSwap(a: real, c: real)
    ensures Mul(Mul(a, c), a) == Mul(Sq(a), c)
  {
    MulAssoc(a, c, a);
    MulComm(c, a);
    MulAssoc(a, a, c);
  }

  lemma ScaleDot(v: Vec3, c: real)
    ensures Dot(Scale(v, c), v) == Mul(LengthSq(v), c)
  {
    MulSwap(v.x, c);
    MulSwap(v.y, c);
    MulSwap(v.z, c);
    MulDistR(Sq(v.x) + Sq(v.y), Sq(v.z), c);
    MulDistR(Sq(v.x), Sq(v.y), c);
  }

  lemma ScaleScale(v: Vec3, a: real, b: real)
    ensures Scale(Scale(v, a), b) == Scale(v, Mul(a, b))
  {
    MulAssoc(v.x, a, b);
    MulAssoc(v.y, a, b);
    MulAssoc(v.z, a, b);
  }

  lemma ScaleOne(v: Vec3)
    ensures Scale(v, 1.0) == v
  {
  }

  lemma NegateOrigin()
    ensures Negate(Origin) == Origin
  {
  }

  lemma ScaleOrigin(c: real)
    ensures Scale(Origin, c) == Origin
  {
  }

  lemma NegateScale(v: Vec3, c: real, k: real)
    ensures Scale(Negate(Scale(v, c)), k) == Scale(v, -Mul(c, k))
  {
    MulNegL(Mul(v.x, c), k);
    MulNegL(Mul(v.y, c), k);
    MulNegL(Mul(v.z, c), k);
    MulAssoc(v.x, c, k);
    MulAssoc(v.y, c, k);
    MulAssoc(v.z, c, k);
    MulNegR(v.x, Mul(c, k));
    MulNegR(v.y, Mul(c, k));
    MulNegR(v.z, Mul(c, k));
  }

  // ---------------------------------------------------------------------
  // Square roots, supplied from outside
  // ---------------------------------------------------------------------

  /** `r` is the (non-negative) square root of `x`. */
  predicate IsRoot(r: real, x: real)
  {
    r >= 0.0 && Sq(r) == x
  }

  /** A non-negative square root is unique, so passing it in loses nothing. */
  lemma RootUnique(r1: real, r2: real, x: real)
    requires IsRoot(r1, x) && IsRoot(r2, x)
    ensures r1 == r2
  {
    if r1 < r2 {
      SqLt(r1, r2);
    } else if r2 < r1 {
      SqLt(r2, r1);
    }
  }

  /** The only square root of zero is zero. */
  lemma RootOfZero(r: real)
    requires IsRoot(r, 0.0)
    ensures r == 0.0
  {
    if r != 0.0 {
      SqPositive(r);
    }
  }

  /** Comparing a root with a non-negative bound is comparing the squares. */
  lemma RootCompare(r: real, x: real, b: real)
    requires IsRoot(r, x) && b >= 0.0
    ensures r > b <==> x > Sq(b)
  {
    if r > b {
      SqLt(b, r);
    } else {
      SqLe(r, b);
    }
  }

  // ---------------------------------------------------------------------
  // The attraction multiplier (star-scene.tsx:444-452)
  // ---------------------------------------------------------------------

  /** The multiplier the frame callback uses for a body at distance `d`. */
  function AttractionMultiplier(d: real): (k: real)
    ensures k >= BaseAttraction
    ensures d <= MaxDistance ==> k == BaseAttraction
  {
    if d > MaxDistance then
      BaseAttraction + ((d - MaxDistance) / MaxDistance) * AttractionSlope
    else
      BaseAttraction
  }

  /** The multiplier is the base value exactly up to MaxDistance, and larger beyond. */
  lemma MultiplierBase(d: real)
    ensures AttractionMultiplier(d) >= BaseAttraction
    ensures AttractionMultiplier(d) == BaseAttraction <==> d <= MaxDistance
  {
  }

  lemma MultiplierMonotone(d1: real, d2: real)
    requires d1 <= d2
    ensures AttractionMultiplier(d1) <= AttractionMultiplier(d2)
  {
  }

  /**
   * The multiplier is Lipschitz with constant 0.3 / 8, so in particular it
   * is continuous at MaxDistance: there is no jump when a body crosses it.
   */
  lemma MultiplierLipschitz(d1: real, d2: real)
    requires d1 <= d2
    ensures 0.0 <= AttractionMultiplier(d2) - AttractionMultiplier(d1)
                 <= (AttractionSlope / MaxDistance) * (d2 - d1)
  {
  }

  // ---------------------------------------------------------------------
  // Hard correction and impulse (star-scene.tsx:455-477)
  // ---------------------------------------------------------------------

  /**
   * `position.normalize().multiplyScalar(maxDistance)`: normalize multiplies
   * by the reciprocal of the length (non-zero here), then the unit vector is
   * scaled.
   */
  function ProjectToSphere(p: Vec3, d: real): (r: Vec3)
    requires d > 0.0
    ensures r == Scale(p, Div(MaxDistance, d))
  {
    ScaleScale(p, Div(1.0, d), MaxDistance);
    assert Mul(Div(1.0, d), MaxDistance) == Div(MaxDistance, d) by {
      MulComm(Div(1.0, d), d);
      assert Mul(d, Div(1.0, d)) == 1.0;
      MulLeR(MaxDistance, 0.0, 0.0);
    }
    Scale(Scale(p, Div(1.0, d)), MaxDistance)
  }

  /** The position the callback works with after the optional hard correction. */
  function CorrectedPosition(p: Vec3, d: real): (r: Vec3)
    requires IsRoot(d, LengthSq(p))
    ensures d <= HardDistance ==> r == p
    ensures d > HardDistance ==> LengthSq(r) == Sq(MaxDistance)
  {
    if d > HardDistance then
      ProjectionOnSphere(p, d);
      ProjectToSphere(p, d)
    else
      p
  }

  /** The impulse handed to `applyImpulse`: the corrected position, negated and scaled. */
  function Impulse(p: Vec3, d: real): (r: Vec3)
    requires IsRoot(d, LengthSq(p))
    ensures d <= MaxDistance ==> r == Scale(Negate(p), BaseAttraction)
  {
    Scale(Negate(CorrectedPosition(p, d)), AttractionMultiplier(d))
  }

  /**
   * Beyond HardDistance the body lands exactly on the sphere of radius
   * MaxDistance, in its own direction (a factor strictly between 0 and 1),
   * and so strictly closer to the centre.
   */
  lemma {:induction false} ProjectionOnSphere(p: Vec3, d: real)
    requires IsRoot(d, LengthSq(p)) && d > HardDistance
    ensures ProjectToSphere(p, d) == Scale(p, Div(MaxDistance, d))
    ensures 0.0 < Div(MaxDistance, d) < 1.0
    ensures LengthSq(ProjectToSphere(p, d)) == Sq(MaxDistance)
    ensures Dot(ProjectToSphere(p, d), p) == MaxDistance * d
  {
    var c := Div(MaxDistance, d);
    ScaleScale(p, Div(1.0, d), MaxDistance);
    assert Mul(Div(1.0, d), MaxDistance) == c by {
      MulComm(Div(1.0, d), d);
      assert Mul(d, Div(1.0, d)) == 1.0;
      MulLeR(MaxDistance, 0.0, 0.0);
    }
    assert 0.0 < c < 1.0 by {
      if c <= 0.0 {
        MulLeR(d, c, 0.0);
      } else if c >= 1.0 {
        MulLeR(d, 1.0, c);
      }
    }
    ScaleLengthSq(p, c);
    MulComm(Sq(d), Sq(c));
    SqMul(c, d);
    ScaleDot(p, c);
    calc {
      Mul(Sq(d), c);
      { MulAssoc(d, d, c); }
      Mul(d, Mul(d, c));
      { MulComm(d, c); }
      Mul(d, MaxDistance);
    }
  }

  /** The correction fires exactly when the distance exceeds HardDistance. */
  lemma {:induction false} CorrectionFiresBeyondHardDistance(p: Vec3, d: real)
    requires IsRoot(d, LengthSq(p))
    ensures CorrectedPosition(p, d) == p <==> d <= HardDistance
  {
    if d > HardDistance {
      ProjectionOnSphere(p, d);
      SqLt(MaxDistance, d);
      assert LengthSq(CorrectedPosition(p, d)) != LengthSq(p);
    }
  }

  /** At the moment the callback runs, the position it works with is within HardDistance. */
  lemma {:induction false} CorrectedWithinHardDistance(p: Vec3, d: real)
    requires IsRoot(d, LengthSq(p))
    ensures LengthSq(CorrectedPosition(p, d)) <= Sq(HardDistance)
  {
    if d > HardDistance {
      ProjectionOnSphere(p, d);
      SqLe(MaxDistance, HardDistance);
    } else {
      SqLe(d, HardDistance);
    }
  }

  /** A body at the origin receives the zero impulse; no division is involved. */
  lemma {:induction false} ImpulseAtOrigin(d: real)
    requires IsRoot(d, LengthSq(Origin))
    ensures Impulse(Origin, d) == Origin
  {
    LengthSqZero(Origin);
    RootOfZero(d);
    CorrectionAtOrigin(d);
    NegateOrigin();
    ScaleOrigin(AttractionMultiplier(d));
  }

  lemma CorrectionAtOrigin(d: real)
    requires d == 0.0 && IsRoot(d, LengthSq(Origin))
    ensures CorrectedPosition(Origin, d) == Origin
  {
  }

  /** Any other body is pushed towards the centre: the impulse opposes its position. */
  lemma {:induction false} ImpulseTowardsCentre(p: Vec3, d: real)
    requires IsRoot(d, LengthSq(p)) && p != Origin
    ensures Dot(Impulse(p, d), p) < 0.0
  {
    var k := AttractionMultiplier(d);
    MultiplierBase(d);
    var c := if d > HardDistance then Div(MaxDistance, d) else 1.0;
    if d > HardDistance {
      ProjectionOnSphere(p, d);
    } else {
      ScaleOne(p);
    }
    assert CorrectedPosition(p, d) == Scale(p, c);
    NegateScale(p, c, k);
    ScaleDot(p, -Mul(c, k));
    LengthSqZero(p);
    MulPos(c, k);
    MulPos(LengthSq(p), Mul(c, k));
    MulNegR(LengthSq(p), Mul(c, k));
  }

  // ---------------------------------------------------------------------
  // Speed clamp (star-scene.tsx:480-494)
  // ---------------------------------------------------------------------

  /**
   * The velocity after the clamp, given the velocity `v` the engine reports
   * and its length `speed` (`Math.sqrt(speedSq)`).
   */
  function ClampedVelocity(v: Vec3, speed: real): (r: Vec3)
    requires IsRoot(speed, LengthSq(v))
    ensures LengthSq(r) <= LengthSq(v)
  {
    if LengthSq(v) > Sq(MaxSpeed) then
      var c := Div(MaxSpeed, speed);
      RootCompare(speed, LengthSq(v), MaxSpeed);
      assert 0.0 < c < 1.0 by {
        if c <= 0.0 {
          MulLeR(speed, c, 0.0);
        } else if c >= 1.0 {
          MulLeR(speed, 1.0, c);
        }
      }
      ScaleLengthSq(v, c);
      SqLe(c, 1.0);
      MulLe(LengthSq(v), Sq(c), 1.0);
      Scale(v, c)
    else
      v
  }

  /**
   * Too fast a body keeps its direction and is slowed to exactly MaxSpeed;
   * any other velocity is left alone. Either way the result is within MaxSpeed.
   */
  lemma {:induction false} ClampSpeed(v: Vec3, speed: real)
    requires IsRoot(speed, LengthSq(v))
    ensures LengthSq(ClampedVelocity(v, speed)) <= Sq(MaxSpeed)
    ensures ClampedVelocity(v, speed) == v <==> LengthSq(v) <= Sq(MaxSpeed)
    ensures LengthSq(v) > Sq(MaxSpeed) ==>
              && 0.0 < Div(MaxSpeed, speed) < 1.0
              && ClampedVelocity(v, speed) == Scale(v, Div(MaxSpeed, speed))
              && LengthSq(ClampedVelocity(v, speed)) == Sq(MaxSpeed)
  {
    if LengthSq(v) > Sq(MaxSpeed) {
      RootCompare(speed, LengthSq(v), MaxSpeed);
      var c := Div(MaxSpeed, speed);
      assert 0.0 < c < 1.0 by {
        if c <= 0.0 {
          MulLeR(speed, c, 0.0);
        } else if c >= 1.0 {
          MulLeR(speed, 1.0, c);
        }
      }
      ScaleLengthSq(v, c);
      MulComm(Sq(speed), Sq(c));
      SqMul(c, speed);
      assert LengthSq(ClampedVelocity(v, speed)) != LengthSq(v);
    }
  }

  /** Clamping an already clamped velocity changes nothing. */
  lemma {:induction false} ClampIdempotent(v: Vec3, speed: real, speed': real)
    requires IsRoot(speed, LengthSq(v))
    requires IsRoot(speed', LengthSq(ClampedVelocity(v, speed)))
    ensures ClampedVelocity(ClampedVelocity(v, speed), speed') == ClampedVelocity(v, speed)
  {
    ClampSpeed(v, speed);
  }

  // ---------------------------------------------------------------------
  // The rigid body the frame callback drives (star-scene.tsx:429-496)
  // ---------------------------------------------------------------------

  /**
   * The state of one `Connector`'s rigid body that the callback reads and
   * writes: its translation and its linear velocity.
   */
  class Body {
    var pos: Vec3
    var vel: Vec3

    /** A body placed at `p` (the `position` prop of `RigidBody`), at rest. */
    constructor (p: Vec3)
      ensures pos == p && vel == Origin
    {
      pos := p;
      vel := Origin;
    }

    /**
     * The first half of the callback: read the translation, pick the
     * attraction multiplier, correct an outlier (`setTranslation`, and
     * `setLinvel` to zero) and return the impulse passed to `applyImpulse`.
     * `dist` is `position.length()`.
     */
    method Recenter(dist: real) returns (impulse: Vec3)
      requires IsRoot(dist, LengthSq(pos))
      modifies this
      ensures pos == CorrectedPosition(old(pos), dist)
      ensures vel == if dist > HardDistance then Origin else old(vel)
      ensures impulse == Impulse(old(pos), dist)
      ensures LengthSq(pos) <= Sq(HardDistance)
      ensures old(pos) != Origin ==> Dot(impulse, old(pos)) < 0.0
    {
      ghost var p0 := pos;
      var position := pos;
      var attraction := BaseAttraction;
      if dist > MaxDistance {
        var distanceFactor := (dist - MaxDistance) / MaxDistance;
        attraction := BaseAttraction + distanceFactor * AttractionSlope;
        if dist > MaxDistance * 1.5 {
          position := Scale(Scale(position, Div(1.0, dist)), MaxDistance);
          pos := position;
          vel := Origin;
        }
      }
      impulse := Scale(Negate(position), attraction);
      CorrectedWithinHardDistance(p0, dist);
      if p0 != Origin {
        ImpulseTowardsCentre(p0, dist);
      }
    }

    /**
     * The second half of the callback: read the linear velocity and, when
     * its squared length exceeds MaxSpeed², scale it down to MaxSpeed.
     * `speed` is `Math.sqrt(speedSq)`.
     */
    method LimitSpeed(speed: real)
      requires IsRoot(speed, LengthSq(vel))
      modifies this
      ensures vel == ClampedVelocity(old(vel), speed)
      ensures pos == old(pos)
      ensures LengthSq(vel) <= Sq(MaxSpeed)
    {
      var speedSq := LengthSq(vel);
      if speedSq > Sq(MaxSpeed) {
        var slowDown := Div(MaxSpeed, speed);
        vel := Scale(vel, slowDown);
      }
      ClampSpeed(old(vel), speed);
    }

    /**
     * One run of the frame callback. The engine turns the impulse into a
     * new velocity in a way that is not modelled: `reported` is what
     * `linvel()` returns after `applyImpulse`, and `speed` its length.
     */
    method OnFrame(dist: real, reported: Vec3, speed: real) returns (impulse: Vec3)
      requires IsRoot(dist, LengthSq(pos))
      requires IsRoot(speed, LengthSq(reported))
      modifies this
      ensures pos == CorrectedPosition(old(pos), dist)
      ensures impulse == Impulse(old(pos), dist)
      ensures vel == ClampedVelocity(reported, speed)
      ensures LengthSq(pos) <= Sq(HardDistance)
      ensures LengthSq(vel) <= Sq(MaxSpeed)
    {
      impulse := Recenter(dist);
      vel := reported;
      LimitSpeed(speed);
    }
  }

  // ---------------------------------------------------------------------
  // Initial placement (star-scene.tsx:420-427)
  // ---------------------------------------------------------------------

  /** three.js `MathUtils.randFloatSpread(range)`, with `u` the value of `Math.random()`. */
  function RandFloatSpread(range: real, u: real): (r: real)
    requires 0.0 <= u < 1.0
    ensures range >= 0.0 ==> -range / 2.0 <= r <= range / 2.0
    ensures range > 0.0 ==> -range / 2.0 < r
  {
    if range >= 0.0 then
      MulLe(range, 0.5 - u, 0.5);
      MulLe(range, -0.5, 0.5 - u);
      if range > 0.0 then
        MulLt(range, -0.5, 0.5 - u);
        Mul(range, 0.5 - u)
      else
        Mul(range, 0.5 - u)
    else
      Mul(range, 0.5 - u)
  }

  /** The spread `Connector` uses when no position is given. */
  const SpawnSpread: real := 5.0

  /**
   * The initial position of a `Connector`: the `position` prop when there is
   * one, otherwise a point of the half-open cube (-2.5, 2.5]³ drawn from
   * the three random numbers `u`.
   */
  function SpawnPosition(position: Option<Vec3>, u: Vec3): (r: Vec3)
    requires 0.0 <= u.x < 1.0 && 0.0 <= u.y < 1.0 && 0.0 <= u.z < 1.0
    ensures position.Some? ==> r == position.value
    ensures position.None? ==>
              && -SpawnSpread / 2.0 < r.x <= SpawnSpread / 2.0
              && -SpawnSpread / 2.0 < r.y <= SpawnSpread / 2.0
              && -SpawnSpread / 2.0 < r.z <= SpawnSpread / 2.0
  {
    match position
    case Some(p) => p
    case None =>
      Vec3(RandFloatSpread(SpawnSpread, u.x),
           RandFloatSpread(SpawnSpread, u.y),
           RandFloatSpread(SpawnSpread, u.z))
  }

  /** A random spawn point is well inside MaxDistance, so it starts with the base attraction. */
  lemma {:induction false} SpawnInsideSoftRadius(u: Vec3, d: real)
    requires 0.0 <= u.x < 1.0 && 0.0 <= u.y < 1.0 && 0.0 <= u.z < 1.0
    requires IsRoot(d, LengthSq(SpawnPosition(None, u)))
    ensures LengthSq(SpawnPosition(None, u)) < Sq(MaxDistance)
    ensures d < MaxDistance && AttractionMultiplier(d) == BaseAttraction
  {
    var p := SpawnPosition(None, u);
    SqBound(p.x, 2.5);
    SqBound(p.y, 2.5);
    SqBound(p.z, 2.5);
    assert Sq(2.5) == 6.25;
    RootCompare(d, LengthSq(p), MaxDistance);
  }

  // ---------------------------------------------------------------------
  // Pointer proxy (star-scene.tsx:530-538)
  // ---------------------------------------------------------------------

  /**
   * The kinematic target for normalized pointer coordinates (`mouse.x`,
   * `mouse.y`) and a viewport of the given width and height.
   */
  function PointerTarget(mx: real, my: real, width: real, height: real): (r: Vec3)
    ensures r.z == 0.0
    ensures mx == 0.0 ==> r.x == 0.0
    ensures my == 0.0 ==> r.y == 0.0
  {
    Vec3(Mul(mx, width) / 2.0, Mul(my, height) / 2.0, 0.0)
  }

  /**
   * The target lies on the plane z = 0; the pointer's centre maps to the
   * origin whatever the viewport; a pointer within [-1, 1]² stays within
   * the viewport's half-extents.
   */
  lemma {:induction false} PointerMapping(mx: real, my: real, width: real, height: real)
    requires -1.0 <= mx <= 1.0 && -1.0 <= my <= 1.0
    requires width >= 0.0 && height >= 0.0
    ensures PointerTarget(mx, my, width, height).z == 0.0
    ensures PointerTarget(0.0, 0.0, width, height) == Origin
    ensures -width / 2.0 <= PointerTarget(mx, my, width, height).x <= width / 2.0
    ensures -height / 2.0 <= PointerTarget(mx, my, width, height).y <= height / 2.0
  {
    MulLeR(width, mx, 1.0);
    MulLeR(width, -1.0, mx);
    MulLeR(height, my, 1.0);
    MulLeR(height, -1.0, my);
  }
}
