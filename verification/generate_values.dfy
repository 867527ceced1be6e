/**
 * Geometry and channel generation of the simulator (uavnoma/generate_values.py).
 *
 * Every random draw is an input: `u` values are the [0, 1) samples of
 * np.random.rand / np.random.uniform, and a `Draw` holds the two standard
 * normal samples behind np.random.normal(s, sigma) and np.random.normal(0, sigma).
 */
module GenerateValues {
  import opened Elementary
  import opened Statistics
  import opened Wrappers

  /** math.pi as a double. */
  const Pi: real := 3.141592653589793

  /** np.random.uniform(lo, hi) for the [0, 1) sample u. */
  function Uniform(lo: real, hi: real, u: real): (r: real)
    ensures lo <= hi && 0.0 <= u < 1.0 ==> lo <= r <= hi
    ensures lo < hi && 0.0 <= u < 1.0 ==> r < hi
  {
    if lo <= hi && 0.0 <= u < 1.0 then
      MulNonNegative(hi - lo, u);
      MulNonNegative(hi - lo, 1.0 - u);
      if lo < hi then
        MulPositive(hi - lo, 1.0 - u);
        lo + (hi - lo) * u
      else
        lo + (hi - lo) * u
    else
      lo + (hi - lo) * u
  }

  datatype Point = Point(x: real, y: real)

  /** The point at angle 2*pi*u on the circle of radius rho about the origin. */
  function PolarPoint(f: Funcs, rho: real, u: real): Point
  {
    var theta := u * (Pi * 2.0);
    Point(rho * f.cos(theta), rho * f.sin(theta))
  }

  /** Whatever the angle, the polar point lies at distance rho from the origin. */
  lemma PolarPointOnCircle(f: Funcs, rho: real, u: real)
    requires TrigLaw(f)
    ensures var p := PolarPoint(f, rho, u); p.x * p.x + p.y * p.y == rho * rho
  {
    var theta := u * (Pi * 2.0);
    var c, s := f.cos(theta), f.sin(theta);
    assert c * c + s * s == 1.0;
    assert (rho * c) * (rho * c) + (rho * s) * (rho * s) == (rho * rho) * (c * c + s * s);
  }

  /** Position of the UAV on its trajectory circle at a height drawn from [height - 5, height + 5). */
  datatype UavPosition = UavPosition(x: real, y: real, z: real)

  function RandomPositionUav(f: Funcs, radiusUav: real, uavHeight: real, uAngle: real, uHeight: real): UavPosition
  {
    var p := PolarPoint(f, radiusUav, uAngle);
    UavPosition(p.x, p.y, Uniform(uavHeight - 5.0, uavHeight + 5.0, uHeight))
  }

  /** The UAV is on the trajectory circle, and its height lies in the drawing interval. */
  lemma RandomPositionUavBounds(f: Funcs, radiusUav: real, uavHeight: real, uAngle: real, uHeight: real)
    requires 0.0 <= uHeight < 1.0
    ensures var q := RandomPositionUav(f, radiusUav, uavHeight, uAngle, uHeight);
      uavHeight - 5.0 <= q.z < uavHeight + 5.0 &&
      (TrigLaw(f) ==> q.x * q.x + q.y * q.y == radiusUav * radiusUav)
  {
    if TrigLaw(f) {
      PolarPointOnCircle(f, radiusUav, uAngle);
    }
  }

  /** One user's position: angle 2*pi*uAngle, radius sqrt(uRadius) * radiusUser. */
  function UserPosition(f: Funcs, radiusUser: real, uAngle: real, uRadius: real): Point
  {
    PolarPoint(f, f.sqrt(uRadius) * radiusUser, uAngle)
  }

  /** Users are drawn inside the disc of radius radiusUser, at squared distance uRadius * radiusUser^2. */
  lemma UserPositionInDisc(f: Funcs, radiusUser: real, uAngle: real, uRadius: real)
    requires SqrtLaw(f) && TrigLaw(f)
    requires 0.0 <= uRadius < 1.0 && 0.0 <= radiusUser
    ensures var p := UserPosition(f, radiusUser, uAngle, uRadius);
      p.x * p.x + p.y * p.y == uRadius * (radiusUser * radiusUser) &&
      p.x * p.x + p.y * p.y <= radiusUser * radiusUser
  {
    var r := f.sqrt(uRadius);
    SqrtBelowOne(f, uRadius);
    PolarPointOnCircle(f, r * radiusUser, uAngle);
    assert (r * radiusUser) * (r * radiusUser) == (r * r) * (radiusUser * radiusUser);
    MulNonNegative(1.0 - uRadius, radiusUser * radiusUser);
  }

  /** random_position_users: one position per pair of angle and radius samples. */
  function RandomPositionUsers(f: Funcs, radiusUser: real, uAngles: seq<real>, uRadii: seq<real>): (ps: seq<Point>)
    requires |uAngles| == |uRadii|
    ensures |ps| == |uAngles|
    ensures forall i :: 0 <= i < |ps| ==> ps[i] == UserPosition(f, radiusUser, uAngles[i], uRadii[i])
  {
    seq(|uAngles|, i requires 0 <= i < |uAngles| => UserPosition(f, radiusUser, uAngles[i], uRadii[i]))
  }

  /** Mean and standard deviation of the Rician fading. */
  datatype RicianParams = RicianParams(s: real, sigma: real)

  function FadingRician(f: Funcs, k: real, pLos: real): RicianParams
    requires k + 1.0 != 0.0 && f.sqrt(2.0 * (k + 1.0)) != 0.0
  {
    RicianParams(f.sqrt(k / (k + 1.0) * pLos), pLos / f.sqrt(2.0 * (k + 1.0)))
  }

  lemma QuotientSquare(p: real, r: real)
    requires r != 0.0
    ensures (p / r) * (p / r) * (r * r) == p * p
  {
    var q := p / r;
    assert q * r == p;
    assert q * q * (r * r) == (q * r) * (q * r);
  }

  /**
   * For a non-negative Rician factor K and line-of-sight power P, the mean s
   * satisfies s >= 0 and s^2 = K*P / (K + 1), and the standard deviation
   * satisfies sigma^2 * 2(K + 1) = P^2, with sigma > 0 when P > 0.
   */
  lemma FadingRicianIdentities(f: Funcs, k: real, pLos: real)
    requires SqrtLaw(f) && 0.0 <= k && 0.0 <= pLos
    ensures k + 1.0 != 0.0 && f.sqrt(2.0 * (k + 1.0)) != 0.0
    ensures var p := FadingRician(f, k, pLos);
      0.0 <= p.s && p.s * p.s == k * pLos / (k + 1.0) &&
      0.0 <= p.sigma && p.sigma * p.sigma * (2.0 * (k + 1.0)) == pLos * pLos &&
      (0.0 < pLos ==> 0.0 < p.sigma)
  {
    SqrtPositive(f, 2.0 * (k + 1.0));
    var r := f.sqrt(2.0 * (k + 1.0));
    assert 0.0 <= k / (k + 1.0);
    MulNonNegative(k / (k + 1.0), pLos);
    assert k / (k + 1.0) * pLos == k * pLos / (k + 1.0);
    QuotientSquare(pLos, r);
    assert r * r == 2.0 * (k + 1.0);
  }

  /** The two standard normal samples behind one user's small-scale fading. */
  datatype Draw = Draw(inPhase: real, quadrature: real)

  /**
   * |h|^2 of the small-scale fading h = sqrt(a^2 + j*b^2), with a drawn from
   * N(s, sigma) and b from N(0, sigma): the modulus |a^2 + j*b^2| = sqrt(a^4 + b^4).
   */
  function SmallScalePower(f: Funcs, s: real, sigma: real, d: Draw): real
  {
    var a := s + sigma * d.inPhase;
    var b := sigma * d.quadrature;
    f.sqrt((a * a) * (a * a) + (b * b) * (b * b))
  }

  /** The small-scale power in terms of the two amplitudes a and b of the draw. */
  lemma SmallScalePowerOfAmplitudes(f: Funcs, s: real, sigma: real, d: Draw, a: real, b: real)
    requires a == s + sigma * d.inPhase && b == sigma * d.quadrature
    ensures SmallScalePower(f, s, sigma, d) == f.sqrt((a * a) * (a * a) + (b * b) * (b * b))
  {
    var y := ((s + sigma * d.inPhase) * (s + sigma * d.inPhase)) * ((s + sigma * d.inPhase) * (s + sigma * d.inPhase))
      + ((sigma * d.quadrature) * (sigma * d.quadrature)) * ((sigma * d.quadrature) * (sigma * d.quadrature));
    assert SmallScalePower(f, s, sigma, d) == f.sqrt(y);
    assert (a * a) * (a * a) + (b * b) * (b * b) == y;
  }

  lemma SmallScalePowerNonNegative(f: Funcs, s: real, sigma: real, d: Draw)
    requires SqrtLaw(f)
    ensures 0.0 <= SmallScalePower(f, s, sigma, d)
  {
    var a := s + sigma * d.inPhase;
    var b := sigma * d.quadrature;
    MulNonNegative(a * a, a * a);
    MulNonNegative(b * b, b * b);
  }

  /** Distance from a user at (ux, uy, 0) to the UAV at (x, y, z). */
  function UserDistance(f: Funcs, ux: real, uy: real, x: real, y: real, z: real): real
  {
    f.sqrt((ux - x) * (ux - x) + (uy - y) * (uy - y) + z * z)
  }

  /** The UAV-user distance is at least the UAV's height above the ground, and positive when that height is not zero. */
  lemma UserDistanceBounds(f: Funcs, ux: real, uy: real, x: real, y: real, z: real)
    requires SqrtLaw(f)
    ensures var d := UserDistance(f, ux, uy, x, y, z);
      d * d == (ux - x) * (ux - x) + (uy - y) * (uy - y) + z * z &&
      z * z <= d * d && z <= d && -z <= d &&
      (z != 0.0 ==> 0.0 < d)
  {
    var q := (ux - x) * (ux - x) + (uy - y) * (uy - y) + z * z;
    SqrtAtLeast(f, q, z);
    if z != 0.0 {
      if 0.0 < z { } else { assert 0.0 < -z; }
    }
  }

  /** sqrt(d^pathLoss), the amplitude attenuation of the large-scale fading. */
  function LargeScaleFading(f: Funcs, d: real, pathLoss: real): real
  {
    f.sqrt(f.pow(d, pathLoss))
  }

  lemma LargeScaleFadingPositive(f: Funcs, d: real, pathLoss: real)
    requires SqrtLaw(f) && PowLaw(f) && 0.0 < d
    ensures 0.0 < LargeScaleFading(f, d, pathLoss)
    ensures 0.0 < LargeScaleFading(f, d, pathLoss) * LargeScaleFading(f, d, pathLoss)
  {
    SqrtPositive(f, f.pow(d, pathLoss));
    MulPositive(LargeScaleFading(f, d, pathLoss), LargeScaleFading(f, d, pathLoss));
  }

  /** Channel gain |h / sqrt(d^pathLoss)|^2 of one user. */
  function UserGain(f: Funcs, s: real, sigma: real, draw: Draw, d: real, pathLoss: real): real
    requires LargeScaleFading(f, d, pathLoss) != 0.0
  {
    SmallScalePower(f, s, sigma, draw) / (LargeScaleFading(f, d, pathLoss) * LargeScaleFading(f, d, pathLoss))
  }

  lemma UserGainNonNegative(f: Funcs, s: real, sigma: real, draw: Draw, d: real, pathLoss: real)
    requires SqrtLaw(f) && PowLaw(f) && 0.0 < d
    ensures 0.0 < LargeScaleFading(f, d, pathLoss)
    ensures 0.0 <= UserGain(f, s, sigma, draw, d, pathLoss)
  {
    LargeScaleFadingPositive(f, d, pathLoss);
    SmallScalePowerNonNegative(f, s, sigma, draw);
  }

  /** The scene of one trial: Rician parameters, user and UAV positions and the path-loss exponent. */
  datatype Scene = Scene(
    s: real, sigma: real,
    userX: seq<real>, userY: seq<real>,
    uavX: real, uavY: real, uavZ: real,
    pathLoss: real)

  /**
   * The fixed geometry of a script whose UAV flies at a constant height:
   * the radii of the UAV's trajectory and of the users' disc, the height, the
   * Rician factor, the line-of-sight power and the path-loss exponent.
   */
  datatype Layout = Layout(
    radiusUav: real, radiusUser: real, zHeight: real,
    ricianFactor: real, powerLos: real, pathLoss: real)

  /**
   * The scene of one trial of such a script: the UAV at angle uavAngle on its
   * trajectory circle at the script's height, the users drawn in their disc.
   */
  function CircleScene(f: Funcs, l: Layout, uavAngle: real, uAngles: seq<real>, uRadii: seq<real>): (sc: Scene)
    requires SqrtLaw(f) && 0.0 <= l.ricianFactor && |uAngles| == |uRadii|
    ensures |sc.userX| == |uAngles| && |sc.userY| == |uAngles|
    ensures sc.uavZ == l.zHeight
  {
    var uav := PolarPoint(f, l.radiusUav, uavAngle);
    DrawScene(f, uav.x, uav.y, l.zHeight, l.radiusUser, uAngles, uRadii, l.ricianFactor, l.powerLos, l.pathLoss)
  }

  /**
   * Under the law of cos and sin the UAV of such a scene lies on its
   * trajectory circle, and it is off the ground exactly when the script's
   * height is not zero.
   */
  lemma CircleSceneOnTrajectory(f: Funcs, l: Layout, uavAngle: real, uAngles: seq<real>, uRadii: seq<real>)
    requires SqrtLaw(f) && TrigLaw(f) && 0.0 <= l.ricianFactor && |uAngles| == |uRadii|
    ensures var sc := CircleScene(f, l, uavAngle, uAngles, uRadii);
      && sc.uavX * sc.uavX + sc.uavY * sc.uavY == l.radiusUav * l.radiusUav
      && (Airborne(sc) <==> l.zHeight != 0.0)
  {
    PolarPointOnCircle(f, l.radiusUav, uavAngle);
  }

  /**
   * The scene of a trial whose UAV stands at (uavX, uavY, uavZ): each user at
   * the polar point of its samples in the disc of radius radiusUser, and the
   * Rician parameters of the factor and the line-of-sight power.
   */
  function DrawScene(f: Funcs, uavX: real, uavY: real, uavZ: real, radiusUser: real,
                     uAngles: seq<real>, uRadii: seq<real>, ricianFactor: real, powerLos: real,
                     pathLoss: real): (sc: Scene)
    requires SqrtLaw(f) && 0.0 <= ricianFactor && |uAngles| == |uRadii|
    ensures |sc.userX| == |uAngles| && |sc.userY| == |uAngles|
    ensures sc.uavZ == uavZ
  {
    SqrtPositive(f, 2.0 * (ricianFactor + 1.0));
    var users := RandomPositionUsers(f, radiusUser, uAngles, uRadii);
    var rice := FadingRician(f, ricianFactor, powerLos);
    Scene(rice.s, rice.sigma,
      seq(|users|, i requires 0 <= i < |users| => users[i].x),
      seq(|users|, i requires 0 <= i < |users| => users[i].y),
      uavX, uavY, uavZ, pathLoss)
  }

  /** Distance from user k to the UAV. */
  function Distance(f: Funcs, sc: Scene, k: int): real
    requires 0 <= k < |sc.userX| && k < |sc.userY|
  {
    UserDistance(f, sc.userX[k], sc.userY[k], sc.uavX, sc.uavY, sc.uavZ)
  }

  /** The scene places the UAV off the ground, so that every distance and every attenuation is positive. */
  predicate Airborne(sc: Scene)
  {
    sc.uavZ != 0.0
  }

  lemma DistancePositive(f: Funcs, sc: Scene, k: int)
    requires SqrtLaw(f) && PowLaw(f) && Airborne(sc)
    requires 0 <= k < |sc.userX| && k < |sc.userY|
    ensures 0.0 < Distance(f, sc, k)
    ensures 0.0 < LargeScaleFading(f, Distance(f, sc, k), sc.pathLoss)
  {
    UserDistanceBounds(f, sc.userX[k], sc.userY[k], sc.uavX, sc.uavY, sc.uavZ);
    LargeScaleFadingPositive(f, Distance(f, sc, k), sc.pathLoss);
  }

  /** Gain of user k in the scene. */
  function Gain(f: Funcs, sc: Scene, draws: seq<Draw>, k: int): (g: real)
    requires SqrtLaw(f) && PowLaw(f) && Airborne(sc)
    requires 0 <= k < |sc.userX| && k < |sc.userY| && k < |draws|
    ensures 0.0 <= g
  {
    DistancePositive(f, sc, k);
    UserGainNonNegative(f, sc.s, sc.sigma, draws[k], Distance(f, sc, k), sc.pathLoss);
    UserGain(f, sc.s, sc.sigma, draws[k], Distance(f, sc, k), sc.pathLoss)
  }

  /** The gains of users 0 .. n-1. */
  function Gains(f: Funcs, sc: Scene, draws: seq<Draw>, n: nat): (gs: seq<real>)
    requires SqrtLaw(f) && PowLaw(f) && Airborne(sc)
    requires n <= |sc.userX| && n <= |sc.userY| && n <= |draws|
    ensures |gs| == n
    ensures forall k :: 0 <= k < n ==> gs[k] == Gain(f, sc, draws, k) && 0.0 <= gs[k]
  {
    seq(n, k requires 0 <= k < n => Gain(f, sc, draws, k))
  }

  /** Primary and secondary channel gains. */
  datatype ChannelPair = ChannelPair(primary: real, secondary: real)

  datatype ChannelError =
    | NegativeDimensions   // np.zeros with a negative size
    | EmptyReduction       // np.min of a zero-size array
    | UserIndexOutOfRange  // user_X[uu] or user_Y[uu] past the end

  /**
   * The loop of generate_channel: for each user in turn, stops with false at
   * the first user without a position, and otherwise writes distance[uu] and
   * h_n[uu]. It succeeds exactly when every user has a position.
   */
  method FillGains(f: Funcs, sc: Scene, numberUser: nat, draws: seq<Draw>, hn: array<real>, distance: array<real>)
    returns (ok: bool)
    requires SqrtLaw(f) && PowLaw(f) && Airborne(sc)
    requires numberUser <= |draws| && hn != distance && hn.Length == distance.Length == numberUser
    modifies hn, distance
    ensures ok <==> numberUser <= |sc.userX| && numberUser <= |sc.userY|
    ensures ok ==> hn[..] == Gains(f, sc, draws, numberUser)
    ensures ok ==> forall k :: 0 <= k < numberUser ==> distance[k] == Distance(f, sc, k)
  {
    for uu := 0 to numberUser
      invariant uu <= |sc.userX| && uu <= |sc.userY|
      invariant forall k :: 0 <= k < uu ==> distance[k] == Distance(f, sc, k) && hn[k] == Gain(f, sc, draws, k)
    {
      if uu >= |sc.userX| || uu >= |sc.userY| {
        return false;
      }
      distance[uu] := Distance(f, sc, uu);
      DistancePositive(f, sc, uu);
      hn[uu] := UserGain(f, sc.s, sc.sigma, draws[uu], distance[uu], sc.pathLoss);
      assert hn[uu] == Gain(f, sc, draws, uu);
    }
    assert hn[..] == Gains(f, sc, draws, numberUser);
    return true;
  }

  /**
   * generate_channel: fills h_n and distance one user at a time, then gives the
   * weakest gain to the primary user and the strongest to the secondary.
   * Also returns the filled arrays' contents.
   */
  method GenerateChannel(f: Funcs, sc: Scene, numberUser: int, draws: seq<Draw>)
    returns (r: Result<ChannelPair, ChannelError>, gains: seq<real>, distances: seq<real>)
    requires SqrtLaw(f) && PowLaw(f) && Airborne(sc)
    requires numberUser <= |draws|
    ensures numberUser < 0 ==> r == Failure(NegativeDimensions)
    ensures 0 <= numberUser && (numberUser > |sc.userX| || numberUser > |sc.userY|) ==>
      r == Failure(UserIndexOutOfRange)
    ensures numberUser == 0 ==> r == Failure(EmptyReduction)
    ensures r.Success? <==> 0 < numberUser <= |sc.userX| && numberUser <= |sc.userY|
    ensures r.Success? ==>
      |gains| == |distances| == numberUser &&
      gains == Gains(f, sc, draws, numberUser) &&
      (forall k :: 0 <= k < numberUser ==> distances[k] == Distance(f, sc, k)) &&
      r.value.primary == Min(gains) && r.value.secondary == Max(gains) &&
      r.value.primary in gains && r.value.secondary in gains &&
      r.value.primary <= r.value.secondary &&
      0.0 <= r.value.primary
  {
    gains, distances := [], [];
    if numberUser < 0 {
      return Failure(NegativeDimensions), gains, distances;
    }
    var hn := new real[numberUser](_ => 0.0);
    var distance := new real[numberUser](_ => 0.0);
    var filled := FillGains(f, sc, numberUser, draws, hn, distance);
    if !filled {
      return Failure(UserIndexOutOfRange), gains, distances;
    }
    gains, distances := hn[..], distance[..];
    if numberUser == 0 {
      return Failure(EmptyReduction), gains, distances;
    }
    assert gains == Gains(f, sc, draws, numberUser);
    var primary := Min(gains);
    var secondary := Max(gains);
    assert 0.0 <= gains[0] && primary <= gains[0] <= secondary;
    r := Success(ChannelPair(primary, secondary));
  }
}
