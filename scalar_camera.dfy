/**
 * The scalar cameras of the second and third releases: namespace globals
 * for a freeroam camera (position, front, up, yaw and pitch in degrees) and
 * an orbital camera (position, radius, azimuth and elevation around a fixed
 * look-at point), switched by a toggle and driven by key handlers. The
 * earlier prototype camera of the second release (freeroam only) is the
 * third variant.
 *
 * The pure functions below give the state after each handler; the class
 * `Camera` holds the globals as fields and its methods are proved to
 * produce exactly that state.
 */
module ScalarCamera {
  import opened Vectors
  import CameraControl

  /** Which copy of the camera code: the prototype header of the second
      release, the second release's engine, or the third release's engine. */
  datatype Release = Prototype | Second | Third

  /** Angular speeds, movement speeds and the pitch/elevation limit (degrees). */
  datatype Tuning = Tuning(sensitivity: real, movementSpeed: real, orbitSensitivity: real, zoomSpeed: real, limit: real)

  /** The constants of each release. The prototype has no orbital mode, so
      its orbital speeds are never read. */
  function TuningOf(r: Release): (t: Tuning)
    ensures t.limit > 0.0 && t.sensitivity > 0.0 && t.movementSpeed > 0.0
    ensures r != Prototype ==> t.orbitSensitivity > 0.0 && t.zoomSpeed > 0.0
  {
    match r
    case Prototype => Tuning(0.5, 0.5, 0.0, 0.0, 89.0)
    case Second => Tuning(0.5, 0.5, 2.0, 1.0, 89.0)
    case Third => Tuning(200.0, 100.0, 300.0, 150.0, 89.99)
  }

  /** The third release scales every step by the frame time; the earlier
      handlers take one fixed step per call. */
  function Elapsed(r: Release, dt: real): real {
    if r == Third then dt else 1.0
  }

  /** The camera fields of the configuration that the camera code reads. */
  datatype CameraConfig = CameraConfig(position: Vec3, lookAt: Vec3, up: Vec3)

  /** The default camera of the third release's configuration struct. */
  const DefaultThirdCamera: CameraConfig := CameraConfig(Vec3(1.0, 1.0, 1.0), Origin, Vec3(0.0, 1.0, 0.0))

  /** What stays fixed while the program runs: the world up vector and the
      orbital look-at point (both set during static initialisation), and the
      configured position that the orbital camera restarts from. */
  datatype Env = Env(release: Release, maths: Maths, worldUp: Vec3, lookAt: Vec3, configured: Vec3)

  /** The camera the globals are initialised from. The third release
      initialises them while its `world` is still default-constructed, before
      the configuration file is loaded; the second release loads the file in
      the initialiser of `world` itself, which comes first. */
  function StartupCamera(r: Release, loaded: CameraConfig): CameraConfig {
    if r == Third then DefaultThirdCamera else loaded
  }

  function EnvOf(r: Release, maths: Maths, loaded: CameraConfig): (env: Env)
    ensures env.release == r && env.maths == maths
    ensures env.configured == loaded.position
  {
    var start := StartupCamera(r, loaded);
    if r == Prototype then Env(r, maths, Vec3(0.0, 1.0, 0.0), Origin, loaded.position)
    else Env(r, maths, start.up, start.lookAt, loaded.position)
  }

  /** The values of the camera globals. */
  datatype CameraState = CameraState(
    inFreeroam: bool,
    pos: Vec3, front: Vec3, up: Vec3, yaw: real, pitch: real,
    position: Vec3, radius: real, azimuth: real, elevation: real)

  /** The globals after static initialisation. The orbital position and
      radius have static storage and no initialiser, so they start at zero. */
  function Startup(env: Env, loaded: CameraConfig): (s: CameraState)
    ensures s.inFreeroam
    ensures s.radius == 0.0 && s.azimuth == 0.0 && s.elevation == 0.0
  {
    if env.release == Prototype then
      CameraState(true, Vec3(0.0, 2.0, 0.0), Vec3(0.0, 0.0, -1.0), Vec3(0.0, 1.0, 0.0), -90.0, 0.0,
                  Origin, 0.0, 0.0, 0.0)
    else
      var start := StartupCamera(env.release, loaded);
      var front := env.maths.normalize(Sub(start.lookAt, start.position));
      CameraState(true, start.position, front, env.maths.normalize(env.worldUp),
                  Degrees(env.maths.atan2(front.x, front.z)), Degrees(env.maths.asin(front.y)),
                  Origin, 0.0, 0.0, 0.0)
  }

  // ----- freeroam -----

  /** The front direction of a yaw and a pitch in degrees, before
      normalisation; the prototype measures yaw from the x axis. */
  function Heading(env: Env, yaw: real, pitch: real): Vec3 {
    var y, p := Radians(yaw), Radians(pitch);
    if env.release == Prototype then
      Vec3(env.maths.cos(y) * env.maths.cos(p), env.maths.sin(p), env.maths.sin(y) * env.maths.cos(p))
    else
      CameraControl.Cartesian(env.maths, y, p)
  }

  /** updateVectors: front from yaw and pitch, up from front and world up. */
  function VectorsUpdated(env: Env, s: CameraState): (r: CameraState)
    ensures r.front == env.maths.normalize(Heading(env, s.yaw, s.pitch))
    ensures r.up == CameraControl.RightUp(env.maths, r.front, env.worldUp).1
    ensures r == s.(front := r.front, up := r.up)
  {
    var front := env.maths.normalize(Heading(env, s.yaw, s.pitch));
    s.(front := front, up := CameraControl.RightUp(env.maths, front, env.worldUp).1)
  }

  /** rotateYaw: yaw is not clamped. */
  function YawRotated(env: Env, s: CameraState, direction: real, dt: real): (r: CameraState)
    ensures r.yaw == s.yaw + CameraControl.Turn(direction, TuningOf(env.release).sensitivity, Elapsed(env.release, dt))
    ensures r.pitch == s.pitch && r.pos == s.pos
  {
    VectorsUpdated(env, s.(yaw := s.yaw + CameraControl.Turn(direction, TuningOf(env.release).sensitivity, Elapsed(env.release, dt))))
  }

  /** rotatePitch: the pitch is cut back to the limit on either side. */
  function PitchRotated(env: Env, s: CameraState, direction: real, dt: real): (r: CameraState)
    ensures var limit := TuningOf(env.release).limit;
      -limit <= r.pitch <= limit
    ensures var limit, p := TuningOf(env.release).limit, s.pitch + CameraControl.Turn(direction, TuningOf(env.release).sensitivity, Elapsed(env.release, dt));
      -limit <= p <= limit ==> r.pitch == p
    ensures r.yaw == s.yaw && r.pos == s.pos
  {
    var limit := TuningOf(env.release).limit;
    var p := s.pitch + CameraControl.Turn(direction, TuningOf(env.release).sensitivity, Elapsed(env.release, dt));
    var p1 := if p > limit then limit else p;
    var p2 := if p1 < -limit then -limit else p1;
    VectorsUpdated(env, s.(pitch := p2))
  }

  /** Moves the freeroam position along a direction. */
  function Moved(s: CameraState, direction: Vec3, amount: real): CameraState {
    s.(pos := Add(s.pos, Scale(amount, direction)))
  }

  /** How far one movement key moves. */
  function Stride(env: Env, dt: real): real {
    TuningOf(env.release).movementSpeed * Elapsed(env.release, dt)
  }

  /** moveRight by a signed amount (moveLeft is the negated amount). The
      second release's engine takes the right vector of the reversed front
      and subtracts it. */
  function Sideways(env: Env, s: CameraState, amount: real): CameraState {
    if env.release == Second then
      Moved(s, env.maths.normalize(Cross(Neg(s.front), env.worldUp)), -amount)
    else
      Moved(s, env.maths.normalize(Cross(s.front, env.worldUp)), amount)
  }

  /** The freeroam movement keys: w/s along front, a/d sideways, q/e along
      the world up vector (q and e only outside the prototype). */
  function FreeroamKey(env: Env, s: CameraState, key: char, dt: real): CameraState {
    var k := Stride(env, dt);
    if key == 'w' then Moved(s, s.front, k)
    else if key == 's' then Moved(s, s.front, -k)
    else if key == 'a' then Sideways(env, s, -k)
    else if key == 'd' then Sideways(env, s, k)
    else if key == 'q' && env.release != Prototype then Moved(s, env.worldUp, k)
    else if key == 'e' && env.release != Prototype then Moved(s, env.worldUp, -k)
    else s
  }

  // ----- orbital -----

  /** The point at `radius` from the look-at point in the direction of an
      azimuth and an elevation in degrees. */
  function OrbitPosition(env: Env, radius: real, azimuth: real, elevation: real): Vec3 {
    var a, e := Radians(azimuth), Radians(elevation);
    Add(env.lookAt, Vec3(radius * env.maths.cos(e) * env.maths.sin(a),
                         radius * env.maths.sin(e),
                         radius * env.maths.cos(e) * env.maths.cos(a)))
  }

  /** The orbital globals agree with each other: the elevation is within
      the limit and the position is where radius, azimuth and elevation put
      it. This is what updatePosition establishes. */
  predicate OrbitSettled(env: Env, s: CameraState) {
    var limit := TuningOf(env.release).limit;
    -limit <= s.elevation <= limit && s.position == OrbitPosition(env, s.radius, s.azimuth, s.elevation)
  }

  /** updatePosition: clamp the elevation, then place the camera. */
  function PositionUpdated(env: Env, s: CameraState): (r: CameraState)
    ensures OrbitSettled(env, r)
    ensures r.radius == s.radius && r.azimuth == s.azimuth && r.inFreeroam == s.inFreeroam
    ensures r.pos == s.pos && r.front == s.front && r.up == s.up && r.yaw == s.yaw && r.pitch == s.pitch
    ensures OrbitSettled(env, s) ==> r == s
  {
    var limit := TuningOf(env.release).limit;
    var e := Clamp(s.elevation, -limit, limit);
    s.(elevation := e, position := OrbitPosition(env, s.radius, s.azimuth, e))
  }

  function AzimuthRotated(env: Env, s: CameraState, direction: real, dt: real): CameraState {
    PositionUpdated(env, s.(azimuth := s.azimuth + CameraControl.Turn(direction, TuningOf(env.release).orbitSensitivity, Elapsed(env.release, dt))))
  }

  function ElevationRotated(env: Env, s: CameraState, direction: real, dt: real): CameraState {
    PositionUpdated(env, s.(elevation := s.elevation + CameraControl.Turn(direction, TuningOf(env.release).orbitSensitivity, Elapsed(env.release, dt))))
  }

  /** How far one zoom step moves. */
  function ZoomStep(env: Env, dt: real): real {
    TuningOf(env.release).zoomSpeed * Elapsed(env.release, dt)
  }

  /** zoomIn: the radius never goes below 1. */
  function ZoomedIn(env: Env, s: CameraState, dt: real): (r: CameraState)
    ensures r.radius == Max(1.0, s.radius - ZoomStep(env, dt)) && r.radius >= 1.0
  {
    PositionUpdated(env, s.(radius := Max(1.0, s.radius - ZoomStep(env, dt))))
  }

  /** zoomOut: the radius grows without bound. */
  function ZoomedOut(env: Env, s: CameraState, dt: real): (r: CameraState)
    ensures r.radius == s.radius + ZoomStep(env, dt)
  {
    PositionUpdated(env, s.(radius := s.radius + ZoomStep(env, dt)))
  }

  /** orbital::initialize: restart from the configured position (not from
      where the freeroam camera is); take the angles from the direction to
      it unless it is within 0.001 of the look-at point, in which case the
      previous angles stay. */
  function Initialized(env: Env, s: CameraState): (r: CameraState)
    ensures r.radius == env.maths.length(Sub(env.configured, env.lookAt))
    ensures OrbitSettled(env, r)
    ensures r.pos == s.pos && r.front == s.front && r.up == s.up && r.yaw == s.yaw && r.pitch == s.pitch
  {
    var toCamera := Sub(env.configured, env.lookAt);
    var radius := env.maths.length(toCamera);
    var s1 := s.(position := env.configured, radius := radius);
    var s2 :=
      if radius > 0.001 then
        var n := env.maths.normalize(toCamera);
        s1.(elevation := Degrees(env.maths.asin(n.y)), azimuth := Degrees(env.maths.atan2(n.x, n.z)))
      else s1;
    PositionUpdated(env, s2)
  }

  /** toggleMode: leaving freeroam initialises the orbital camera, leaving
      orbital recomputes the freeroam vectors; then the flag flips. */
  function Toggled(env: Env, s: CameraState): (r: CameraState)
    ensures r.inFreeroam == !s.inFreeroam
    ensures s.inFreeroam ==> r.pos == s.pos && r.yaw == s.yaw && r.pitch == s.pitch
    ensures !s.inFreeroam ==>
      r.pos == s.pos && r.position == s.position && r.radius == s.radius && r.azimuth == s.azimuth && r.elevation == s.elevation
  {
    (if s.inFreeroam then Initialized(env, s) else VectorsUpdated(env, s)).(inFreeroam := !s.inFreeroam)
  }

  /** The orbital keys of handleKey: in the second release w/s change the
      elevation, a/d the azimuth and q/e zoom; in the third only w/s act,
      and they zoom. */
  function OrbitalKey(env: Env, s: CameraState, key: char, dt: real): CameraState {
    if env.release == Second then
      if key == 'w' then ElevationRotated(env, s, 1.0, dt)
      else if key == 's' then ElevationRotated(env, s, -1.0, dt)
      else if key == 'a' then AzimuthRotated(env, s, 1.0, dt)
      else if key == 'd' then AzimuthRotated(env, s, -1.0, dt)
      else if key == 'q' then ZoomedIn(env, s, dt)
      else if key == 'e' then ZoomedOut(env, s, dt)
      else s
    else
      if key == 'w' then ZoomedIn(env, s, dt)
      else if key == 's' then ZoomedOut(env, s, dt)
      else s
  }

  /** handleKey: 'c' or 'C' toggles the mode and nothing else happens; the
      prototype has no toggle and only the w/s/a/d moves. */
  function AfterKey(env: Env, s: CameraState, key: char, dt: real): CameraState {
    if env.release != Prototype && (key == 'c' || key == 'C') then Toggled(env, s)
    else if s.inFreeroam then FreeroamKey(env, s, key, dt)
    else OrbitalKey(env, s, key, dt)
  }

  /** handleKeySpecial: in freeroam the arrows turn the camera (the engines
      turn right with a negative yaw, the prototype with a positive one); in
      orbital the third release revolves and the second does nothing. */
  function AfterSpecial(env: Env, s: CameraState, code: int, dt: real): CameraState {
    if s.inFreeroam then
      if code == CameraControl.KeyRight || code == CameraControl.KeyLeft then
        var h := CameraControl.Horizontal(code);
        YawRotated(env, s, if env.release == Prototype then h else -h, dt)
      else if code == CameraControl.KeyUp || code == CameraControl.KeyDown then
        PitchRotated(env, s, CameraControl.Vertical(code), dt)
      else s
    else if env.release == Third then
      if code == CameraControl.KeyRight || code == CameraControl.KeyLeft then
        AzimuthRotated(env, s, CameraControl.Horizontal(code), dt)
      else if code == CameraControl.KeyUp || code == CameraControl.KeyDown then
        ElevationRotated(env, s, CameraControl.Vertical(code), dt)
      else s
    else s
  }

  // ----- properties -----

  /** Once the orbital camera is in use its globals stay consistent: every
      handler and the toggle keep `OrbitSettled` while in orbital mode. */
  predicate OrbitReady(env: Env, s: CameraState) {
    !s.inFreeroam ==> OrbitSettled(env, s)
  }

  lemma KeysKeepOrbitReady(env: Env, s: CameraState, key: char, dt: real)
    requires OrbitReady(env, s)
    ensures OrbitReady(env, AfterKey(env, s, key, dt))
  {
  }

  lemma SpecialKeysKeepOrbitReady(env: Env, s: CameraState, code: int, dt: real)
    requires OrbitReady(env, s)
    ensures OrbitReady(env, AfterSpecial(env, s, code, dt))
  {
  }

  /** The radius floor: once the radius is at least 1 no key other than the
      toggle takes it below 1 (the toggle restarts from the configured
      distance, which may be smaller). */
  lemma RadiusFloorKept(env: Env, s: CameraState, key: char, code: int, dt: real)
    requires s.radius >= 1.0 && dt >= 0.0
    requires key != 'c' && key != 'C'
    ensures AfterKey(env, s, key, dt).radius >= 1.0
    ensures AfterSpecial(env, s, code, dt).radius >= 1.0
  {
  }

  /** In freeroam, a movement key followed by its opposite with the same
      frame time puts the camera back exactly. */
  lemma {:induction false} FreeroamMovesInvert(env: Env, s: CameraState, dt: real)
    requires s.inFreeroam
    ensures AfterKey(env, AfterKey(env, s, 'w', dt), 's', dt) == s
    ensures AfterKey(env, AfterKey(env, s, 'd', dt), 'a', dt) == s
    ensures env.release != Prototype ==> AfterKey(env, AfterKey(env, s, 'q', dt), 'e', dt) == s
  {
    ForwardBackInverts(env, s, dt);
    SidewaysInverts(env, s, dt);
    if env.release != Prototype {
      VerticalInverts(env, s, dt);
    }
  }

  lemma ForwardBackInverts(env: Env, s: CameraState, dt: real)
    requires s.inFreeroam
    ensures AfterKey(env, AfterKey(env, s, 'w', dt), 's', dt) == s
  {
    var k := Stride(env, dt);
    assert Add(Add(s.pos, Scale(k, s.front)), Scale(-k, s.front)) == s.pos;
  }

  lemma SidewaysInverts(env: Env, s: CameraState, dt: real)
    requires s.inFreeroam
    ensures AfterKey(env, AfterKey(env, s, 'd', dt), 'a', dt) == s
  {
    var k := Stride(env, dt);
    var n := if env.release == Second then env.maths.normalize(Cross(Neg(s.front), env.worldUp))
             else env.maths.normalize(Cross(s.front, env.worldUp));
    assert Add(Add(s.pos, Scale(k, n)), Scale(-k, n)) == s.pos;
    assert Add(Add(s.pos, Scale(-k, n)), Scale(k, n)) == s.pos;
  }

  lemma VerticalInverts(env: Env, s: CameraState, dt: real)
    requires s.inFreeroam && env.release != Prototype
    ensures AfterKey(env, AfterKey(env, s, 'q', dt), 'e', dt) == s
  {
    var k := Stride(env, dt);
    assert Add(Add(s.pos, Scale(k, env.worldUp)), Scale(-k, env.worldUp)) == s.pos;
  }

  /** In orbital mode a zoom in followed by a zoom out with the same frame
      time puts a settled camera back exactly, as long as the zoom in did
      not hit the floor of 1. */
  lemma {:induction false} ZoomInverts(env: Env, s: CameraState, dt: real)
    requires env.release != Prototype && !s.inFreeroam && OrbitSettled(env, s)
    requires s.radius - ZoomStep(env, dt) >= 1.0
    ensures env.release == Third ==> AfterKey(env, AfterKey(env, s, 'w', dt), 's', dt) == s
    ensures env.release == Second ==> AfterKey(env, AfterKey(env, s, 'q', dt), 'e', dt) == s
  {
    var mid := ZoomedIn(env, s, dt);
    assert mid.radius == s.radius - ZoomStep(env, dt);
    var back := ZoomedOut(env, mid, dt);
    assert back.radius == s.radius;
    assert back == PositionUpdated(env, s);
  }

  /** In the second release's orbital mode, a and d undo each other on a
      settled camera. */
  lemma {:induction false} AzimuthKeysInvert(env: Env, s: CameraState)
    requires env.release == Second && !s.inFreeroam && OrbitSettled(env, s)
    ensures AfterKey(env, AfterKey(env, s, 'a', 0.0), 'd', 0.0) == s
  {
    var mid := AzimuthRotated(env, s, 1.0, 0.0);
    assert mid.azimuth == s.azimuth + 2.0;
    var back := AzimuthRotated(env, mid, -1.0, 0.0);
    assert back.azimuth == s.azimuth;
    assert back == PositionUpdated(env, s);
  }

  /** Entering orbital mode does not depend on where the freeroam camera
      went: two states that differ only in their freeroam globals toggle to
      the same orbital globals. */
  lemma ToggleIgnoresFreeroamPose(env: Env, s: CameraState, t: CameraState)
    requires s.inFreeroam && t.inFreeroam
    requires s.azimuth == t.azimuth && s.elevation == t.elevation
    ensures var a, b := Toggled(env, s), Toggled(env, t);
      a.position == b.position && a.radius == b.radius && a.azimuth == b.azimuth && a.elevation == b.elevation
  {
  }

  /** In the third release the camera starts from the default camera
      whatever the configuration says; only orbital::initialize later reads
      the configured position. */
  lemma ThirdStartIgnoresConfig(maths: Maths, a: CameraConfig, b: CameraConfig)
    ensures var ea, eb := EnvOf(Third, maths, a), EnvOf(Third, maths, b);
      ea.worldUp == eb.worldUp && ea.lookAt == eb.lookAt && Startup(ea, a) == Startup(eb, b)
  {
  }

  /** The camera globals. */
  class Camera {
    const env: Env
    var inFreeroam: bool
    var pos: Vec3
    var front: Vec3
    var up: Vec3
    var yaw: real
    var pitch: real
    var position: Vec3
    var radius: real
    var azimuth: real
    var elevation: real

    function State(): CameraState
      reads this
    {
      CameraState(inFreeroam, pos, front, up, yaw, pitch, position, radius, azimuth, elevation)
    }

    constructor(release: Release, maths: Maths, loaded: CameraConfig)
      ensures env == EnvOf(release, maths, loaded)
      ensures State() == Startup(env, loaded)
    {
      env := EnvOf(release, maths, loaded);
      var s := Startup(EnvOf(release, maths, loaded), loaded);
      inFreeroam, pos, front, up, yaw, pitch := s.inFreeroam, s.pos, s.front, s.up, s.yaw, s.pitch;
      position, radius, azimuth, elevation := s.position, s.radius, s.azimuth, s.elevation;
    }

    method UpdateVectors()
      modifies this
      ensures State() == VectorsUpdated(env, old(State()))
    {
      front := env.maths.normalize(Heading(env, yaw, pitch));
      var right := env.maths.normalize(Cross(front, env.worldUp));
      up := env.maths.normalize(Cross(right, front));
    }

    method RotateYaw(direction: real, dt: real)
      modifies this
      ensures State() == YawRotated(env, old(State()), direction, dt)
    {
      yaw := yaw + CameraControl.Turn(direction, TuningOf(env.release).sensitivity, Elapsed(env.release, dt));
      UpdateVectors();
    }

    method RotatePitch(direction: real, dt: real)
      modifies this
      ensures State() == PitchRotated(env, old(State()), direction, dt)
    {
      var limit := TuningOf(env.release).limit;
      pitch := pitch + CameraControl.Turn(direction, TuningOf(env.release).sensitivity, Elapsed(env.release, dt));
      if pitch > limit {
        pitch := limit;
      }
      if pitch < -limit {
        pitch := -limit;
      }
      UpdateVectors();
    }

    method Move(direction: Vec3, amount: real)
      modifies this
      ensures State() == Moved(old(State()), direction, amount)
    {
      pos := Add(pos, Scale(amount, direction));
    }

    method MoveSideways(amount: real)
      modifies this
      ensures State() == Sideways(env, old(State()), amount)
    {
      if env.release == Second {
        var right := env.maths.normalize(Cross(Neg(front), env.worldUp));
        Move(right, -amount);
      } else {
        var right := env.maths.normalize(Cross(front, env.worldUp));
        Move(right, amount);
      }
    }

    method UpdatePosition()
      modifies this
      ensures State() == PositionUpdated(env, old(State()))
    {
      var limit := TuningOf(env.release).limit;
      elevation := Clamp(elevation, -limit, limit);
      position := OrbitPosition(env, radius, azimuth, elevation);
    }

    method RotateAzimuth(direction: real, dt: real)
      modifies this
      ensures State() == AzimuthRotated(env, old(State()), direction, dt)
    {
      azimuth := azimuth + CameraControl.Turn(direction, TuningOf(env.release).orbitSensitivity, Elapsed(env.release, dt));
      UpdatePosition();
    }

    method RotateElevation(direction: real, dt: real)
      modifies this
      ensures State() == ElevationRotated(env, old(State()), direction, dt)
    {
      elevation := elevation + CameraControl.Turn(direction, TuningOf(env.release).orbitSensitivity, Elapsed(env.release, dt));
      UpdatePosition();
    }

    method ZoomIn(dt: real)
      modifies this
      ensures State() == ZoomedIn(env, old(State()), dt)
    {
      radius := Max(1.0, radius - ZoomStep(env, dt));
      UpdatePosition();
    }

    method ZoomOut(dt: real)
      modifies this
      ensures State() == ZoomedOut(env, old(State()), dt)
    {
      radius := radius + ZoomStep(env, dt);
      UpdatePosition();
    }

    method Initialize()
      modifies this
      ensures State() == Initialized(env, old(State()))
    {
      position := env.configured;
      var toCamera := Sub(position, env.lookAt);
      radius := env.maths.length(toCamera);
      if radius > 0.001 {
        toCamera := env.maths.normalize(toCamera);
        elevation := Degrees(env.maths.asin(toCamera.y));
        azimuth := Degrees(env.maths.atan2(toCamera.x, toCamera.z));
      }
      UpdatePosition();
    }

    method ToggleMode()
      modifies this
      ensures State() == Toggled(env, old(State()))
    {
      if inFreeroam {
        Initialize();
      } else {
        UpdateVectors();
      }
      inFreeroam := !inFreeroam;
    }

    method HandleKey(key: char, dt: real)
      modifies this
      ensures State() == AfterKey(env, old(State()), key, dt)
    {
      if env.release != Prototype && (key == 'c' || key == 'C') {
        ToggleMode();
        return;
      }
      if inFreeroam {
        var k := Stride(env, dt);
        match key {
          case 'w' => Move(front, k);
          case 's' => Move(front, -k);
          case 'a' => MoveSideways(-k);
          case 'd' => MoveSideways(k);
          case 'q' => if env.release != Prototype { Move(env.worldUp, k); }
          case 'e' => if env.release != Prototype { Move(env.worldUp, -k); }
          case _ =>
        }
      } else if env.release == Second {
        match key {
          case 'w' => RotateElevation(1.0, dt);
          case 's' => RotateElevation(-1.0, dt);
          case 'a' => RotateAzimuth(1.0, dt);
          case 'd' => RotateAzimuth(-1.0, dt);
          case 'q' => ZoomIn(dt);
          case 'e' => ZoomOut(dt);
          case _ =>
        }
      } else {
        match key {
          case 'w' => ZoomIn(dt);
          case 's' => ZoomOut(dt);
          case _ =>
        }
      }
    }

    method HandleKeySpecial(code: int, dt: real)
      modifies this
      ensures State() == AfterSpecial(env, old(State()), code, dt)
    {
      if inFreeroam {
        if code == CameraControl.KeyRight {
          RotateYaw(if env.release == Prototype then 1.0 else -1.0, dt);
        } else if code == CameraControl.KeyLeft {
          RotateYaw(if env.release == Prototype then -1.0 else 1.0, dt);
        } else if code == CameraControl.KeyUp {
          RotatePitch(1.0, dt);
        } else if code == CameraControl.KeyDown {
          RotatePitch(-1.0, dt);
        }
      } else if env.release == Third {
        if code == CameraControl.KeyRight {
          RotateAzimuth(1.0, dt);
        } else if code == CameraControl.KeyLeft {
          RotateAzimuth(-1.0, dt);
        } else if code == CameraControl.KeyUp {
          RotateElevation(1.0, dt);
        } else if code == CameraControl.KeyDown {
          RotateElevation(-1.0, dt);
        }
      }
    }
  }
}
