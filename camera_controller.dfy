/**
 * The camera controller of the fourth release: an immutable placement
 * (position, target, up) with pure operations that return a new placement,
 * and the controller state (initial and current placement, behaviour) that
 * the key handlers and the mode toggle update.
 */
module CameraControl {
  import opened Vectors

  datatype Placement = Placement(pos: Vec3, target: Vec3, up: Vec3)

  /** The placement before a configuration is read: from (1, 1, 1) towards
      the origin, with y up. */
  const DefaultPlacement: Placement := Placement(Vec3(1.0, 1.0, 1.0), Origin, Vec3(0.0, 1.0, 0.0))

  datatype Projection = Projection(fov: real, near: real, far: real)

  const DefaultProjection: Projection := Projection(60.0, 1.0, 1000.0)

  datatype Behaviour = Freeroam | Orbital

  /** Degrees per second and units per second of the two behaviours. */
  const FreeroamRotSpeed: real := 200.0
  const FreeroamMovSpeed: real := 100.0
  const OrbitalRotSpeed: real := 200.0
  const OrbitalZoomSpeed: real := 100.0

  /** The pitch limit, 89.99 degrees in radians. */
  const PitchLimit: real := Radians(89.99)

  /** GLUT's codes for the arrow keys. */
  const KeyLeft: int := 100
  const KeyUp: int := 101
  const KeyRight: int := 102
  const KeyDown: int := 103

  // ----- Placement -----

  function Front(maths: Maths, p: Placement): Vec3 {
    maths.normalize(Sub(p.target, p.pos))
  }

  /** right_up: the right vector front × worldUp and the up vector
      right × front, both normalised. */
  function RightUp(maths: Maths, front: Vec3, worldUp: Vec3): (Vec3, Vec3) {
    var right := maths.normalize(Cross(front, worldUp));
    (right, maths.normalize(Cross(right, front)))
  }

  /** right_up gives a frame: right and up are perpendicular to front and
      to each other, and each has length 1 where the cross product it
      normalises is not zero (front parallel to worldUp gives NaN in the
      engine). */
  lemma RightUpOrthonormal(maths: Maths, front: Vec3, worldUp: Vec3)
    requires NormalizeScales(maths) && LengthOfScaledUnit(maths)
    ensures var (right, up) := RightUp(maths, front, worldUp);
      Dot(right, front) == 0.0 && Dot(up, front) == 0.0 && Dot(up, right) == 0.0
    ensures var (right, up) := RightUp(maths, front, worldUp);
      (Cross(front, worldUp) != Origin ==> maths.length(right) == 1.0)
      && (Cross(right, front) != Origin ==> maths.length(up) == 1.0)
  {
    var (right, up) := RightUp(maths, front, worldUp);
    NormalizedCrossPerpendicular(maths, front, worldUp);
    NormalizedCrossPerpendicular(maths, right, front);
    if Cross(front, worldUp) != Origin {
      NormalizedUnit(maths, Cross(front, worldUp));
    }
    if Cross(right, front) != Origin {
      NormalizedUnit(maths, Cross(right, front));
    }
  }

  /** The unit direction of a yaw and a pitch (radians). */
  function Cartesian(maths: Maths, yaw: real, pitch: real): Vec3 {
    Vec3(maths.cos(pitch) * maths.sin(yaw), maths.sin(pitch), maths.cos(pitch) * maths.cos(yaw))
  }

  /** Placement::translate moves position and target together. */
  function Translate(p: Placement, v: Vec3): (r: Placement)
    ensures r.pos == Add(p.pos, v) && r.up == p.up
    ensures Sub(r.target, r.pos) == Sub(p.target, p.pos)
  {
    Placement(Add(p.pos, v), Add(p.target, v), p.up)
  }

  /** Translating back by the opposite vector restores the placement. */
  lemma TranslateInverse(p: Placement, v: Vec3)
    ensures Translate(Translate(p, v), Neg(v)) == p
  {
  }

  /** A translation does not change where the camera looks. */
  lemma TranslateKeepsFront(maths: Maths, p: Placement, v: Vec3)
    ensures Front(maths, Translate(p, v)) == Front(maths, p)
  {
    assert Sub(Translate(p, v).target, Translate(p, v).pos) == Sub(p.target, p.pos);
  }

  /** The yaw and pitch rotate and revolve move to: the yaw grows by the
      given degrees without bound, the pitch is clamped to ±89.99°. */
  function TurnedAngles(maths: Maths, p: Placement, yawDegs: real, pitchDegs: real): (a: (real, real))
    ensures -PitchLimit <= a.1 <= PitchLimit
    ensures a.0 == maths.atan2(Front(maths, p).x, Front(maths, p).z) + Radians(yawDegs)
    ensures var raw := maths.asin(Front(maths, p).y) + Radians(pitchDegs);
      (-PitchLimit <= raw <= PitchLimit ==> a.1 == raw)
      && (raw < -PitchLimit ==> a.1 == -PitchLimit)
      && (raw > PitchLimit ==> a.1 == PitchLimit)
  {
    var f := Front(maths, p);
    var yaw, pitch := maths.atan2(f.x, f.z), maths.asin(f.y);
    (yaw + Radians(yawDegs), Clamp(pitch + Radians(pitchDegs), -PitchLimit, PitchLimit))
  }

  /** Placement::rotate: turn in place; the new target is one unit along the
      new direction and the up vector is recomputed from worldUp. */
  function Rotate(maths: Maths, p: Placement, yawDegs: real, pitchDegs: real, worldUp: Vec3): (r: Placement)
    ensures r.pos == p.pos
    ensures var a := TurnedAngles(maths, p, yawDegs, pitchDegs);
      var f := maths.normalize(Cartesian(maths, a.0, a.1));
      r.target == Add(p.pos, f) && r.up == RightUp(maths, f, worldUp).1
  {
    var a := TurnedAngles(maths, p, yawDegs, pitchDegs);
    var f := maths.normalize(Cartesian(maths, a.0, a.1));
    Placement(p.pos, Add(p.pos, f), RightUp(maths, f, worldUp).1)
  }

  /** The orbit radius of revolve: the distance to the centre, at least 1. */
  function OrbitRadius(maths: Maths, p: Placement, center: Vec3): (radius: real)
    ensures radius >= 1.0
    ensures maths.length(Sub(p.pos, center)) >= 1.0 ==> radius == maths.length(Sub(p.pos, center))
  {
    Max(1.0, maths.length(Sub(p.pos, center)))
  }

  /** Placement::revolve: move on the sphere around the centre, looking at
      it, with up = worldUp. */
  function Revolve(maths: Maths, p: Placement, yawDegs: real, pitchDegs: real, center: Vec3, worldUp: Vec3): (r: Placement)
    ensures r.target == center && r.up == worldUp
    ensures var a := TurnedAngles(maths, p, yawDegs, pitchDegs);
      r.pos == Sub(center, Scale(OrbitRadius(maths, p, center), maths.normalize(Cartesian(maths, a.0, a.1))))
  {
    var a := TurnedAngles(maths, p, yawDegs, pitchDegs);
    var f := maths.normalize(Cartesian(maths, a.0, a.1));
    Placement(Sub(center, Scale(OrbitRadius(maths, p, center), f)), center, worldUp)
  }

  /** The radius after zooming in by `units` from distance `dist`: never
      below 1 (a negative `units` zooms out). */
  function ZoomRadius(dist: real, units: real): (radius: real)
    ensures radius >= 1.0
    ensures dist - units >= 1.0 ==> radius == dist - units
    ensures dist - units < 1.0 ==> radius == 1.0
  {
    Max(1.0, dist - units)
  }

  /** Zooming out by the same amount undoes a zoom in that did not hit the
      floor; one that did hit it cannot be undone. */
  lemma ZoomOutUndoesZoomIn(dist: real, units: real)
    requires units >= 0.0
    ensures dist - units >= 1.0 ==> ZoomRadius(ZoomRadius(dist, units), -units) == dist
    ensures dist - units < 1.0 ==> ZoomRadius(ZoomRadius(dist, units), -units) == 1.0 + units
  {
  }

  /** Placement::zoomIn: keep the direction from the centre, set the
      distance to ZoomRadius, look at the centre with up = worldUp. */
  function ZoomIn(maths: Maths, p: Placement, units: real, center: Vec3, worldUp: Vec3): (r: Placement)
    ensures r.target == center && r.up == worldUp
    ensures var toCamera := Sub(p.pos, center);
      r.pos == Sub(center, Scale(ZoomRadius(maths.length(toCamera), units), Neg(maths.normalize(toCamera))))
  {
    var toCamera := Sub(p.pos, center);
    var radius := ZoomRadius(maths.length(toCamera), units);
    var f := Neg(maths.normalize(toCamera));
    Placement(Sub(center, Scale(radius, f)), center, worldUp)
  }

  /** The zoomed camera is ZoomRadius away from the centre, so never closer
      than 1, wherever length measures a scaled direction exactly and the
      camera is not already at the centre (there the engine normalises the
      zero vector and gets NaN). */
  lemma ZoomDistance(maths: Maths, p: Placement, units: real, center: Vec3, worldUp: Vec3)
    requires LengthOfScaledUnit(maths) && p.pos != center
    ensures var toCamera := Sub(p.pos, center);
      maths.length(Sub(ZoomIn(maths, p, units, center, worldUp).pos, center)) == ZoomRadius(maths.length(toCamera), units) >= 1.0
  {
    var toCamera := Sub(p.pos, center);
    var radius := ZoomRadius(maths.length(toCamera), units);
    var n := maths.normalize(toCamera);
    assert toCamera != Origin;
    assert Sub(ZoomIn(maths, p, units, center, worldUp).pos, center) == Scale(radius, n);
  }

  // ----- the freeroam and orbital moves -----

  function MoveForward(maths: Maths, cur: Placement, dt: real): Placement {
    Translate(cur, Scale(FreeroamMovSpeed * dt, Front(maths, cur)))
  }

  function MoveBackward(maths: Maths, cur: Placement, dt: real): Placement {
    Translate(cur, Scale(FreeroamMovSpeed * dt, Neg(Front(maths, cur))))
  }

  function MoveRight(maths: Maths, cur: Placement, worldUp: Vec3, dt: real): Placement {
    Translate(cur, Scale(FreeroamMovSpeed * dt, RightUp(maths, Front(maths, cur), worldUp).0))
  }

  function MoveLeft(maths: Maths, cur: Placement, worldUp: Vec3, dt: real): Placement {
    Translate(cur, Scale(FreeroamMovSpeed * dt, Neg(RightUp(maths, Front(maths, cur), worldUp).0)))
  }

  function MoveUp(cur: Placement, worldUp: Vec3, dt: real): Placement {
    Translate(cur, Scale(FreeroamMovSpeed * dt, worldUp))
  }

  function MoveDown(cur: Placement, worldUp: Vec3, dt: real): Placement {
    Translate(cur, Scale(FreeroamMovSpeed * dt, Neg(worldUp)))
  }

  /** Moving forward is undone by moving backward with the same time step
      (and the other way round): a translation keeps the direction of view,
      so the opposite move uses the same direction. */
  lemma ForwardBackward(maths: Maths, cur: Placement, dt: real)
    ensures MoveBackward(maths, MoveForward(maths, cur, dt), dt) == cur
    ensures MoveForward(maths, MoveBackward(maths, cur, dt), dt) == cur
  {
    var v := Scale(FreeroamMovSpeed * dt, Front(maths, cur));
    var w := Scale(FreeroamMovSpeed * dt, Neg(Front(maths, cur)));
    TranslateKeepsFront(maths, cur, v);
    TranslateKeepsFront(maths, cur, w);
    assert w == Neg(v);
    TranslateInverse(cur, v);
    TranslateInverse(cur, w);
  }

  /** Moving right is undone by moving left with the same time step. */
  lemma RightLeft(maths: Maths, cur: Placement, worldUp: Vec3, dt: real)
    ensures MoveLeft(maths, MoveRight(maths, cur, worldUp, dt), worldUp, dt) == cur
    ensures MoveRight(maths, MoveLeft(maths, cur, worldUp, dt), worldUp, dt) == cur
  {
    var r := RightUp(maths, Front(maths, cur), worldUp).0;
    var v := Scale(FreeroamMovSpeed * dt, r);
    var w := Scale(FreeroamMovSpeed * dt, Neg(r));
    assert w == Neg(v);
    SideStepBack(maths, cur, worldUp, v);
    SideStepBack(maths, cur, worldUp, w);
  }

  /** A translation keeps the right vector, so translating back by the
      opposite vector restores the placement. */
  lemma SideStepBack(maths: Maths, cur: Placement, worldUp: Vec3, v: Vec3)
    ensures RightUp(maths, Front(maths, Translate(cur, v)), worldUp) == RightUp(maths, Front(maths, cur), worldUp)
    ensures Translate(Translate(cur, v), Neg(v)) == cur
  {
    TranslateKeepsFront(maths, cur, v);
    TranslateInverse(cur, v);
  }

  /** Moving up is undone by moving down with the same time step. */
  lemma UpDown(cur: Placement, worldUp: Vec3, dt: real)
    ensures MoveDown(MoveUp(cur, worldUp, dt), worldUp, dt) == cur
    ensures MoveUp(MoveDown(cur, worldUp, dt), worldUp, dt) == cur
  {
    var v := Scale(FreeroamMovSpeed * dt, worldUp);
    assert Scale(FreeroamMovSpeed * dt, Neg(worldUp)) == Neg(v);
    TranslateInverse(cur, v);
    TranslateInverse(cur, Neg(v));
  }

  /** handleKey on the current placement. In freeroam w/s/a/d/q/e move; in
      orbital only w and s act, zooming towards or away from the initial
      target. Any other key leaves the placement as it is. */
  function KeyMove(maths: Maths, b: Behaviour, cur: Placement, init: Placement, key: char, dt: real): (r: Placement)
    ensures b == Orbital && key != 'w' && key != 's' ==> r == cur
    ensures b == Freeroam && key !in "wsadqe" ==> r == cur
    ensures b == Orbital && (key == 'w' || key == 's') ==> r.target == init.target && r.up == init.up
    ensures b == Freeroam ==> Sub(r.target, r.pos) == Sub(cur.target, cur.pos) && r.up == cur.up
  {
    if b == Freeroam then
      if key == 'w' then MoveForward(maths, cur, dt)
      else if key == 's' then MoveBackward(maths, cur, dt)
      else if key == 'a' then MoveLeft(maths, cur, init.up, dt)
      else if key == 'd' then MoveRight(maths, cur, init.up, dt)
      else if key == 'q' then MoveUp(cur, init.up, dt)
      else if key == 'e' then MoveDown(cur, init.up, dt)
      else cur
    else
      if key == 'w' then ZoomIn(maths, cur, OrbitalZoomSpeed * dt, init.target, init.up)
      else if key == 's' then ZoomIn(maths, cur, -(OrbitalZoomSpeed * dt), init.target, init.up)
      else cur
  }

  /** The degrees a key held for dt seconds turns by. */
  function Turn(direction: real, speed: real, dt: real): real {
    direction * speed * dt
  }

  /** +1 for the right arrow, −1 for the left one, 0 otherwise. */
  function Horizontal(code: int): (d: real)
    ensures d != 0.0 <==> code == KeyRight || code == KeyLeft
  {
    if code == KeyRight then 1.0 else if code == KeyLeft then -1.0 else 0.0
  }

  /** +1 for the up arrow, −1 for the down one, 0 otherwise. */
  function Vertical(code: int): (d: real)
    ensures d != 0.0 <==> code == KeyUp || code == KeyDown
  {
    if code == KeyUp then 1.0 else if code == KeyDown then -1.0 else 0.0
  }

  /** handleKeySpecial on the current placement. In freeroam an arrow turns
      the camera in place (right is a negative yaw); in orbital it revolves
      around the initial target (right is a positive azimuth). */
  function SpecialMove(maths: Maths, b: Behaviour, cur: Placement, init: Placement, code: int, dt: real): (r: Placement)
    ensures code !in {KeyLeft, KeyUp, KeyRight, KeyDown} ==> r == cur
    ensures b == Freeroam ==> r.pos == cur.pos
    ensures b == Orbital && code in {KeyLeft, KeyUp, KeyRight, KeyDown} ==> r.target == init.target && r.up == init.up
  {
    if b == Freeroam then
      var yawDir, pitchDir := -Horizontal(code), Vertical(code);
      if yawDir != 0.0 || pitchDir != 0.0 then
        Rotate(maths, cur, Turn(yawDir, FreeroamRotSpeed, dt), Turn(pitchDir, FreeroamRotSpeed, dt), init.up)
      else cur
    else
      if code == KeyRight || code == KeyLeft then
        Revolve(maths, cur, Turn(Horizontal(code), OrbitalRotSpeed, dt), 0.0, init.target, init.up)
      else if code == KeyUp || code == KeyDown then
        Revolve(maths, cur, 0.0, Turn(Vertical(code), OrbitalRotSpeed, dt), init.target, init.up)
      else cur
  }

  /** toggleMode: entering orbital resets the placement to the initial one;
      returning to freeroam keeps wherever the orbit left the camera. */
  function Toggled(b: Behaviour, cur: Placement, init: Placement): (r: (Behaviour, Placement))
    ensures r.0 != b
    ensures r.0 == Orbital ==> r.1 == init
    ensures r.0 == Freeroam ==> r.1 == cur
  {
    if b == Freeroam then (Orbital, init) else (Freeroam, cur)
  }

  /** Two toggles from freeroam end in freeroam at the initial placement,
      wherever the camera was; two toggles from orbital end in orbital at
      the initial placement too. */
  lemma ToggleTwice(b: Behaviour, cur: Placement, init: Placement)
    ensures var once := Toggled(b, cur, init);
      Toggled(once.0, once.1, init) == (b, init)
  {
  }

  /** The controller's static state. */
  class Controller {
    const maths: Maths
    var initialPlacement: Placement
    var currentPlacement: Placement
    var initialProjection: Projection
    var currentProjection: Projection
    var behaviour: Behaviour

    /** In orbital mode the camera looks at the initial target with the
        initial up vector. */
    ghost predicate Valid()
      reads this
    {
      behaviour == Orbital ==> currentPlacement.target == initialPlacement.target && currentPlacement.up == initialPlacement.up
    }

    constructor(maths: Maths)
      ensures Valid() && this.maths == maths
      ensures initialPlacement == currentPlacement == DefaultPlacement
      ensures initialProjection == currentProjection == DefaultProjection
      ensures behaviour == Freeroam
    {
      this.maths := maths;
      initialPlacement := DefaultPlacement;
      currentPlacement := DefaultPlacement;
      initialProjection := DefaultProjection;
      currentProjection := DefaultProjection;
      behaviour := Freeroam;
    }

    /** The camera read from a configuration becomes both the initial and
        the current placement and projection. */
    method Configure(p: Placement, proj: Projection)
      requires Valid()
      modifies this
      ensures Valid()
      ensures initialPlacement == currentPlacement == p && initialProjection == currentProjection == proj
      ensures behaviour == old(behaviour)
    {
      initialPlacement := p;
      currentPlacement := p;
      initialProjection := proj;
      currentProjection := proj;
    }

    method ToggleMode()
      requires Valid()
      modifies this
      ensures Valid()
      ensures (behaviour, currentPlacement) == Toggled(old(behaviour), old(currentPlacement), initialPlacement)
      ensures initialPlacement == old(initialPlacement) && currentProjection == old(currentProjection)
      ensures initialProjection == old(initialProjection)
    {
      if behaviour == Freeroam {
        behaviour := Orbital;
        currentPlacement := initialPlacement;
      } else {
        behaviour := Freeroam;
      }
    }

    method HandleKey(key: char, dt: real)
      requires Valid()
      modifies this
      ensures Valid()
      ensures currentPlacement == KeyMove(maths, behaviour, old(currentPlacement), initialPlacement, key, dt)
      ensures behaviour == old(behaviour) && initialPlacement == old(initialPlacement)
      ensures currentProjection == old(currentProjection) && initialProjection == old(initialProjection)
    {
      var cur, init := currentPlacement, initialPlacement;
      if behaviour == Freeroam {
        match key {
          case 'w' => currentPlacement := MoveForward(maths, cur, dt);
          case 's' => currentPlacement := MoveBackward(maths, cur, dt);
          case 'a' => currentPlacement := MoveLeft(maths, cur, init.up, dt);
          case 'd' => currentPlacement := MoveRight(maths, cur, init.up, dt);
          case 'q' => currentPlacement := MoveUp(cur, init.up, dt);
          case 'e' => currentPlacement := MoveDown(cur, init.up, dt);
          case _ =>
        }
      } else {
        match key {
          case 'w' => currentPlacement := ZoomIn(maths, cur, OrbitalZoomSpeed * dt, init.target, init.up);
          case 's' => currentPlacement := ZoomIn(maths, cur, -(OrbitalZoomSpeed * dt), init.target, init.up);
          case _ =>
        }
      }
    }

    method HandleKeySpecial(code: int, dt: real)
      requires Valid()
      modifies this
      ensures Valid()
      ensures currentPlacement == SpecialMove(maths, behaviour, old(currentPlacement), initialPlacement, code, dt)
      ensures behaviour == old(behaviour) && initialPlacement == old(initialPlacement)
      ensures currentProjection == old(currentProjection) && initialProjection == old(initialProjection)
    {
      var init := initialPlacement;
      if behaviour == Freeroam {
        var yawDir, pitchDir := -Horizontal(code), Vertical(code);
        if yawDir != 0.0 || pitchDir != 0.0 {
          currentPlacement := Rotate(maths, currentPlacement, Turn(yawDir, FreeroamRotSpeed, dt), Turn(pitchDir, FreeroamRotSpeed, dt), init.up);
        }
      } else {
        var azimuthDir, elevationDir := Horizontal(code), Vertical(code);
        if azimuthDir != 0.0 {
          currentPlacement := Revolve(maths, currentPlacement, Turn(azimuthDir, OrbitalRotSpeed, dt), 0.0, init.target, init.up);
        }
        if elevationDir != 0.0 {
          currentPlacement := Revolve(maths, currentPlacement, 0.0, Turn(elevationDir, OrbitalRotSpeed, dt), init.target, init.up);
        }
      }
    }
  }
}
