/**
 * The fourth release's light list: point, directional and spot lights
 * appended as the configuration is read, and the selection of the lights
 * the fixed-function pipeline is given (at most eight, counted once).
 */
module Lights {
  import opened Wrappers
  import opened Vectors

  datatype LightType = Point | Directional | Spotlight

  /** A light as the pipeline takes it: homogeneous position and direction,
      spot cutoff and exponent, attenuation factors. */
  datatype Light = Light(
    kind: LightType, pos: seq<real>, dir: seq<real>, cutoffDegs: real, exponent: real,
    constantAttenuation: real, linearAttenuation: real, quadraticAttenuation: real)

  /** A default-initialised light: a point light at the origin facing -z. */
  const DefaultLight: Light := Light(Point, [0.0, 0.0, 0.0, 1.0], [0.0, 0.0, -1.0, 0.0], 30.0, 0.0, 1.0, 1.0, 1.0)

  /** The fixed-function pipeline has eight light slots. */
  const MaxLights: nat := 8

  function PointLight(position: Vec3): (l: Light)
    ensures l.kind == Point && l.pos == [position.x, position.y, position.z, 1.0] && l.dir == DefaultLight.dir
  {
    DefaultLight.(kind := Point, pos := [position.x, position.y, position.z, 1.0])
  }

  function DirectionalLight(direction: Vec3): (l: Light)
    ensures l.kind == Directional && l.dir == [direction.x, direction.y, direction.z, 0.0] && l.pos == DefaultLight.pos
  {
    DefaultLight.(kind := Directional, dir := [direction.x, direction.y, direction.z, 0.0])
  }

  function SpotLight(position: Vec3, direction: Vec3, cutoff: real): (l: Light)
    ensures l.kind == Spotlight && l.cutoffDegs == cutoff
    ensures l.pos == [position.x, position.y, position.z, 1.0] && l.dir == [direction.x, direction.y, direction.z, 0.0]
  {
    DefaultLight.(kind := Spotlight, pos := [position.x, position.y, position.z, 1.0],
                  dir := [direction.x, direction.y, direction.z, 0.0], cutoffDegs := cutoff)
  }

  /** The lights the pipeline is given: the first min(count, 8), where
      count is the list length seen on the first call. */
  function Applied(lights: seq<Light>, count: nat): (r: seq<Light>)
    requires count <= |lights|
    ensures |r| == if count < MaxLights then count else MaxLights
    ensures r <= lights
  {
    lights[..if count < MaxLights then count else MaxLights]
  }

  class LightCaster {
    var lights: seq<Light>
    var locationVisible: bool
    /** The count applyAll fixes on its first call (a function-local static). */
    var appliedCount: Option<nat>

    ghost predicate Valid()
      reads this
    {
      appliedCount.Some? ==> appliedCount.value <= |lights|
    }

    constructor()
      ensures Valid() && lights == [] && !locationVisible && appliedCount == None
    {
      lights, locationVisible, appliedCount := [], false, None;
    }

    /** loadPoint: refused once more than eight lights are listed, so a
        ninth point light is still accepted. */
    method LoadPoint(position: Vec3)
      requires Valid()
      modifies this
      ensures Valid()
      ensures lights == if |old(lights)| > MaxLights then old(lights) else old(lights) + [PointLight(position)]
      ensures appliedCount == old(appliedCount) && locationVisible == old(locationVisible)
    {
      if |lights| > MaxLights {
        return;
      }
      lights := lights + [PointLight(position)];
    }

    /** loadDirectional: always appended. */
    method LoadDirectional(direction: Vec3)
      requires Valid()
      modifies this
      ensures Valid()
      ensures lights == old(lights) + [DirectionalLight(direction)]
      ensures appliedCount == old(appliedCount) && locationVisible == old(locationVisible)
    {
      lights := lights + [DirectionalLight(direction)];
    }

    /** loadSpotlight: always appended. */
    method LoadSpotlight(position: Vec3, direction: Vec3, cutoff: real)
      requires Valid()
      modifies this
      ensures Valid()
      ensures lights == old(lights) + [SpotLight(position, direction, cutoff)]
      ensures appliedCount == old(appliedCount) && locationVisible == old(locationVisible)
    {
      lights := lights + [SpotLight(position, direction, cutoff)];
    }

    /** toggleLocations: switches the markers drawn at each applied light. */
    method ToggleLocations()
      requires Valid()
      modifies this
      ensures Valid() && locationVisible == !old(locationVisible)
      ensures lights == old(lights) && appliedCount == old(appliedCount)
    {
      locationVisible := !locationVisible;
    }

    /** applyAll: the lights given to the pipeline slots, in order. The
        count is taken on the first call only, so lights loaded later are
        never applied. */
    method ApplyAll() returns (applied: seq<Light>)
      requires Valid()
      modifies this
      ensures Valid() && lights == old(lights) && locationVisible == old(locationVisible)
      ensures appliedCount == Some(if old(appliedCount).Some? then old(appliedCount).value else |lights|)
      ensures applied == Applied(lights, appliedCount.value)
    {
      if appliedCount.None? {
        appliedCount := Some(|lights|);
      }
      var n := appliedCount.value;
      applied := [];
      var i := 0;
      while i < if n < MaxLights then n else MaxLights
        invariant 0 <= i <= (if n < MaxLights then n else MaxLights)
        invariant applied == lights[..i]
      {
        applied := applied + [lights[i]];
        i := i + 1;
      }
    }
  }

  /** The list a sequence of point-light loads gives: the guard lets the
      list reach nine entries, one more than the pipeline has slots for. */
  function PointLoads(lights: seq<Light>, positions: seq<Vec3>): (r: seq<Light>)
    ensures lights <= r
    decreases |positions|
  {
    if positions == [] then lights
    else PointLoads(if |lights| > MaxLights then lights else lights + [PointLight(positions[0])], positions[1..])
  }

  lemma {:induction false} PointLoadsBound(lights: seq<Light>, positions: seq<Vec3>)
    ensures |lights| <= MaxLights + 1 ==> |PointLoads(lights, positions)| <= MaxLights + 1
    ensures |lights| + |positions| >= MaxLights + 1 && |lights| <= MaxLights + 1 ==>
      |PointLoads(lights, positions)| == MaxLights + 1
    decreases |positions|
  {
    if positions != [] {
      PointLoadsBound(if |lights| > MaxLights then lights else lights + [PointLight(positions[0])], positions[1..]);
    }
  }
}
