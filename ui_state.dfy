/**
 * The interface state of the engines: display settings that cycle through
 * a fixed list of modes or flip on and off, the set of held keys that
 * drives the camera once per frame, the frame clock and the
 * frames-per-second counter. Each release keeps these as namespace
 * globals; here each release's globals are the fields of one class, and
 * the graphics-library calls a setting makes are recorded as the state
 * they leave behind (culling, texture filter).
 */
module UiState {
  import opened Vectors
  import CameraControl
  import ScalarCamera
  import Animation
  import opened Cycles

  // ----- what the settings leave behind -----

  datatype Culling = NoCulling | CullBack | CullFront

  /** Mode 0 disables face culling, 1 culls back faces, 2 front faces. */
  function CullingOf(mode: nat): Culling {
    if mode == 1 then CullBack else if mode == 2 then CullFront else NoCulling
  }

  datatype MinFilter = Nearest | Linear | LinearMipmapLinear

  /** Nearest, bilinear, trilinear, and trilinear with anisotropy. */
  function FilterOf(mode: nat): MinFilter {
    if mode == 0 then Nearest else if mode == 1 then Linear else LinearMipmapLinear
  }

  // ----- held keys -----

  /** xs names every element of s exactly once. */
  ghost predicate Enumerates<T(!new)>(xs: seq<T>, s: set<T>) {
    (forall i, j :: 0 <= i < j < |xs| ==> xs[i] != xs[j])
    && (forall x :: x in s <==> x in xs)
  }

  /** An enumeration is as long as the set it enumerates. */
  lemma {:induction false} EnumerationLength<T(!new)>(xs: seq<T>, s: set<T>)
    requires Enumerates(xs, s)
    ensures |xs| == |s|
    decreases |xs|
  {
    if xs != [] {
      var last := xs[|xs| - 1];
      var front := xs[..|xs| - 1];
      assert forall x :: x in s - {last} <==> x in front by {
        forall x ensures x in s - {last} <==> x in front {
          if x in front {
            var i :| 0 <= i < |front| && front[i] == x;
            assert xs[i] == x && i < |xs| - 1;
          }
          if x in xs && x != last {
            var i :| 0 <= i < |xs| && xs[i] == x;
            assert i != |xs| - 1;
            assert front[i] == x;
          }
        }
      }
      EnumerationLength(front, s - {last});
    } else {
      assert forall x :: x !in s;
      assert s == {};
    }
  }

  /** Chooses an order for a set, as iterating over an unordered set does:
      any order is possible. */
  method Enumerate<T(!new)>(s: set<T>) returns (xs: seq<T>)
    ensures Enumerates(xs, s)
  {
    xs := [];
    var remaining := s;
    while remaining != {}
      invariant forall i, j :: 0 <= i < j < |xs| ==> xs[i] != xs[j]
      invariant forall x :: x in s <==> x in remaining || x in xs
      invariant forall x :: x in remaining ==> x !in xs
      decreases |remaining|
    {
      var x :| x in remaining;
      xs := xs + [x];
      remaining := remaining - {x};
    }
  }

  // ----- the fourth release -----

  /** Keys that act once when pressed and are never held. */
  const ToggleKeys: set<char> := {'1', '2', '3', '4', '5', '0', 'c', 'C'}

  /** The render settings of the fourth release, with the flags key '2'
      also flips: the per-model axes, the light markers and the spline
      paths. */
  datatype Settings = Settings(
    polygonMode: nat, axes: bool, faceCull: nat, culling: Culling, lighting: bool,
    textureFilter: nat, minFilter: MinFilter, anisotropy: bool,
    showPath: bool, modelAxes: bool, lightLocations: bool)

  /** Every mode in range and the graphics state it set in place. */
  predicate Consistent(s: Settings) {
    s.polygonMode < 3 && s.faceCull < 3 && s.textureFilter < 4
    && s.culling == CullingOf(s.faceCull) && s.minFilter == FilterOf(s.textureFilter)
    && s.anisotropy == (s.textureFilter == 3)
  }

  const StartSettings: Settings :=
    Settings(0, false, 0, NoCulling, false, 0, Nearest, false, false, false, false)

  /** axes::toggle: flips the axes and hides the paths. */
  function AxesToggled(s: Settings): Settings {
    s.(axes := !s.axes, showPath := false)
  }

  /** The settings after the switch of keyboard. Keys '0', 'c' and 'C'
      act on the window and the camera, not on these settings. */
  function Pressed(s: Settings, key: char): (r: Settings)
    ensures key !in {'1', '2', '3', '4', '5'} ==> r == s
    ensures Consistent(s) ==> Consistent(r)
  {
    match key
    case '1' => s.(polygonMode := Cycled(s.polygonMode, 3))
    case '2' =>
      var t := AxesToggled(s);
      t.(modelAxes := !t.modelAxes, lightLocations := !t.lightLocations, showPath := !t.showPath)
    case '3' =>
      var m := Cycled(s.faceCull, 3);
      s.(faceCull := m, culling := CullingOf(m))
    case '4' => s.(lighting := !s.lighting)
    case '5' =>
      var m := Cycled(s.textureFilter, 4);
      s.(textureFilter := m, minFilter := FilterOf(m), anisotropy := m == 3)
    case _ => s
  }

  /** Key '2' flips the axes, the model axes and the light markers, and
      leaves the paths shown whatever they were: the toggle hides them and
      the key's own flip shows them again. */
  lemma KeyTwoShowsPaths(s: Settings)
    ensures var r := Pressed(s, '2');
      r.showPath && r.axes == !s.axes && r.modelAxes == !s.modelAxes && r.lightLocations == !s.lightLocations
    ensures Pressed(s, '2').(axes := s.axes, modelAxes := s.modelAxes, lightLocations := s.lightLocations, showPath := s.showPath) == s
  {
  }

  /** Key '5' turns anisotropic filtering on exactly at the fourth mode,
      and four presses bring the filter back. */
  lemma FilterCycle(s: Settings)
    requires Consistent(s)
    ensures Pressed(s, '5').anisotropy <==> Pressed(s, '5').textureFilter == 3
    ensures Pressed(Pressed(Pressed(Pressed(s, '5'), '5'), '5'), '5') == s
  {
  }

  /** The placement after the freeroam or orbital handler has run for each
      key in turn. */
  function KeysApplied(maths: Maths, b: CameraControl.Behaviour, cur: CameraControl.Placement, init: CameraControl.Placement,
                       keys: seq<char>, dt: real): CameraControl.Placement
  {
    if keys == [] then cur
    else CameraControl.KeyMove(maths, b, KeysApplied(maths, b, cur, init, keys[..|keys| - 1], dt), init, keys[|keys| - 1], dt)
  }

  function SpecialsApplied(maths: Maths, b: CameraControl.Behaviour, cur: CameraControl.Placement, init: CameraControl.Placement,
                           codes: seq<int>, dt: real): CameraControl.Placement
  {
    if codes == [] then cur
    else CameraControl.SpecialMove(maths, b, SpecialsApplied(maths, b, cur, init, codes[..|codes| - 1], dt), init, codes[|codes| - 1], dt)
  }

  /** Held keys that no handler knows leave the camera where it is. */
  lemma {:induction false} IdleKeysKeepPlacement(maths: Maths, b: CameraControl.Behaviour, cur: CameraControl.Placement,
                                                 init: CameraControl.Placement, keys: seq<char>, dt: real)
    requires forall i :: 0 <= i < |keys| ==> keys[i] !in "wsadqe"
    ensures KeysApplied(maths, b, cur, init, keys, dt) == cur
    decreases |keys|
  {
    if keys != [] {
      IdleKeysKeepPlacement(maths, b, cur, init, keys[..|keys| - 1], dt);
    }
  }

  /** The fourth release's render settings and keybinds. */
  class FourthUi {
    var settings: Settings
    var keysPressed: set<char>
    var specialKeysPressed: set<int>

    ghost predicate Valid()
      reads this
    {
      Consistent(settings) && keysPressed !! ToggleKeys
    }

    /** The globals start at StartSettings; main then advances the face
        culling once and toggles lighting before the main loop, so back
        faces are culled and lighting is on from the first frame. */
    constructor()
      ensures Valid()
      ensures settings == Pressed(Pressed(StartSettings, '3'), '4')
      ensures settings == StartSettings.(faceCull := 1, culling := CullBack, lighting := true)
      ensures keysPressed == {} && specialKeysPressed == {}
    {
      settings := StartSettings;
      keysPressed := {};
      specialKeysPressed := {};
      new;
      var m := Cycled(settings.faceCull, 3);
      settings := settings.(faceCull := m, culling := CullingOf(m));
      settings := settings.(lighting := !settings.lighting);
    }

    method KeyboardUp(key: char)
      requires Valid()
      modifies this
      ensures Valid()
      ensures keysPressed == old(keysPressed) - {key}
      ensures settings == old(settings) && specialKeysPressed == old(specialKeysPressed)
    {
      keysPressed := keysPressed - {key};
    }

    method KeyboardSpecial(code: int)
      requires Valid()
      modifies this
      ensures Valid()
      ensures specialKeysPressed == old(specialKeysPressed) + {code}
      ensures settings == old(settings) && keysPressed == old(keysPressed)
    {
      specialKeysPressed := specialKeysPressed + {code};
    }

    method KeyboardSpecialUp(code: int)
      requires Valid()
      modifies this
      ensures Valid()
      ensures specialKeysPressed == old(specialKeysPressed) - {code}
      ensures settings == old(settings) && keysPressed == old(keysPressed)
    {
      specialKeysPressed := specialKeysPressed - {code};
    }

    /** keyboard: a key that is not a toggle key becomes held; then the
        key's action, with 'c'/'C' toggling the camera mode. */
    method Keyboard(key: char, cam: CameraControl.Controller)
      requires Valid() && cam.Valid()
      modifies this, cam
      ensures Valid() && cam.Valid()
      ensures keysPressed == if key in ToggleKeys then old(keysPressed) else old(keysPressed) + {key}
      ensures specialKeysPressed == old(specialKeysPressed)
      ensures settings == Pressed(old(settings), key)
      ensures (cam.behaviour, cam.currentPlacement) ==
        if key == 'c' || key == 'C' then CameraControl.Toggled(old(cam.behaviour), old(cam.currentPlacement), old(cam.initialPlacement))
        else (old(cam.behaviour), old(cam.currentPlacement))
      ensures cam.initialPlacement == old(cam.initialPlacement)
      ensures cam.currentProjection == old(cam.currentProjection) && cam.initialProjection == old(cam.initialProjection)
    {
      if key !in ToggleKeys {
        keysPressed := keysPressed + {key};
      }
      SettingKey(key);
      if key == 'c' || key == 'C' {
        cam.ToggleMode();
      }
    }

    /** The cases of keyboard's switch that act on the render settings. */
    method SettingKey(key: char)
      requires Consistent(settings)
      modifies this
      ensures settings == Pressed(old(settings), key)
      ensures keysPressed == old(keysPressed) && specialKeysPressed == old(specialKeysPressed)
    {
      match key {
        case '1' =>
          settings := settings.(polygonMode := Cycled(settings.polygonMode, 3));
        case '2' =>
          settings := AxesToggled(settings);
          settings := settings.(modelAxes := !settings.modelAxes);
          settings := settings.(lightLocations := !settings.lightLocations);
          settings := settings.(showPath := !settings.showPath);
        case '3' =>
          var m := Cycled(settings.faceCull, 3);
          settings := settings.(faceCull := m, culling := CullingOf(m));
        case '4' =>
          settings := settings.(lighting := !settings.lighting);
        case '5' =>
          var m := Cycled(settings.textureFilter, 4);
          settings := settings.(textureFilter := m, minFilter := FilterOf(m));
          settings := settings.(anisotropy := m == 3);
        case _ =>
      }
    }

    /** update: the camera handlers run once for every held key and then
        once for every held special key, in the sets' iteration order
        (which the returned sequences record). */
    method Update(cam: CameraControl.Controller, dt: real) returns (keys: seq<char>, codes: seq<int>)
      requires cam.Valid()
      modifies cam
      ensures cam.Valid()
      ensures Enumerates(keys, keysPressed) && Enumerates(codes, specialKeysPressed)
      ensures cam.currentPlacement == SpecialsApplied(cam.maths, cam.behaviour,
        KeysApplied(cam.maths, cam.behaviour, old(cam.currentPlacement), cam.initialPlacement, keys, dt), cam.initialPlacement, codes, dt)
      ensures cam.behaviour == old(cam.behaviour) && cam.initialPlacement == old(cam.initialPlacement)
      ensures cam.currentProjection == old(cam.currentProjection) && cam.initialProjection == old(cam.initialProjection)
    {
      keys := Enumerate(keysPressed);
      var i := 0;
      while i < |keys|
        invariant i <= |keys| && cam.Valid()
        invariant cam.currentPlacement == KeysApplied(cam.maths, cam.behaviour, old(cam.currentPlacement), cam.initialPlacement, keys[..i], dt)
        invariant cam.behaviour == old(cam.behaviour) && cam.initialPlacement == old(cam.initialPlacement)
        invariant cam.currentProjection == old(cam.currentProjection) && cam.initialProjection == old(cam.initialProjection)
      {
        assert keys[..i + 1][..i] == keys[..i];
        cam.HandleKey(keys[i], dt);
        i := i + 1;
      }
      assert keys[..i] == keys;
      var afterKeys := cam.currentPlacement;
      codes := Enumerate(specialKeysPressed);
      var j := 0;
      while j < |codes|
        invariant j <= |codes| && cam.Valid()
        invariant cam.currentPlacement == SpecialsApplied(cam.maths, cam.behaviour, afterKeys, cam.initialPlacement, codes[..j], dt)
        invariant cam.behaviour == old(cam.behaviour) && cam.initialPlacement == old(cam.initialPlacement)
        invariant cam.currentProjection == old(cam.currentProjection) && cam.initialProjection == old(cam.initialProjection)
      {
        assert codes[..j + 1][..j] == codes[..j];
        cam.HandleKeySpecial(codes[j], dt);
        j := j + 1;
      }
      assert codes[..j] == codes;
    }

    /** The part of renderScene that shows the axes: drawing them shows
        the paths. */
    method ShowAxes()
      requires Valid()
      modifies this
      ensures Valid()
      ensures settings == old(settings).(showPath := old(settings).showPath || old(settings).axes)
      ensures keysPressed == old(keysPressed) && specialKeysPressed == old(specialKeysPressed)
    {
      if settings.axes {
        settings := settings.(showPath := true);
      }
    }
  }

  // ----- the third release -----

  /** The third release's render settings; the paths' flag and the
      tessellation level live with the animated translations. */
  datatype ThirdSettings = ThirdSettings(polygonMode: nat, axes: bool, cullMode: nat, culling: Culling, withVBOs: bool, modelAxes: bool)

  const ThirdStart: ThirdSettings := ThirdSettings(0, false, 0, NoCulling, true, false)

  predicate ThirdConsistent(s: ThirdSettings) {
    s.polygonMode < 3 && s.cullMode < 3 && s.culling == CullingOf(s.cullMode)
  }

  function ThirdPressed(s: ThirdSettings, key: char): (r: ThirdSettings)
    ensures key !in {'1', '2', '3', '4'} ==> r == s
    ensures ThirdConsistent(s) ==> ThirdConsistent(r)
  {
    match key
    case '1' => s.(polygonMode := Cycled(s.polygonMode, 3))
    case '2' => s.(axes := !s.axes, modelAxes := !s.modelAxes)
    case '3' =>
      var m := Cycled(s.cullMode, 3);
      s.(cullMode := m, culling := CullingOf(m))
    case '4' => s.(withVBOs := !s.withVBOs)
    case _ => s
  }

  function ScalarKeysApplied(env: ScalarCamera.Env, s: ScalarCamera.CameraState, keys: seq<char>, dt: real): ScalarCamera.CameraState {
    if keys == [] then s
    else ScalarCamera.AfterKey(env, ScalarKeysApplied(env, s, keys[..|keys| - 1], dt), keys[|keys| - 1], dt)
  }

  function ScalarSpecialsApplied(env: ScalarCamera.Env, s: ScalarCamera.CameraState, codes: seq<int>, dt: real): ScalarCamera.CameraState {
    if codes == [] then s
    else ScalarCamera.AfterSpecial(env, ScalarSpecialsApplied(env, s, codes[..|codes| - 1], dt), codes[|codes| - 1], dt)
  }

  /** The third release's render settings and keybinds. */
  class ThirdUi {
    var settings: ThirdSettings
    var keysPressed: set<char>
    var specialKeysPressed: set<int>

    ghost predicate Valid()
      reads this
    {
      ThirdConsistent(settings) && keysPressed !! ToggleKeys
    }

    /** The globals start at ThirdStart; main then advances the cull mode
        once before the main loop, so back faces are culled from the
        first frame. */
    constructor()
      ensures Valid()
      ensures settings == ThirdPressed(ThirdStart, '3')
      ensures settings == ThirdStart.(cullMode := 1, culling := CullBack)
      ensures keysPressed == {} && specialKeysPressed == {}
    {
      settings := ThirdStart;
      keysPressed := {};
      specialKeysPressed := {};
      new;
      var m := Cycled(settings.cullMode, 3);
      settings := settings.(cullMode := m, culling := CullingOf(m));
    }

    method KeyboardUp(key: char)
      requires Valid()
      modifies this
      ensures Valid()
      ensures keysPressed == old(keysPressed) - {key}
      ensures settings == old(settings) && specialKeysPressed == old(specialKeysPressed)
    {
      keysPressed := keysPressed - {key};
    }

    method KeyboardSpecial(code: int)
      requires Valid()
      modifies this
      ensures Valid()
      ensures specialKeysPressed == old(specialKeysPressed) + {code}
      ensures settings == old(settings) && keysPressed == old(keysPressed)
    {
      specialKeysPressed := specialKeysPressed + {code};
    }

    method KeyboardSpecialUp(code: int)
      requires Valid()
      modifies this
      ensures Valid()
      ensures specialKeysPressed == old(specialKeysPressed) - {code}
      ensures settings == old(settings) && keysPressed == old(keysPressed)
    {
      specialKeysPressed := specialKeysPressed - {code};
    }

    /** keyboard: as in the fourth release, with '2' hiding the paths,
        '4' switching buffer drawing and '5' stepping the tessellation. */
    method Keyboard(key: char, cam: ScalarCamera.Camera, paths: Animation.PathDisplay)
      requires Valid() && paths.Valid()
      modifies this, cam, paths
      ensures Valid() && paths.Valid()
      ensures keysPressed == if key in ToggleKeys then old(keysPressed) else old(keysPressed) + {key}
      ensures specialKeysPressed == old(specialKeysPressed)
      ensures settings == ThirdPressed(old(settings), key)
      ensures cam.State() == if key == 'c' || key == 'C' then ScalarCamera.Toggled(cam.env, old(cam.State())) else old(cam.State())
      ensures paths.tessIndex == if key == '5' then (old(paths.tessIndex) + 1) % |paths.levels| else old(paths.tessIndex)
      ensures paths.showPath == if key == '2' then false else old(paths.showPath)
    {
      if key !in ToggleKeys {
        keysPressed := keysPressed + {key};
      }
      match key {
        case '1' =>
          settings := settings.(polygonMode := Cycled(settings.polygonMode, 3));
        case '2' =>
          settings := settings.(axes := !settings.axes);
          paths.showPath := false;
          settings := settings.(modelAxes := !settings.modelAxes);
        case '3' =>
          var m := Cycled(settings.cullMode, 3);
          settings := settings.(cullMode := m, culling := CullingOf(m));
        case '4' =>
          settings := settings.(withVBOs := !settings.withVBOs);
        case '5' => paths.NextTessellationLevel();
        case 'c' => cam.ToggleMode();
        case 'C' => cam.ToggleMode();
        case _ =>
      }
    }

    /** update: the camera handlers once per held key, then once per held
        special key. */
    method Update(cam: ScalarCamera.Camera, dt: real) returns (keys: seq<char>, codes: seq<int>)
      modifies cam
      ensures Enumerates(keys, keysPressed) && Enumerates(codes, specialKeysPressed)
      ensures cam.State() == ScalarSpecialsApplied(cam.env, ScalarKeysApplied(cam.env, old(cam.State()), keys, dt), codes, dt)
    {
      keys := Enumerate(keysPressed);
      var i := 0;
      while i < |keys|
        invariant i <= |keys|
        invariant cam.State() == ScalarKeysApplied(cam.env, old(cam.State()), keys[..i], dt)
      {
        assert keys[..i + 1][..i] == keys[..i];
        cam.HandleKey(keys[i], dt);
        i := i + 1;
      }
      assert keys[..i] == keys;
      var afterKeys := cam.State();
      codes := Enumerate(specialKeysPressed);
      var j := 0;
      while j < |codes|
        invariant j <= |codes|
        invariant cam.State() == ScalarSpecialsApplied(cam.env, afterKeys, codes[..j], dt)
      {
        assert codes[..j + 1][..j] == codes[..j];
        cam.HandleKeySpecial(codes[j], dt);
        j := j + 1;
      }
      assert codes[..j] == codes;
    }
  }

  // ----- the second release -----

  /** The second release's engine settings. */
  class SecondUi {
    var polygonMode: nat
    var axes: bool
    var cullMode: nat
    var culling: Culling

    ghost predicate Valid()
      reads this
    {
      polygonMode < 3 && cullMode < 3 && culling == CullingOf(cullMode)
    }

    /** main advances the cull mode once before the main loop, so back
        faces are culled from the start. */
    constructor()
      ensures Valid()
      ensures polygonMode == 0 && !axes && cullMode == 1 && culling == CullBack
    {
      polygonMode, axes := 0, false;
      cullMode, culling := 0, NoCulling;
      new;
      var m := Cycled(cullMode, 3);
      cullMode, culling := m, CullingOf(m);
    }

    /** keyboard: every key goes to the camera first; then '1', '2' and
        '3' act on the settings. The second release's handlers take no
        frame time. */
    method Keyboard(key: char, cam: ScalarCamera.Camera)
      requires Valid()
      modifies this, cam
      ensures Valid()
      ensures cam.State() == ScalarCamera.AfterKey(cam.env, old(cam.State()), key, 0.0)
      ensures polygonMode == if key == '1' then Cycled(old(polygonMode), 3) else old(polygonMode)
      ensures axes == if key == '2' then !old(axes) else old(axes)
      ensures cullMode == if key == '3' then Cycled(old(cullMode), 3) else old(cullMode)
    {
      cam.HandleKey(key, 0.0);
      match key {
        case '1' => polygonMode := Cycled(polygonMode, 3);
        case '2' => axes := !axes;
        case '3' =>
          var m := Cycled(cullMode, 3);
          cullMode, culling := m, CullingOf(m);
        case _ =>
      }
    }

    method KeyboardSpecial(code: int, cam: ScalarCamera.Camera)
      modifies cam
      ensures cam.State() == ScalarCamera.AfterSpecial(cam.env, old(cam.State()), code, 0.0)
    {
      cam.HandleKeySpecial(code, 0.0);
    }
  }

  /** The prototype header of the second release: only the polygon mode. */
  class PrototypeUi {
    var polygonMode: nat

    constructor()
      ensures polygonMode == 0
    {
      polygonMode := 0;
    }

    /** keyboard: 'w', 's', 'a' and 'd' move the camera, space cycles the
        polygon mode, every other key does nothing. */
    method Keyboard(key: char, cam: ScalarCamera.Camera)
      requires polygonMode < 3
      modifies this, cam
      ensures polygonMode < 3
      ensures cam.State() == if key in "wsad" then ScalarCamera.AfterKey(cam.env, old(cam.State()), key, 0.0) else old(cam.State())
      ensures polygonMode == if key == ' ' then Cycled(old(polygonMode), 3) else old(polygonMode)
    {
      match key {
        case 'w' => cam.HandleKey(key, 0.0);
        case 's' => cam.HandleKey(key, 0.0);
        case 'a' => cam.HandleKey(key, 0.0);
        case 'd' => cam.HandleKey(key, 0.0);
        case ' ' => polygonMode := Cycled(polygonMode, 3);
        case _ =>
      }
    }
  }

  // ----- clock and frame rate -----

  /** clock: the elapsed milliseconds at the last two frames and the
      seconds between them. */
  class Clock {
    var currentTime: real
    var lastTime: real
    var deltaTime: real

    constructor()
      ensures currentTime == 0.0 && lastTime == 0.0 && deltaTime == 0.0
    {
      currentTime, lastTime, deltaTime := 0.0, 0.0, 0.0;
    }

    /** update, given the milliseconds since start-up that the windowing
        library reports. */
    method Update(elapsed: real)
      modifies this
      ensures lastTime == old(currentTime) && currentTime == elapsed
      ensures deltaTime == (elapsed - old(currentTime)) / 1000.0
    {
      lastTime := currentTime;
      currentTime := elapsed;
      deltaTime := (currentTime - lastTime) / 1000.0;
    }
  }

  /** The frame times of successive updates from a start time. */
  function Deltas(start: real, times: seq<real>): (r: seq<real>)
    ensures |r| == |times|
  {
    if times == [] then [] else Deltas(start, times[..|times| - 1]) + [(times[|times| - 1] - (if |times| == 1 then start else times[|times| - 2])) / 1000.0]
  }

  function Sum(xs: seq<real>): real {
    if xs == [] then 0.0 else Sum(xs[..|xs| - 1]) + xs[|xs| - 1]
  }

  /** The frame times add up to the time elapsed, in seconds. */
  lemma {:induction false} DeltasAddUp(start: real, times: seq<real>)
    requires |times| > 0
    ensures Sum(Deltas(start, times)) == (times[|times| - 1] - start) / 1000.0
    decreases |times|
  {
    var d := Deltas(start, times);
    assert d[..|d| - 1] == Deltas(start, times[..|times| - 1]);
    if |times| > 1 {
      DeltasAddUp(start, times[..|times| - 1]);
    }
  }

  lemma PositiveRate(frames: real, elapsed: real)
    requires frames > 0.0 && elapsed > 0.0
    ensures frames / elapsed > 0.0
  {
  }

  /** framesPerSecond: frames since the last sample, and the rate worked
      out at each sample. The count of a float that is only incremented
      and reset is a whole number. */
  class FrameCounter {
    var lastSampleTime: real
    var frameCount: nat
    var fps: real

    constructor()
      ensures lastSampleTime == 0.0 && frameCount == 0
    {
      lastSampleTime, frameCount, fps := 0.0, 0, 0.0;
    }

    /** update: counts the frame; once more than samplingPeriod
        milliseconds have passed since the last sample, the rate is the
        frames counted over the time passed, and counting restarts. */
    method Update(currentTime: real, samplingPeriod: real)
      requires samplingPeriod >= 0.0
      modifies this
      ensures currentTime - old(lastSampleTime) > samplingPeriod ==>
        fps == (old(frameCount) + 1) as real * 1000.0 / (currentTime - old(lastSampleTime))
        && fps > 0.0 && lastSampleTime == currentTime && frameCount == 0
      ensures currentTime - old(lastSampleTime) <= samplingPeriod ==>
        frameCount == old(frameCount) + 1 && lastSampleTime == old(lastSampleTime) && fps == old(fps)
    {
      frameCount := frameCount + 1;
      if currentTime - lastSampleTime > samplingPeriod {
        var frames, elapsed := frameCount as real * 1000.0, currentTime - lastSampleTime;
        PositiveRate(frames, elapsed);
        fps := frames / elapsed;
        lastSampleTime := currentTime;
        frameCount := 0;
      }
    }
  }
}
