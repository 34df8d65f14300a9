/** The per-frame bookkeeping of the render loop: after the craft has flown
    one frame, the chase camera eases towards a pose behind and above it,
    the terrain and skybox are recentred on it, and the ground grid's offset
    advances by the craft's horizontal displacement so the ground appears
    to slide beneath it. */
module RenderLoop {
  import opened Vectors
  import opened Flight
  import Input

  const CAMERA_DISTANCE_BEHIND: real := 40.0
  const CAMERA_DISTANCE_UP: real := 15.0
  const CAMERA_TARGET_AHEAD: real := 50.0
  /** Fraction of the remaining gap the camera closes each frame. */
  const CAMERA_LERP_FACTOR: real := 0.3

  /** Everything the render loop writes, as a value. */
  datatype Frame = Frame(
    player: Vec3,
    camera: Vec3,
    cameraTarget: Vec3,
    cameraUp: Vec3,
    terrain: Vec3,
    skybox: Vec3,
    gridOffset: Vec3)

  /** The per-frame inputs the model takes from outside: the craft's forward
      and up directions after this frame's rotations, and the elapsed time. */
  datatype FrameInput = FrameInput(forward: Vec3, up: Vec3, dtMs: real)

  /** Where the camera wants to be: behind the craft along its forward
      direction and above it along its up direction. */
  function DesiredCameraPosition(player: Vec3, forward: Vec3, up: Vec3): (r: Vec3)
    ensures r.Add(forward.Scale(CAMERA_DISTANCE_BEHIND)).Sub(up.Scale(CAMERA_DISTANCE_UP)) == player
  {
    player.Sub(forward.Scale(CAMERA_DISTANCE_BEHIND)).Add(up.Scale(CAMERA_DISTANCE_UP))
  }

  /** Where the camera looks: ahead of the craft along its forward direction. */
  function DesiredTarget(player: Vec3, forward: Vec3): (r: Vec3)
    ensures r.Sub(player) == forward.Scale(CAMERA_TARGET_AHEAD)
  {
    player.Add(forward.Scale(CAMERA_TARGET_AHEAD))
  }

  /** The frame after one tick. The camera closes 30% of its gap to the
      desired position, the skybox sits on the craft, the terrain takes the
      craft's x and z and keeps its height, and the grid offset moves by the
      craft's horizontal displacement only. */
  function NextFrame(f: Frame, i: FrameInput): (r: Frame)
    ensures r.player == Translate(f.player, i.forward, i.dtMs)
    ensures r.camera.Sub(DesiredCameraPosition(r.player, i.forward, i.up))
            == f.camera.Sub(DesiredCameraPosition(r.player, i.forward, i.up)).Scale(0.7)
    ensures r.cameraTarget.Sub(r.player) == i.forward.Scale(CAMERA_TARGET_AHEAD)
    ensures r.cameraUp == WORLD_UP
    ensures r.terrain.x == r.player.x && r.terrain.z == r.player.z && r.terrain.y == f.terrain.y
    ensures r.skybox == r.player
    ensures r.gridOffset.x - f.gridOffset.x == r.player.x - f.player.x
    ensures r.gridOffset.z - f.gridOffset.z == r.player.z - f.player.z
    ensures r.gridOffset.y == f.gridOffset.y
  {
    var p := Translate(f.player, i.forward, i.dtMs);
    Frame(
      player := p,
      camera := Lerp(f.camera, DesiredCameraPosition(p, i.forward, i.up), CAMERA_LERP_FACTOR),
      cameraTarget := DesiredTarget(p, i.forward),
      cameraUp := WORLD_UP,
      terrain := Vec3(p.x, f.terrain.y, p.z),
      skybox := p,
      gridOffset := f.gridOffset.Add(Vec3(p.x - f.player.x, 0.0, p.z - f.player.z)))
  }

  /** The frame after a sequence of ticks, in order. */
  function Run(f: Frame, inputs: seq<FrameInput>): Frame
    decreases |inputs|
  {
    if inputs == [] then f else Run(NextFrame(f, inputs[0]), inputs[1..])
  }

  /** The sum of the per-frame moves `forward * moveDistance`. */
  function Travel(inputs: seq<FrameInput>): Vec3
    decreases |inputs|
  {
    if inputs == [] then ZERO
    else inputs[0].forward.Scale(MoveDistance(inputs[0].dtMs)).Add(Travel(inputs[1..]))
  }

  function Repeat(n: nat, i: FrameInput): (r: seq<FrameInput>)
    ensures |r| == n
    ensures forall k :: 0 <= k < n ==> r[k] == i
  {
    seq(n, _ => i)
  }

  function Pow(b: real, n: nat): real
  {
    if n == 0 then 1.0 else b * Pow(b, n - 1)
  }

  /** The craft's position after a run is its start plus the sum of the
      per-frame moves. */
  lemma {:induction false} RunPlayer(f: Frame, inputs: seq<FrameInput>)
    ensures Run(f, inputs).player == f.player.Add(Travel(inputs))
    decreases |inputs|
  {
    if inputs != [] {
      RunPlayer(NextFrame(f, inputs[0]), inputs[1..]);
    }
  }

  /** The grid offset telescopes: after any number of ticks it equals its
      start plus the craft's net x and z displacement, and its y never
      changes. */
  lemma {:induction false} GridOffsetTelescopes(f: Frame, inputs: seq<FrameInput>)
    ensures Run(f, inputs).gridOffset
            == Vec3(f.gridOffset.x + (Run(f, inputs).player.x - f.player.x),
                    f.gridOffset.y,
                    f.gridOffset.z + (Run(f, inputs).player.z - f.player.z))
    decreases |inputs|
  {
    if inputs != [] {
      GridOffsetTelescopes(NextFrame(f, inputs[0]), inputs[1..]);
    }
  }

  /** After at least one tick the terrain is centred under the craft and
      the skybox on it, wherever the craft has gone; the terrain keeps its
      height. */
  lemma {:induction false} RecentredAfterRun(f: Frame, inputs: seq<FrameInput>)
    requires inputs != []
    ensures Run(f, inputs).terrain.x == Run(f, inputs).player.x
    ensures Run(f, inputs).terrain.z == Run(f, inputs).player.z
    ensures Run(f, inputs).terrain.y == f.terrain.y
    ensures Run(f, inputs).skybox == Run(f, inputs).player
    decreases |inputs|
  {
    if |inputs| > 1 {
      RecentredAfterRun(NextFrame(f, inputs[0]), inputs[1..]);
    }
  }

  /** An offset scaled by 0.7 once per frame for n frames. */
  function Decay(c: Vec3, n: nat): Vec3
  {
    if n == 0 then c else Decay(c, n - 1).Scale(0.7)
  }

  /** With no elapsed time the craft does not move, so the desired camera
      position stays put and the camera's offset from it shrinks by the
      factor 0.7 each frame: after n frames it is 0.7^n of the first. */
  lemma CameraConverges(f: Frame, forward: Vec3, up: Vec3, n: nat)
    ensures Run(f, Repeat(n, FrameInput(forward, up, 0.0))).player == f.player
    ensures Run(f, Repeat(n, FrameInput(forward, up, 0.0))).camera.Sub(DesiredCameraPosition(f.player, forward, up))
            == f.camera.Sub(DesiredCameraPosition(f.player, forward, up)).Scale(Pow(0.7, n))
  {
    var d := DesiredCameraPosition(f.player, forward, up);
    StationaryCameraDecays(f, forward, up, n);
    DecayIsPower(f.camera.Sub(d), n);
  }

  /** The stationary run, stated with the per-frame contraction unrolled. */
  lemma {:induction false} StationaryCameraDecays(f: Frame, forward: Vec3, up: Vec3, n: nat)
    ensures Run(f, Repeat(n, FrameInput(forward, up, 0.0))).player == f.player
    ensures Run(f, Repeat(n, FrameInput(forward, up, 0.0))).camera.Sub(DesiredCameraPosition(f.player, forward, up))
            == Decay(f.camera.Sub(DesiredCameraPosition(f.player, forward, up)), n)
    decreases n
  {
    var i := FrameInput(forward, up, 0.0);
    if n > 0 {
      RunRepeatLast(f, i, n);
      StationaryCameraDecays(f, forward, up, n - 1);
    }
  }

  /** Peeling the last frame off a run of n identical frames. */
  lemma RunRepeatLast(f: Frame, i: FrameInput, n: nat)
    requires n > 0
    ensures Run(f, Repeat(n, i)) == NextFrame(Run(f, Repeat(n - 1, i)), i)
  {
    assert Repeat(n, i) == Repeat(n - 1, i) + [i];
    RunAppend(f, Repeat(n - 1, i), [i]);
  }

  lemma {:induction false} RunAppend(f: Frame, xs: seq<FrameInput>, ys: seq<FrameInput>)
    ensures Run(f, xs + ys) == Run(Run(f, xs), ys)
    decreases |xs|
  {
    if xs == [] {
      assert xs + ys == ys;
    } else {
      assert (xs + ys)[0] == xs[0];
      assert (xs + ys)[1..] == xs[1..] + ys;
      RunAppend(NextFrame(f, xs[0]), xs[1..], ys);
    }
  }

  lemma {:induction false} DecayIsPower(c: Vec3, n: nat)
    ensures Decay(c, n) == c.Scale(Pow(0.7, n))
    decreases n
  {
    if n > 0 {
      DecayIsPower(c, n - 1);
      ScaleCompose(c, Pow(0.7, n - 1), 0.7);
    }
  }

  lemma ScaleCompose(v: Vec3, a: real, b: real)
    ensures v.Scale(a).Scale(b) == v.Scale(a * b)
  {
    assert b * (a * v.x) == (a * b) * v.x;
    assert b * (a * v.y) == (a * b) * v.y;
    assert b * (a * v.z) == (a * b) * v.z;
  }

  /** Each frame the squared distance from the camera to its desired
      position is multiplied by 0.49 = 0.7 * 0.7. */
  lemma CameraGapShrinks(f: Frame, i: FrameInput)
    ensures Dist2(NextFrame(f, i).camera, DesiredCameraPosition(NextFrame(f, i).player, i.forward, i.up))
            == 0.49 * Dist2(f.camera, DesiredCameraPosition(NextFrame(f, i).player, i.forward, i.up))
  {
    var r := NextFrame(f, i);
    var d := DesiredCameraPosition(r.player, i.forward, i.up);
    var c := f.camera.Sub(d);
    Dist2Scale(c, 0.7);
    assert Dist2(r.camera, d) == Dist2(c.Scale(0.7), ZERO);
    assert Dist2(f.camera, d) == Dist2(c, ZERO);
  }

  /** Moves over n identical frames add up to n times one frame's move. */
  lemma {:induction false} TravelRepeat(i: FrameInput, n: nat)
    ensures Travel(Repeat(n, i)) == i.forward.Scale(n as real * MoveDistance(i.dtMs))
    decreases n
  {
    if n > 0 {
      assert Repeat(n, i)[1..] == Repeat(n - 1, i);
      TravelRepeat(i, n - 1);
    }
  }

  /** Sixty frames of 1000/60 ms each move the craft 50 units (one second
      at cruise speed) along an unchanging forward direction. */
  lemma SixtyFramesOneSecond(f: Frame, forward: Vec3, up: Vec3)
    ensures Run(f, Repeat(60, FrameInput(forward, up, 1000.0 / 60.0))).player
            == f.player.Add(forward.Scale(PLANE_SPEED))
  {
    var i := FrameInput(forward, up, 1000.0 / 60.0);
    RunPlayer(f, Repeat(60, i));
    TravelRepeat(i, 60);
    assert 60.0 * MoveDistance(i.dtMs) == PLANE_SPEED;
  }

  /** The render loop's state: the camera, the terrain and skybox props, the
      grid material's offset, and the player's craft it follows. */
  class Scene {
    const player: Craft
    var camera: Vec3
    var cameraTarget: Vec3
    var cameraUp: Vec3
    var terrain: Vec3
    var skybox: Vec3
    var gridOffset: Vec3

    function State(): Frame
      reads this, player
    {
      Frame(player.position, camera, cameraTarget, cameraUp, terrain, skybox, gridOffset)
    }

    /** The scene as set up before the first frame: the camera at (0, 5, -10)
        looking at the origin, terrain, skybox and grid offset at the origin. */
    constructor (player: Craft)
      ensures this.player == player
      ensures State() == Frame(player.position, Vec3(0.0, 5.0, -10.0), ZERO, WORLD_UP, ZERO, ZERO, ZERO)
    {
      this.player := player;
      camera := Vec3(0.0, 5.0, -10.0);
      cameraTarget := ZERO;
      cameraUp := WORLD_UP;
      terrain := ZERO;
      skybox := ZERO;
      gridOffset := ZERO;
    }

    /** One pass of the render loop body: remember the craft's position,
        fly one frame, ease the camera, recentre the props and advance the
        grid offset by the horizontal displacement. */
    method Tick(input: Input.InputState, roll: real, forward: Vec3, up: Vec3, dtMs: real)
      returns (rotations: Rotations)
      modifies this, player
      ensures State() == NextFrame(old(State()), FrameInput(forward, up, dtMs))
      ensures rotations == FlightRotations(input.pitch, input.yaw, roll)
    {
      var lastPlayerPos := player.position;
      rotations := player.ApplyFlightInput(input, roll, forward, dtMs);

      var desiredCamPos := player.position;
      desiredCamPos := desiredCamPos.Sub(forward.Scale(CAMERA_DISTANCE_BEHIND));
      desiredCamPos := desiredCamPos.Add(up.Scale(CAMERA_DISTANCE_UP));
      var desiredTarget := player.position.Add(forward.Scale(CAMERA_TARGET_AHEAD));

      camera := Lerp(camera, desiredCamPos, CAMERA_LERP_FACTOR);
      cameraTarget := desiredTarget;
      cameraUp := WORLD_UP;

      terrain := terrain.(x := player.position.x);
      terrain := terrain.(z := player.position.z);
      skybox := player.position;

      var dx := player.position.x - lastPlayerPos.x;
      var dz := player.position.z - lastPlayerPos.z;
      gridOffset := gridOffset.Add(Vec3(dx, 0.0, dz));
    }
  }
}
