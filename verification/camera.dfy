/** include/Camera.h: a fly-through camera driven by keyboard and mouse
    events. Numbers are reals; the basis vectors that camera_update_vectors
    derives from yaw and pitch by trigonometry are the values of the
    function parameter `basisOf`. */
module Camera {
  import opened Types

  datatype Vec2 = Vec2(x: real, y: real)
  datatype Vec3 = Vec3(x: real, y: real, z: real)

  function Add(a: Vec3, b: Vec3): Vec3
  {
    Vec3(a.x + b.x, a.y + b.y, a.z + b.z)
  }

  function Sub(a: Vec3, b: Vec3): Vec3
  {
    Vec3(a.x - b.x, a.y - b.y, a.z - b.z)
  }

  function Scale(a: Vec3, k: real): Vec3
  {
    Vec3(a.x * k, a.y * k, a.z * k)
  }

  /** The three vectors camera_update_vectors stores. */
  datatype Basis = Basis(front: Vec3, right: Vec3, up: Vec3)

  /** camera_update_vectors as a function of yaw, pitch and the world's up
      vector; its trigonometry is not part of this model. */
  type BasisFn = (real, real, Vec3) -> Basis

  // ---------------------------------------------------------------------
  // Events
  // ---------------------------------------------------------------------

  datatype EventType = KeyDown | KeyUp | MouseDown | MouseUp | MouseScroll | MouseMove | OtherEvent

  datatype KeyCode = KeyW | KeyS | KeyA | KeyD | KeyQ | KeyZ | KeyR | KeyT | KeyH | KeyN | KeyEscape | OtherKey

  datatype MouseButton = ButtonLeft | ButtonRight | ButtonMiddle

  /** The fields of sapp_event the handlers read. */
  datatype Event = Event(kind: EventType, key: KeyCode, button: MouseButton,
                         scrollY: real, mouseX: real, mouseY: real)

  // ---------------------------------------------------------------------
  // Clamping
  // ---------------------------------------------------------------------

  /** HMM_Clamp(min, value, max): raise to min, then lower to max. */
  function Clamp(lo: real, v: real, hi: real): (r: real)
    ensures lo <= hi ==> lo <= r <= hi
    ensures lo <= v <= hi ==> r == v
    ensures v < lo && lo <= hi ==> r == lo
    ensures v > hi || lo > hi ==> r == hi
  {
    var raised := if v < lo then lo else v;
    if raised > hi then hi else raised
  }

  /** Clamping a value already clamped to the same bounds changes nothing. */
  lemma ClampIdempotent(lo: real, v: real, hi: real)
    ensures Clamp(lo, Clamp(lo, v, hi), hi) == Clamp(lo, v, hi)
  {
  }

  // ---------------------------------------------------------------------
  // The camera's state
  // ---------------------------------------------------------------------

  /** yaw and pitch, in degrees. */
  datatype Angles = Angles(yaw: real, pitch: real)

  /** min_pitch, max_pitch, min_zoom, max_zoom. */
  datatype Limits = Limits(minPitch: real, maxPitch: real, minZoom: real, maxZoom: real)

  /** movement_speed, aim_speed, zoom_speed. */
  datatype Speeds = Speeds(movement: real, aim: real, zoom: real)

  /** min_x .. max_z: the box constrain_movement keeps the camera in. */
  datatype Box = Box(minX: real, maxX: real, minY: real, maxY: real, minZ: real, maxZ: real)

  /** move_forward .. move_down. */
  datatype MoveFlags = MoveFlags(forward: bool, backward: bool, left: bool, right: bool, up: bool, down: bool)

  /** Every field of camera_t, grouped. */
  datatype CameraState = CameraState(
    position: Vec3, worldUp: Vec3, fov: real, zoom: real, angles: Angles,
    limits: Limits, speeds: Speeds, box: Box,
    enableAim: bool, moves: MoveFlags, constrainMovement: bool, basis: Basis)

  /** cam_desc_t: a zero field asks for the default. */
  datatype CameraDesc = CameraDesc(
    fov: real, yaw: real, pitch: real, zoom: real,
    limits: Limits, speeds: Speeds, box: Box,
    enableAim: bool, moves: MoveFlags, constrainMovement: bool)

  const NoMoves: MoveFlags := MoveFlags(false, false, false, false, false, false)

  const ZeroDesc: CameraDesc := CameraDesc(0.0, 0.0, 0.0, 0.0, Limits(0.0, 0.0, 0.0, 0.0),
                                           Speeds(0.0, 0.0, 0.0), Box(0.0, 0.0, 0.0, 0.0, 0.0, 0.0),
                                           false, NoMoves, false)

  // ---------------------------------------------------------------------
  // The operations as functions of the state
  // ---------------------------------------------------------------------

  /** camera_update_vectors. */
  function WithBasis(c: CameraState, basisOf: BasisFn): CameraState
  {
    c.(basis := basisOf(c.angles.yaw, c.angles.pitch, c.worldUp))
  }

  /** _cam_def_flt. */
  function OrDefault(v: real, def: real): real
  {
    if v == 0.0 then def else v
  }

  /** The limits camera_set_up stores. */
  function DefaultLimits(l: Limits): Limits
  {
    Limits(OrDefault(l.minPitch, -89.0), OrDefault(l.maxPitch, 89.0),
           OrDefault(l.minZoom, 1.0), OrDefault(l.maxZoom, 45.0))
  }

  /** The speeds camera_set_up stores. */
  function DefaultSpeeds(sp: Speeds): Speeds
  {
    Speeds(OrDefault(sp.movement, 5.0), OrDefault(sp.aim, 1.0), OrDefault(sp.zoom, 0.1))
  }

  /** The box camera_set_up stores. */
  function DefaultBox(b: Box): Box
  {
    Box(OrDefault(b.minX, -100.0), OrDefault(b.maxX, 100.0),
        OrDefault(b.minY, -100.0), OrDefault(b.maxY, 100.0),
        OrDefault(b.minZ, -100.0), OrDefault(b.maxZ, 100.0))
  }

  /** camera_set_up. The boolean fields are copied, since defaulting a
      boolean to false keeps it; move_up and move_down are not written. */
  function SetUpSpec(c: CameraState, position: Vec3, d: CameraDesc, basisOf: BasisFn): CameraState
  {
    WithBasis(SetUpSettings(c, position, d), basisOf)
  }

  /** The settings camera_set_up stores before it recomputes the basis. */
  function SetUpSettings(c: CameraState, position: Vec3, d: CameraDesc): CameraState
  {
    CameraState(position, Vec3(0.0, 1.0, 0.0), OrDefault(d.fov, 45.0), OrDefault(d.zoom, 45.0),
                Angles(OrDefault(d.yaw, -90.0), OrDefault(d.pitch, 0.0)),
                DefaultLimits(d.limits), DefaultSpeeds(d.speeds), DefaultBox(d.box),
                d.enableAim,
                d.moves.(up := c.moves.up, down := c.moves.down),
                d.constrainMovement, c.basis)
  }

  /** The descriptor that asks for exactly the settings a camera has. */
  function DescOf(c: CameraState): CameraDesc
  {
    CameraDesc(c.fov, c.angles.yaw, c.angles.pitch, c.zoom, c.limits, c.speeds, c.box,
               c.enableAim, c.moves, c.constrainMovement)
  }

  /** An all-zero descriptor yields the documented defaults, with ordered
      pitch, zoom and movement ranges, and leaves move_up and move_down as
      they were. */
  lemma SetUpZeroDesc(c: CameraState, position: Vec3, basisOf: BasisFn)
    ensures var r := SetUpSpec(c, position, ZeroDesc, basisOf);
            && r.position == position && r.worldUp == Vec3(0.0, 1.0, 0.0)
            && r.angles == Angles(-90.0, 0.0) && r.zoom == 45.0 && r.fov == 45.0
            && r.speeds == Speeds(5.0, 1.0, 0.1)
            && r.limits == Limits(-89.0, 89.0, 1.0, 45.0)
            && r.box == Box(-100.0, 100.0, -100.0, 100.0, -100.0, 100.0)
            && r.limits.minPitch <= r.angles.pitch <= r.limits.maxPitch
            && r.limits.minZoom <= r.zoom <= r.limits.maxZoom
            && BoxOrdered(r.box)
            && r.moves == NoMoves.(up := c.moves.up, down := c.moves.down)
            && !r.enableAim && !r.constrainMovement
  {
  }

  /** A non-zero descriptor value survives. */
  predicate Kept(v: real, r: real)
  {
    v != 0.0 ==> r == v
  }

  /** Every setting camera_set_up defaults, except pitch whose default is
      zero, is non-zero. */
  predicate NoZeroSettings(r: CameraState)
  {
    && r.fov != 0.0 && r.zoom != 0.0 && r.angles.yaw != 0.0
    && r.limits.minPitch != 0.0 && r.limits.maxPitch != 0.0 && r.limits.minZoom != 0.0 && r.limits.maxZoom != 0.0
    && r.speeds.movement != 0.0 && r.speeds.aim != 0.0 && r.speeds.zoom != 0.0
    && r.box.minX != 0.0 && r.box.maxX != 0.0 && r.box.minY != 0.0 && r.box.maxY != 0.0
    && r.box.minZ != 0.0 && r.box.maxZ != 0.0
  }

  /** Every non-zero setting of the descriptor is taken as given. */
  predicate KeepsNonZero(d: CameraDesc, r: CameraState)
  {
    && Kept(d.fov, r.fov) && Kept(d.zoom, r.zoom) && Kept(d.yaw, r.angles.yaw) && Kept(d.pitch, r.angles.pitch)
    && Kept(d.limits.minPitch, r.limits.minPitch) && Kept(d.limits.maxPitch, r.limits.maxPitch)
    && Kept(d.limits.minZoom, r.limits.minZoom) && Kept(d.limits.maxZoom, r.limits.maxZoom)
    && Kept(d.speeds.movement, r.speeds.movement) && Kept(d.speeds.aim, r.speeds.aim) && Kept(d.speeds.zoom, r.speeds.zoom)
    && Kept(d.box.minX, r.box.minX) && Kept(d.box.maxX, r.box.maxX) && Kept(d.box.minY, r.box.minY)
    && Kept(d.box.maxY, r.box.maxY) && Kept(d.box.minZ, r.box.minZ) && Kept(d.box.maxZ, r.box.maxZ)
  }

  /** camera_set_up keeps every non-zero setting, fills every zero one with
      a non-zero default (pitch's default is zero itself), copies the flags
      it writes and leaves move_up and move_down alone. */
  lemma SetUpDefaultsOnlyZeros(c: CameraState, position: Vec3, d: CameraDesc, basisOf: BasisFn)
    ensures var r := SetUpSpec(c, position, d, basisOf);
            && KeepsNonZero(d, r) && NoZeroSettings(r) && r.angles.pitch == d.pitch
            && r.moves.forward == d.moves.forward && r.moves.backward == d.moves.backward
            && r.moves.left == d.moves.left && r.moves.right == d.moves.right
            && r.moves.up == c.moves.up && r.moves.down == c.moves.down
            && r.enableAim == d.enableAim && r.constrainMovement == d.constrainMovement
            && r.basis == basisOf(r.angles.yaw, r.angles.pitch, Vec3(0.0, 1.0, 0.0))
  {
  }

  /** Setting a camera up again from its own settings changes nothing: the
      defaults fill only zeros, and the one zero default fills a zero. */
  lemma SetUpIdempotent(c: CameraState, position: Vec3, d: CameraDesc, basisOf: BasisFn)
    ensures var r := SetUpSpec(c, position, d, basisOf);
            SetUpSpec(r, position, DescOf(r), basisOf) == r
  {
  }

  /** camera_aim: yaw accumulates, pitch accumulates and is clamped, and the
      basis follows. */
  function AimSpec(c: CameraState, offset: Vec2, basisOf: BasisFn): CameraState
  {
    WithBasis(c.(angles := Angles(c.angles.yaw + offset.x * c.speeds.aim,
                                  Clamp(c.limits.minPitch, c.angles.pitch + offset.y * c.speeds.aim, c.limits.maxPitch))),
              basisOf)
  }

  /** After aiming, pitch lies in its range whenever the range is ordered,
      yaw has moved by exactly x times the aim speed with no bound, the
      basis is that of the new angles, and nothing else has changed. */
  lemma AimBounds(c: CameraState, offset: Vec2, basisOf: BasisFn)
    ensures var r := AimSpec(c, offset, basisOf);
            && (c.limits.minPitch <= c.limits.maxPitch ==> c.limits.minPitch <= r.angles.pitch <= c.limits.maxPitch)
            && r.angles.yaw == c.angles.yaw + offset.x * c.speeds.aim
            && r == c.(angles := r.angles, basis := r.basis)
            && r.basis == basisOf(r.angles.yaw, r.angles.pitch, c.worldUp)
  {
  }

  /** camera_zoom. */
  function ZoomSpec(c: CameraState, yoffset: real): CameraState
  {
    c.(zoom := Clamp(c.limits.minZoom, c.zoom - yoffset * c.speeds.zoom, c.limits.maxZoom))
  }

  /** Zooming keeps the zoom in its range and never touches the field of
      view; a positive step (y times the zoom speed) from a zoom in range
      never increases it, and decreases it while it is above the minimum. */
  lemma ZoomMonotone(c: CameraState, yoffset: real)
    ensures var r := ZoomSpec(c, yoffset);
            && r.fov == c.fov
            && r == c.(zoom := r.zoom)
            && (c.limits.minZoom <= c.limits.maxZoom ==> c.limits.minZoom <= r.zoom <= c.limits.maxZoom)
            && (yoffset * c.speeds.zoom > 0.0 && c.limits.minZoom <= c.zoom <= c.limits.maxZoom ==>
                  r.zoom <= c.zoom && (c.zoom > c.limits.minZoom ==> r.zoom < c.zoom))
  {
  }

  predicate BoxOrdered(b: Box)
  {
    b.minX <= b.maxX && b.minY <= b.maxY && b.minZ <= b.maxZ
  }

  predicate InBox(p: Vec3, b: Box)
  {
    b.minX <= p.x <= b.maxX && b.minY <= p.y <= b.maxY && b.minZ <= p.z <= b.maxZ
  }

  /** camera_constrain_movement. */
  function ConstrainSpec(c: CameraState): CameraState
  {
    if !c.constrainMovement then c
    else c.(position := Vec3(Clamp(c.box.minX, c.position.x, c.box.maxX),
                             Clamp(c.box.minY, c.position.y, c.box.maxY),
                             Clamp(c.box.minZ, c.position.z, c.box.maxZ)))
  }

  /** With the flag set and an ordered box, the position ends inside the box;
      a position already inside stays put; constraining twice is constraining
      once; without the flag nothing changes. */
  lemma ConstrainInBox(c: CameraState)
    ensures var r := ConstrainSpec(c);
            && r == c.(position := r.position)
            && (!c.constrainMovement ==> r == c)
            && (c.constrainMovement && BoxOrdered(c.box) ==> InBox(r.position, c.box))
            && (InBox(c.position, c.box) ==> r == c)
            && ConstrainSpec(r) == r
  {
  }

  /** A move along `d` when `on`. */
  function Nudge(p: Vec3, on: bool, d: Vec3): Vec3
  {
    if on then Add(p, d) else p
  }

  /** A move against `d` when `on`. */
  function Pull(p: Vec3, on: bool, d: Vec3): Vec3
  {
    if on then Sub(p, d) else p
  }

  /** The position after the six conditional moves of camera_update, in the
      order forward, backward, left, right, up, down, at velocity v. */
  function MovedPosition(p: Vec3, m: MoveFlags, b: Basis, v: real): Vec3
  {
    var f, r, u := Scale(b.front, v), Scale(b.right, v), Scale(b.up, v);
    Pull(Nudge(Nudge(Pull(Pull(Nudge(p, m.forward, f), m.backward, f), m.left, r), m.right, r), m.up, u), m.down, u)
  }

  /** camera_update: the velocity is movement_speed times delta_time. */
  function UpdateSpec(c: CameraState, deltaTime: real): CameraState
  {
    ConstrainSpec(c.(position := MovedPosition(c.position, c.moves, c.basis, Velocity(c, deltaTime))))
  }

  /** How far one update moves the camera along each held direction. */
  function Velocity(c: CameraState, deltaTime: real): real
  {
    c.speeds.movement * deltaTime
  }

  /** Only the position changes; with no move flag and no constraint the
      camera stays where it is; with the constraint and an ordered box it
      ends inside the box. */
  lemma UpdateBounds(c: CameraState, deltaTime: real)
    ensures var r := UpdateSpec(c, deltaTime);
            && r == c.(position := r.position)
            && (c.moves == NoMoves && !c.constrainMovement ==> r == c)
            && (c.constrainMovement && BoxOrdered(c.box) ==> InBox(r.position, c.box))
  {
  }

  /** A move along `d` and one against it, in either order, cancel. */
  lemma NudgePullCancel(p: Vec3, d: Vec3)
    ensures Pull(Nudge(p, true, d), true, d) == p
    ensures Nudge(Pull(p, true, d), true, d) == p
  {
  }

  /** Opposite keys held together cancel: each pair moves the camera exactly
      as if neither key of the pair were held. */
  lemma UpdateOppositesCancel(p: Vec3, m: MoveFlags, b: Basis, v: real)
    ensures m.forward && m.backward ==>
              MovedPosition(p, m, b, v) == MovedPosition(p, m.(forward := false, backward := false), b, v)
    ensures m.left && m.right ==>
              MovedPosition(p, m, b, v) == MovedPosition(p, m.(left := false, right := false), b, v)
    ensures m.up && m.down ==>
              MovedPosition(p, m, b, v) == MovedPosition(p, m.(up := false, down := false), b, v)
  {
    var f, r, u := Scale(b.front, v), Scale(b.right, v), Scale(b.up, v);
    NudgePullCancel(p, f);
    var q := Pull(Nudge(p, m.forward, f), m.backward, f);
    NudgePullCancel(q, r);
    var s := Nudge(Pull(q, m.left, r), m.right, r);
    NudgePullCancel(s, u);
  }

  predicate IsMoveKey(k: KeyCode)
  {
    k == KeyW || k == KeyS || k == KeyA || k == KeyD || k == KeyQ || k == KeyZ
  }

  /** The movement flag a key drives. */
  function MoveFlag(m: MoveFlags, k: KeyCode): bool
    requires IsMoveKey(k)
  {
    match k
    case KeyW => m.forward
    case KeyS => m.backward
    case KeyA => m.left
    case KeyD => m.right
    case KeyQ => m.up
    case KeyZ => m.down
  }

  /** The movement flag of a key set to `down`; other keys change nothing. */
  function SetMoveFlag(m: MoveFlags, k: KeyCode, down: bool): MoveFlags
  {
    match k
    case KeyW => m.(forward := down)
    case KeyS => m.(backward := down)
    case KeyA => m.(left := down)
    case KeyD => m.(right := down)
    case KeyQ => m.(up := down)
    case KeyZ => m.(down := down)
    case _ => m
  }

  /** A key event sets its own key's flag and no other. */
  lemma SetMoveFlagOnlyItsKey(m: MoveFlags, k: KeyCode, down: bool)
    ensures forall j :: IsMoveKey(j) ==>
              MoveFlag(SetMoveFlag(m, k, down), j) == if j == k then down else MoveFlag(m, j)
    ensures !IsMoveKey(k) ==> SetMoveFlag(m, k, down) == m
  {
  }

  /** camera_handle_input. */
  function HandleInputSpec(c: CameraState, e: Event, offset: Vec2, basisOf: BasisFn): CameraState
  {
    match e.kind
    case KeyDown => c.(moves := SetMoveFlag(c.moves, e.key, true))
    case KeyUp => c.(moves := SetMoveFlag(c.moves, e.key, false))
    case MouseDown => if e.button == ButtonRight then c.(enableAim := true) else c
    case MouseUp => if e.button == ButtonRight then c.(enableAim := false) else c
    case MouseScroll => ZoomSpec(c, e.scrollY)
    case MouseMove => if c.enableAim then AimSpec(c, offset, basisOf) else c
    case OtherEvent => c
  }

  /** The aim and the movement keys are independent: only a key event
      changes a movement flag, a key event changes nothing else, a button
      other than the right one does nothing, and a mouse move turns the
      camera only while aiming is enabled. */
  lemma HandleInputSeparation(c: CameraState, e: Event, offset: Vec2, basisOf: BasisFn)
    ensures var r := HandleInputSpec(c, e, offset, basisOf);
            && (e.kind != KeyDown && e.kind != KeyUp ==> r.moves == c.moves)
            && (e.kind == KeyDown || e.kind == KeyUp ==> r == c.(moves := r.moves))
            && ((e.kind == MouseDown || e.kind == MouseUp) && e.button != ButtonRight ==> r == c)
            && (e.kind == MouseMove && !c.enableAim ==> r == c)
            && (e.kind == MouseMove && c.enableAim ==> r == AimSpec(c, offset, basisOf))
  {
  }

  /** One event and the mouse offset it comes with. */
  datatype Input = Input(event: Event, offset: Vec2)

  /** camera_handle_input applied to each input in turn. */
  function RunInputs(c: CameraState, inputs: seq<Input>, basisOf: BasisFn): CameraState
    decreases |inputs|
  {
    if inputs == [] then c
    else
      var last := inputs[|inputs| - 1];
      HandleInputSpec(RunInputs(c, inputs[..|inputs| - 1], basisOf), last.event, last.offset, basisOf)
  }

  /** Whether the last key event for `k` among `inputs` was a press, if
      there is one. */
  function LastKeyEvent(inputs: seq<Input>, k: KeyCode): Option<bool>
    decreases |inputs|
  {
    if inputs == [] then None
    else
      var e := inputs[|inputs| - 1].event;
      if (e.kind == KeyDown || e.kind == KeyUp) && e.key == k then Some(e.kind == KeyDown)
      else LastKeyEvent(inputs[..|inputs| - 1], k)
  }

  /** After any run of events, each movement flag records whether the last
      event for its key was a press, and keeps its old value if the key was
      never touched. */
  lemma {:induction false} FlagsFollowLastKeyEvent(c: CameraState, inputs: seq<Input>, basisOf: BasisFn, k: KeyCode)
    requires IsMoveKey(k)
    ensures MoveFlag(RunInputs(c, inputs, basisOf).moves, k) ==
              match LastKeyEvent(inputs, k)
              case None => MoveFlag(c.moves, k)
              case Some(down) => down
    decreases |inputs|
  {
    if inputs != [] {
      var prefix := inputs[..|inputs| - 1];
      FlagsFollowLastKeyEvent(c, prefix, basisOf, k);
      var last := inputs[|inputs| - 1];
      var before := RunInputs(c, prefix, basisOf);
      HandleInputSeparation(before, last.event, last.offset, basisOf);
      SetMoveFlagOnlyItsKey(before.moves, last.event.key, last.event.kind == KeyDown);
    }
  }

  // ---------------------------------------------------------------------
  // camera_t and its functions
  // ---------------------------------------------------------------------

  /** camera_t. Its fields are grouped as in CameraState: yaw and pitch in
      `angles`, the pitch and zoom ranges in `limits`, the three speeds in
      `speeds`, the movement box in `box`, the six movement flags in `moves`
      and _front, _right, _up in `basis`. */
  class Camera {
    var position: Vec3
    var worldUp: Vec3
    var fov: real
    var zoom: real
    var angles: Angles
    var limits: Limits
    var speeds: Speeds
    var box: Box
    var enableAim: bool
    var moves: MoveFlags
    var constrainMovement: bool
    var basis: Basis

    /** The trigonometry of camera_update_vectors. */
    const basisOf: BasisFn

    function State(): CameraState
      reads this
    {
      CameraState(position, worldUp, fov, zoom, angles, limits, speeds, box,
                  enableAim, moves, constrainMovement, basis)
    }

    /** A camera_t in static storage: every field zero. */
    constructor (basisOf: BasisFn)
      ensures var zero := Vec3(0.0, 0.0, 0.0);
              State() == CameraState(zero, zero, 0.0, 0.0, Angles(0.0, 0.0), Limits(0.0, 0.0, 0.0, 0.0),
                                     Speeds(0.0, 0.0, 0.0), Box(0.0, 0.0, 0.0, 0.0, 0.0, 0.0),
                                     false, NoMoves, false, Basis(zero, zero, zero))
      ensures this.basisOf == basisOf
    {
      var zero := Vec3(0.0, 0.0, 0.0);
      position, worldUp := zero, zero;
      fov, zoom := 0.0, 0.0;
      angles := Angles(0.0, 0.0);
      limits := Limits(0.0, 0.0, 0.0, 0.0);
      speeds := Speeds(0.0, 0.0, 0.0);
      box := Box(0.0, 0.0, 0.0, 0.0, 0.0, 0.0);
      enableAim, moves, constrainMovement := false, NoMoves, false;
      basis := Basis(zero, zero, zero);
      this.basisOf := basisOf;
    }

    /** camera_get_position. */
    function GetPosition(): (p: Vec3)
      reads this
      ensures p == State().position
    {
      position
    }

    /** camera_get_direction: the front vector. */
    function GetDirection(): (d: Vec3)
      reads this
      ensures d == State().basis.front
    {
      basis.front
    }

    /** camera_get_fov. */
    function GetFov(): (f: real)
      reads this
      ensures f == State().fov
    {
      fov
    }

    /** camera_update_vectors. */
    method UpdateVectors()
      modifies this
      ensures State() == WithBasis(old(State()), basisOf)
    {
      basis := basisOf(angles.yaw, angles.pitch, worldUp);
    }

    /** camera_set_up. */
    method SetUp(position: Vec3, desc: CameraDesc)
      modifies this
      ensures State() == SetUpSpec(old(State()), position, desc, basisOf)
    {
      this.position, worldUp := position, Vec3(0.0, 1.0, 0.0);
      angles, zoom, fov := Angles(OrDefault(desc.yaw, -90.0), OrDefault(desc.pitch, 0.0)),
                           OrDefault(desc.zoom, 45.0), OrDefault(desc.fov, 45.0);
      speeds, limits := DefaultSpeeds(desc.speeds), DefaultLimits(desc.limits);
      ghost var s := SetUpSettings(old(State()), position, desc);
      assert State() == s.(moves := old(moves), enableAim := old(enableAim),
                           constrainMovement := old(constrainMovement), box := old(box));
      moves := desc.moves.(up := moves.up, down := moves.down);
      enableAim, constrainMovement, box := desc.enableAim, desc.constrainMovement, DefaultBox(desc.box);
      assert State() == SetUpSettings(old(State()), position, desc);
      UpdateVectors();
    }

    /** camera_aim. */
    method Aim(mouseOffset: Vec2)
      modifies this
      ensures State() == AimSpec(old(State()), mouseOffset, basisOf)
    {
      angles := angles.(yaw := angles.yaw + mouseOffset.x * speeds.aim);
      angles := angles.(pitch := angles.pitch + mouseOffset.y * speeds.aim);
      angles := angles.(pitch := Clamp(limits.minPitch, angles.pitch, limits.maxPitch));
      UpdateVectors();
    }

    /** camera_zoom. */
    method Zoom(yoffset: real)
      modifies this
      ensures State() == ZoomSpec(old(State()), yoffset)
    {
      zoom := zoom - yoffset * speeds.zoom;
      zoom := Clamp(limits.minZoom, zoom, limits.maxZoom);
    }

    /** camera_constrain_movement. */
    method ConstrainMovement()
      modifies this
      ensures State() == ConstrainSpec(old(State()))
    {
      if !constrainMovement {
        return;
      }
      position := position.(x := Clamp(box.minX, position.x, box.maxX));
      position := position.(y := Clamp(box.minY, position.y, box.maxY));
      position := position.(z := Clamp(box.minZ, position.z, box.maxZ));
    }

    /** One conditional move of camera_update: along `d` when `along`,
        against it otherwise, and only if `on`. */
    method MoveIf(on: bool, d: Vec3, along: bool)
      modifies this
      ensures State() == old(State()).(position := if along then Nudge(old(position), on, d) else Pull(old(position), on, d))
    {
      if on {
        position := if along then Add(position, d) else Sub(position, d);
      }
    }

    /** The six conditional moves of camera_update, at `velocity`. */
    method Move(velocity: real)
      modifies this
      ensures State() == old(State()).(position := MovedPosition(old(position), old(moves), old(basis), velocity))
    {
      var f, r, u := Scale(basis.front, velocity), Scale(basis.right, velocity), Scale(basis.up, velocity);
      MoveIf(moves.forward, f, true);
      MoveIf(moves.backward, f, false);
      MoveIf(moves.left, r, false);
      MoveIf(moves.right, r, true);
      MoveIf(moves.up, u, true);
      MoveIf(moves.down, u, false);
    }

    /** camera_update. */
    method Update(deltaTime: real)
      modifies this
      ensures State() == UpdateSpec(old(State()), deltaTime)
    {
      var velocity := Velocity(State(), deltaTime);
      Move(velocity);
      if constrainMovement {
        ConstrainMovement();
      }
    }

    /** The six key tests of one branch of camera_handle_input: true in the
        KEY_DOWN branch, false in the KEY_UP branch. */
    method SetKeyFlag(key: KeyCode, down: bool)
      modifies this
      ensures State() == old(State()).(moves := SetMoveFlag(old(moves), key, down))
    {
      if key == KeyW { moves := moves.(forward := down); }
      if key == KeyS { moves := moves.(backward := down); }
      if key == KeyA { moves := moves.(left := down); }
      if key == KeyD { moves := moves.(right := down); }
      if key == KeyQ { moves := moves.(up := down); }
      if key == KeyZ { moves := moves.(down := down); }
    }

    /** camera_handle_input. */
    method HandleInput(e: Event, mouseOffset: Vec2)
      modifies this
      ensures State() == HandleInputSpec(old(State()), e, mouseOffset, basisOf)
    {
      if e.kind == KeyDown {
        SetKeyFlag(e.key, true);
      } else if e.kind == KeyUp {
        SetKeyFlag(e.key, false);
      } else if e.kind == MouseDown {
        if e.button == ButtonRight { enableAim := true; }
      } else if e.kind == MouseUp {
        if e.button == ButtonRight { enableAim := false; }
      } else if e.kind == MouseScroll {
        Zoom(e.scrollY);
      } else if e.kind == MouseMove {
        if enableAim {
          Aim(mouseOffset);
        }
      }
    }
  }
}
