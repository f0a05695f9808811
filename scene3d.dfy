/** The numeric rules of the 3D gallery: which floor points can be walked
    on, how the held keys move the character each frame, which room is
    reported, the teleport targets, the camera pitch clamp, the falling
    particles and the fit of a picture into its frame. Positions are exact
    reals; `Math.sin`, `Math.atan2` and the clock are parameters. */
module Scene3D {
  import opened Wrappers

  const Pi: real := 3.141592653589793
  const Speed: real := 1.2
  const RoomRadius: real := 110.0
  const LibraryZ: real := 0.0
  const RotundaZ: real := -350.0
  /** The corridor test uses 20 on either side of the axis. */
  const CorridorHalfWidth: real := 20.0
  const FloorY: real := -10.0
  /** Where a teleport puts the character: 60 in front of the room's centre. */
  const SpawnOffset: real := 60.0
  const PhiMin: real := 0.1
  const PhiMax: real := Pi / 1.5
  const DragScale: real := 0.005
  const PetalCount: nat := 1500
  const SnowCount: nat := 2000
  const PetalStep: real := 0.05
  const SnowStep: real := 0.08
  const ParticleFloor: real := -10.0
  const ParticleTop: real := 70.0
  /** Particles start at `Math.random() * 80`, in [0, 80). */
  const ParticleCeiling: real := 80.0
  const PanelSize: real := 15.0

  datatype Room = Library | Rotunda

  function Abs(r: real): real {
    if r < 0.0 then -r else r
  }

  // ---------------------------------------------------------------------------
  // The walkable floor

  /** Within 110 of the library's centre (0, 0); `Math.sqrt(d) < 110` is
      written as `d < 110 * 110`, the same test for the non-negative `d`. */
  predicate InLibrary(x: real, z: real) {
    x * x + (z - LibraryZ) * (z - LibraryZ) < RoomRadius * RoomRadius
  }

  /** Within 110 of the rotunda's centre (0, -350). */
  predicate InRotunda(x: real, z: real) {
    x * x + (z - RotundaZ) * (z - RotundaZ) < RoomRadius * RoomRadius
  }

  /** The strip between the two rooms. */
  predicate InCorridor(x: real, z: real) {
    Abs(x) < CorridorHalfWidth && z < 0.0 && z > RotundaZ
  }

  predicate Walkable(x: real, z: real) {
    InLibrary(x, z) || InRotunda(x, z) || InCorridor(x, z)
  }

  /** One collision-checked move: the step is taken exactly when it lands on
      walkable floor, and otherwise the character stays put; either way a
      walkable position stays walkable. */
  function TryMove(x: real, z: real, dx: real, dz: real): (p: (real, real))
    ensures Walkable(x + dx, z + dz) ==> p == (x + dx, z + dz)
    ensures !Walkable(x + dx, z + dz) ==> p == (x, z)
    ensures Walkable(x, z) ==> Walkable(p.0, p.1)
  {
    if Walkable(x + dx, z + dz) then (x + dx, z + dz) else (x, z)
  }

  /** A run of frames, each trying its own displacement. */
  function Walk(x: real, z: real, steps: seq<(real, real)>): (real, real)
    decreases |steps|
  {
    if steps == [] then (x, z)
    else
      var p := TryMove(x, z, steps[0].0, steps[0].1);
      Walk(p.0, p.1, steps[1..])
  }

  /** The character never leaves the walkable floor, whatever keys are
      held over however many frames. */
  lemma {:induction false} WalkStaysWalkable(x: real, z: real, steps: seq<(real, real)>)
    requires Walkable(x, z)
    ensures Walkable(Walk(x, z, steps).0, Walk(x, z, steps).1)
    decreases |steps|
  {
    if steps != [] {
      var p := TryMove(x, z, steps[0].0, steps[0].1);
      WalkStaysWalkable(p.0, p.1, steps[1..]);
    }
  }

  // ---------------------------------------------------------------------------
  // Rooms and teleport targets

  /** The room reported for a floor depth: the library in front of
      z = -100, the rotunda behind z = -250, nothing in between. */
  function RoomAt(z: real): (r: Option<Room>)
    ensures r == Some(Library) <==> z > -100.0
    ensures r == Some(Rotunda) <==> z < -250.0
    ensures r == None <==> -250.0 <= z <= -100.0
  {
    if z > -100.0 then Some(Library)
    else if z < -250.0 then Some(Rotunda)
    else None
  }

  function RoomZ(room: Room): real {
    match room
    case Library => LibraryZ
    case Rotunda => RotundaZ
  }

  /** The floor point a teleport to `room` puts the character on. */
  function SpawnZ(room: Room): real {
    RoomZ(room) + SpawnOffset
  }

  /** Both teleport targets, and so the start position, are walkable, and
      each lies in the room it is named after. */
  lemma SpawnsWalkable(room: Room)
    ensures Walkable(0.0, SpawnZ(room))
    ensures RoomAt(SpawnZ(room)) == Some(room)
  {
    match room
    case Library =>
      assert SpawnZ(room) == 60.0;
      assert InLibrary(0.0, 60.0);
    case Rotunda =>
      assert SpawnZ(room) == -290.0;
      assert InRotunda(0.0, -290.0);
  }

  /** Between the rooms the corridor is the only floor: a point there that
      is walkable is in the corridor. */
  lemma CorridorBetweenRooms(x: real, z: real)
    requires -240.0 <= z <= -110.0
    ensures Walkable(x, z) <==> InCorridor(x, z)
  {
    SquareAtLeast(x, 0.0);
    SquareAtLeast(LibraryZ - z, RoomRadius);
    SquareAtLeast(z - RotundaZ, RoomRadius);
    assert (z - LibraryZ) * (z - LibraryZ) == (LibraryZ - z) * (LibraryZ - z);
  }

  lemma SquareAtLeast(a: real, b: real)
    requires 0.0 <= b <= Abs(a)
    ensures b * b <= a * a
  {
    if a < 0.0 {
      assert a * a == (-a) * (-a);
    }
  }

  // ---------------------------------------------------------------------------
  // Keys

  /** A key counts as held when its entry is `true`; a key never seen reads
      as `undefined`, which is falsy. */
  predicate Pressed(keys: map<string, bool>, code: string) {
    code in keys && keys[code]
  }

  predicate Up(keys: map<string, bool>) { Pressed(keys, "ArrowUp") || Pressed(keys, "KeyW") }
  predicate Down(keys: map<string, bool>) { Pressed(keys, "ArrowDown") || Pressed(keys, "KeyS") }
  predicate Left(keys: map<string, bool>) { Pressed(keys, "ArrowLeft") || Pressed(keys, "KeyA") }
  predicate Right(keys: map<string, bool>) { Pressed(keys, "ArrowRight") || Pressed(keys, "KeyD") }

  /** One frame's intended step. */
  datatype Intent = Intent(dx: real, dz: real, moving: bool)

  /** The speed in the positive direction less the speed in the negative
      one. */
  function Axis(negative: bool, positive: bool): real {
    (if positive then Speed else 0.0) - (if negative then Speed else 0.0)
  }

  /** The step the held keys ask for: forward is -z, right is +x; the
      character is moving as soon as any direction is held, even when two
      opposite ones cancel. */
  function KeyIntent(keys: map<string, bool>): Intent {
    Intent(Axis(Left(keys), Right(keys)), Axis(Up(keys), Down(keys)),
           Up(keys) || Down(keys) || Left(keys) || Right(keys))
  }

  /** The four key tests of a frame, each adjusting `dz` or `dx` in turn. */
  method ReadKeys(keys: map<string, bool>) returns (dx: real, dz: real, isMoving: bool)
    ensures Intent(dx, dz, isMoving) == KeyIntent(keys)
  {
    isMoving := false;
    dx, dz := 0.0, 0.0;
    if Pressed(keys, "ArrowUp") || Pressed(keys, "KeyW") { dz := dz - Speed; isMoving := true; }
    if Pressed(keys, "ArrowDown") || Pressed(keys, "KeyS") { dz := dz + Speed; isMoving := true; }
    if Pressed(keys, "ArrowLeft") || Pressed(keys, "KeyA") { dx := dx - Speed; isMoving := true; }
    if Pressed(keys, "ArrowRight") || Pressed(keys, "KeyD") { dx := dx + Speed; isMoving := true; }
  }

  /** Each axis moves by at most one speed, and not at all when nothing is
      held. */
  lemma IntentBounds(keys: map<string, bool>)
    ensures var i := KeyIntent(keys);
            && -Speed <= i.dx <= Speed && -Speed <= i.dz <= Speed
            && (!i.moving ==> i.dx == 0.0 && i.dz == 0.0)
            && (Up(keys) && Down(keys) ==> i.dz == 0.0 && i.moving)
  {
  }

  // ---------------------------------------------------------------------------
  // Camera pitch, particles and picture frames

  /** `Math.max(0.1, Math.min(Math.PI / 1.5, phi))`: the result is in
      range, and a pitch already in range is kept. */
  function ClampPhi(phi: real): (r: real)
    ensures PhiMin <= r <= PhiMax
    ensures PhiMin <= phi <= PhiMax ==> r == phi
    ensures phi < PhiMin ==> r == PhiMin
    ensures phi > PhiMax ==> r == PhiMax
  {
    var m := if PhiMax < phi then PhiMax else phi;
    if PhiMin > m then PhiMin else m
  }

  /** One particle's height after a frame: it falls by `step` and goes back
      to the top once it is below the floor. Never below the floor, and a
      height in [-10, 80) stays there. */
  function Fall(y: real, step: real): (r: real)
    ensures r >= ParticleFloor
    ensures r == y - step || (y - step < ParticleFloor && r == ParticleTop)
    ensures 0.0 <= step && ParticleFloor <= y < ParticleCeiling ==> ParticleFloor <= r < ParticleCeiling
  {
    var next := y - step;
    if next < ParticleFloor then ParticleTop else next
  }

  /** A particle frame over a `Float32Array` of `count` records of four
      numbers (x, y, z, spin): every y is replaced by its Fall, and the
      other three numbers of each record are left as they were. */
  method FallParticles(data: array<real>, count: nat, step: real)
    requires data.Length == count * 4
    modifies data
    ensures forall k :: 0 <= k < data.Length && k % 4 == 1 ==> data[k] == Fall(old(data[k]), step)
    ensures forall k :: 0 <= k < data.Length && k % 4 != 1 ==> data[k] == old(data[k])
  {
    for i := 0 to count
      invariant forall k :: 0 <= k < data.Length && k % 4 == 1 && k / 4 < i ==> data[k] == Fall(old(data[k]), step)
      invariant forall k :: 0 <= k < data.Length && (k % 4 != 1 || k / 4 >= i) ==> data[k] == old(data[k])
    {
      var y := data[i * 4 + 1] - step;
      if y < ParticleFloor {
        y := ParticleTop;
      }
      data[i * 4 + 1] := y;
    }
  }

  /** The particle part of one animation frame: the 1500 petals fall by 0.05
      and then the 2000 snowflakes by 0.08, each buffer in place. The two
      buffers are distinct arrays, so neither loop disturbs the other. */
  method ParticleFrame(petals: array<real>, snow: array<real>)
    requires petals.Length == PetalCount * 4 && snow.Length == SnowCount * 4
    requires petals != snow
    modifies petals, snow
    ensures forall k :: 0 <= k < petals.Length && k % 4 == 1 ==> petals[k] == Fall(old(petals[k]), PetalStep)
    ensures forall k :: 0 <= k < petals.Length && k % 4 != 1 ==> petals[k] == old(petals[k])
    ensures forall k :: 0 <= k < snow.Length && k % 4 == 1 ==> snow[k] == Fall(old(snow[k]), SnowStep)
    ensures forall k :: 0 <= k < snow.Length && k % 4 != 1 ==> snow[k] == old(snow[k])
  {
    FallParticles(petals, PetalCount, PetalStep);
    FallParticles(snow, SnowCount, SnowStep);
  }

  /** A picture of aspect ratio `aspect` in a 15 by 15 frame: the longer
      side is 15 and the sides keep the picture's ratio. */
  function FitPanel(aspect: real): (wh: (real, real))
    requires aspect > 0.0
    ensures wh.0 > 0.0 && wh.1 > 0.0
    ensures wh.0 == wh.1 * aspect
    ensures (if wh.0 < wh.1 then wh.1 else wh.0) == PanelSize
  {
    if aspect > 1.0 then (PanelSize, PanelSize / aspect) else (PanelSize * aspect, PanelSize)
  }

  // ---------------------------------------------------------------------------
  // The scene's mutable state

  /** What the scene keeps between frames and events: the held keys, the
      character's position, heading and limb angles, and the camera drag
      state. */
  class World {
    var keys: map<string, bool>
    var x: real
    var y: real
    var z: real
    var heading: real
    var leftLeg: real
    var rightLeg: real
    var leftArm: real
    var rightArm: real
    var theta: real
    var phi: real
    var dragging: bool
    var prevX: real
    var prevY: real

    /** The character stands on the floor and the camera pitch is within
        its clamp. */
    predicate Valid()
      reads this
    {
      Walkable(x, z) && PhiMin <= phi <= PhiMax
    }

    /** The scene as mounted: no key held, the character at the library's
        spawn point standing straight, the camera at pitch π/2.5. */
    constructor ()
      ensures Valid()
      ensures keys == map[] && x == 0.0 && y == FloorY && z == SpawnZ(Library) && heading == 0.0
      ensures leftLeg == 0.0 && rightLeg == 0.0 && leftArm == 0.0 && rightArm == 0.0
      ensures theta == 0.0 && phi == Pi / 2.5 && !dragging && prevX == 0.0 && prevY == 0.0
    {
      keys := map[];
      x, y, z := 0.0, FloorY, LibraryZ + SpawnOffset;
      heading := 0.0;
      leftLeg, rightLeg, leftArm, rightArm := 0.0, 0.0, 0.0, 0.0;
      theta, phi := 0.0, Pi / 2.5;
      dragging := false;
      prevX, prevY := 0.0, 0.0;
      SpawnsWalkable(Library);
    }

    /** `setInput` from the on-screen pad: only the given key's entry
        changes. */
    method SetInput(key: string, value: bool)
      modifies this`keys
      ensures keys == old(keys)[key := value]
    {
      keys := keys[key := value];
    }

    method HandleKeyDown(code: string)
      modifies this`keys
      ensures keys == old(keys)[code := true]
    {
      keys := keys[code := true];
    }

    method HandleKeyUp(code: string)
      modifies this`keys
      ensures keys == old(keys)[code := false]
    {
      keys := keys[code := false];
    }

    /** `teleport`: the character is put on the room's spawn point and the
        room is reported. */
    method Teleport(room: Room) returns (reported: Room)
      requires Valid()
      modifies this`x, this`y, this`z
      ensures Valid()
      ensures x == 0.0 && y == FloorY && z == SpawnZ(room)
      ensures reported == room && RoomAt(z) == Some(room)
    {
      if room == Library {
        x, y, z := 0.0, FloorY, LibraryZ + SpawnOffset;
        reported := Library;
      } else {
        x, y, z := 0.0, FloorY, RotundaZ + SpawnOffset;
        reported := Rotunda;
      }
      SpawnsWalkable(room);
    }

    /** The collision check: the step is taken only when it lands in the
        library, the rotunda or the corridor. */
    method Move(dx: real, dz: real)
      modifies this`x, this`z
      ensures (x, z) == TryMove(old(x), old(z), dx, dz)
    {
      var nextX := x + dx;
      var nextZ := z + dz;
      var inLibrary := nextX * nextX + nextZ * nextZ < RoomRadius * RoomRadius;
      var inRotunda := nextX * nextX + (nextZ - RotundaZ) * (nextZ - RotundaZ) < RoomRadius * RoomRadius;
      var inCorridor := Abs(nextX) < CorridorHalfWidth && nextZ < 0.0 && nextZ > RotundaZ;
      if inLibrary || inRotunda || inCorridor {
        x := nextX;
        z := nextZ;
      }
    }

    /** The character part of one animation frame at time `time`: read the
        keys; if moving, turn a fifth of the way towards the direction of
        travel, take the step when it lands on walkable floor, swing the
        limbs and bob; if idle, stand straight on the floor. Then report
        the room the character is in, if any. */
    method StepCharacter(time: real, sin: real -> real, atan2: (real, real) -> real) returns (report: Option<Room>)
      requires Valid()
      modifies this`x, this`y, this`z, this`heading, this`leftLeg, this`rightLeg, this`leftArm, this`rightArm
      ensures Valid()
      ensures var i := KeyIntent(keys);
              && (i.moving ==>
                    && (x, z) == TryMove(old(x), old(z), i.dx, i.dz)
                    && heading == old(heading) + (atan2(i.dx, i.dz) - old(heading)) * 0.2
                    && leftLeg == sin(time * 10.0) * 0.6 && rightLeg == -sin(time * 10.0) * 0.6
                    && leftArm == -sin(time * 10.0) * 0.6 && rightArm == sin(time * 10.0) * 0.6
                    && y == FloorY + Abs(sin(time * 20.0)) * 0.1)
              && (!i.moving ==>
                    && x == old(x) && z == old(z) && heading == old(heading)
                    && leftLeg == 0.0 && rightLeg == 0.0 && leftArm == 0.0 && rightArm == 0.0
                    && y == FloorY)
      ensures report == RoomAt(z)
    {
      var dx, dz, isMoving := ReadKeys(keys);
      if isMoving {
        var targetRot := atan2(dx, dz);
        var rotDiff := targetRot - heading;
        heading := heading + rotDiff * 0.2;
        Move(dx, dz);
        leftLeg := sin(time * 10.0) * 0.6;
        rightLeg := -sin(time * 10.0) * 0.6;
        leftArm := -sin(time * 10.0) * 0.6;
        rightArm := sin(time * 10.0) * 0.6;
        y := FloorY + Abs(sin(time * 20.0)) * 0.1;
      } else {
        leftLeg, rightLeg, leftArm, rightArm := 0.0, 0.0, 0.0, 0.0;
        y := FloorY;
      }
      if z > -100.0 {
        report := Some(Library);
      } else if z < -250.0 {
        report := Some(Rotunda);
      } else {
        report := None;
      }
    }

    method HandleMouseDown(clientX: real, clientY: real)
      modifies this`dragging, this`prevX, this`prevY
      ensures dragging && prevX == clientX && prevY == clientY
    {
      dragging := true;
      prevX, prevY := clientX, clientY;
    }

    /** A drag turns the camera by the pointer's travel; the pitch is
        clamped, so it stays in range. Without a drag nothing changes. */
    method HandleMouseMove(clientX: real, clientY: real)
      requires Valid()
      modifies this`theta, this`phi, this`prevX, this`prevY
      ensures Valid()
      ensures !dragging ==> unchanged(this)
      ensures dragging ==>
                && theta == old(theta) - (clientX - old(prevX)) * DragScale
                && phi == ClampPhi(old(phi) - (clientY - old(prevY)) * DragScale)
                && prevX == clientX && prevY == clientY
    {
      if !dragging {
        return;
      }
      var deltaX := clientX - prevX;
      var deltaY := clientY - prevY;
      theta := theta - deltaX * DragScale;
      phi := phi - deltaY * DragScale;
      phi := ClampPhi(phi);
      prevX, prevY := clientX, clientY;
    }

    /** Releasing or leaving ends the drag. */
    method HandleMouseUp()
      modifies this`dragging
      ensures !dragging
    {
      dragging := false;
    }
  }
}
