/** The fly camera (`Camera.h`, `Camera.cpp`) and the input flags it shares
    with the rest of the engine (`ProgramValues::KeyEvents`). SDL events are a
    datatype; the trigonometric orientation update and the normalised side
    vector are functions passed in, since their arithmetic is not modelled. */
module Cameras {
  import opened Wrappers
  import opened Geometry

  const FovMax: real := 100.0
  const FovMin: real := 1.0
  const SprintMultiplier: real := 3.0
  const FovSpeedMultiplier: real := 5.0
  const PitchLimit: real := 89.0

  /** The keys the camera reacts to; `OtherKey` is every other key. */
  datatype Key = Escape | W | A | S | D | Space | LCtrl | R | LShift | OtherKey

  /** The SDL events the camera reads. */
  datatype Event =
    | KeyDown(key: Key)
    | KeyUp(key: Key)
    | MouseMotion(xrel: int, yrel: int)
    | MouseButtonDown
    | MouseWheel(y: int)
    | OtherEvent

  /** The keys that hold a flag while pressed, one flag each:
      W `moveForwardPressed`, A `moveLeftPressed`, S `moveBackwardPressed`,
      D `moveRightPressed`, Space `moveUpPressed`, LCtrl `moveDownPressed`,
      R `sprinting`, LShift `fastZoom`. */
  predicate IsHeldKey(k: Key) {
    k != Escape && k != OtherKey
  }

  /** The values of the `KeyEvents` flags: the two lock-in flags, and the
      eight held-key flags as the set of keys whose flag is set. */
  datatype Flags = Flags(isLockedIn: bool, isLockedInPressed: bool, held: set<Key>) {
    predicate MoveForward() { W in held }
    predicate MoveLeft() { A in held }
    predicate MoveBackward() { S in held }
    predicate MoveRight() { D in held }
    predicate MoveUp() { Space in held }
    predicate MoveDown() { LCtrl in held }
    predicate Sprinting() { R in held }
    predicate FastZoom() { LShift in held }
  }

  /** Locked in, every other flag clear. */
  const InitialFlags: Flags := Flags(true, false, {})

  /** The flags after `processKeyboard` has seen one event. */
  function AfterKeyboard(f: Flags, e: Event): Flags {
    match e
    case KeyDown(k) =>
      if k == Escape then
        if !f.isLockedInPressed then f.(isLockedInPressed := true, isLockedIn := !f.isLockedIn) else f
      else if k == OtherKey then f
      else f.(held := f.held + {k})
    case KeyUp(k) =>
      if k == Escape then f.(isLockedInPressed := false)
      else if k == OtherKey then f
      else f.(held := f.held - {k})
    case _ => f
  }

  /** The flags after a whole stream of events. */
  function Replay(f: Flags, events: seq<Event>): Flags {
    if events == [] then f else AfterKeyboard(Replay(f, events[..|events| - 1]), events[|events| - 1])
  }

  /** Key-down on a held key sets exactly its flag, key-up clears exactly
      its flag; the lock-in flags are untouched. */
  lemma HeldKeyTouchesOnlyItsFlag(f: Flags, k: Key, down: bool)
    requires IsHeldKey(k)
    ensures var r := AfterKeyboard(f, if down then KeyDown(k) else KeyUp(k));
            && (k in r.held <==> down)
            && (forall other :: other != k ==> (other in r.held <==> other in f.held))
            && r.isLockedIn == f.isLockedIn && r.isLockedInPressed == f.isLockedInPressed
  {
  }

  /** Keys the camera does not know and non-key events change no flag. */
  lemma OtherEventsKeepFlags(f: Flags, e: Event)
    requires e.KeyDown? || e.KeyUp? ==> e.key == OtherKey
    ensures AfterKeyboard(f, e) == f
  {
  }

  /** ESC key-down toggles the lock and marks ESC down only when it is not
      down already; otherwise it changes nothing. ESC key-up re-arms it and
      changes nothing else. */
  lemma EscapeDebounce(f: Flags)
    ensures !f.isLockedInPressed ==> AfterKeyboard(f, KeyDown(Escape)) == f.(isLockedInPressed := true, isLockedIn := !f.isLockedIn)
    ensures f.isLockedInPressed ==> AfterKeyboard(f, KeyDown(Escape)) == f
    ensures AfterKeyboard(f, KeyUp(Escape)) == f.(isLockedInPressed := false)
  {
  }

  function EscapeDowns(n: nat): (events: seq<Event>)
    ensures |events| == n && forall i :: 0 <= i < n ==> events[i] == KeyDown(Escape)
  {
    seq(n, _ => KeyDown(Escape))
  }

  /** Holding ESC down (any number of repeated key-down events without a
      key-up) toggles the lock exactly once. */
  lemma {:induction false} HeldEscapeTogglesOnce(f: Flags, n: nat)
    requires !f.isLockedInPressed && n >= 1
    ensures Replay(f, EscapeDowns(n)) == f.(isLockedInPressed := true, isLockedIn := !f.isLockedIn)
  {
    var events := EscapeDowns(n);
    if n == 1 {
      assert events[..0] == [];
    } else {
      assert events[..n - 1] == EscapeDowns(n - 1);
      HeldEscapeTogglesOnce(f, n - 1);
    }
  }

  /** Pressing and releasing ESC twice brings the lock back to where it was. */
  lemma EscapeTwiceRestoresLock(f: Flags)
    requires !f.isLockedInPressed
    ensures Replay(f, [KeyDown(Escape), KeyUp(Escape), KeyDown(Escape), KeyUp(Escape)]) == f
  {
    var events := [KeyDown(Escape), KeyUp(Escape), KeyDown(Escape), KeyUp(Escape)];
    assert events[..3] == [KeyDown(Escape), KeyUp(Escape), KeyDown(Escape)];
    assert events[..3][..2] == [KeyDown(Escape), KeyUp(Escape)];
    assert events[..3][..2][..1] == [KeyDown(Escape)];
    assert events[..3][..2][..1][..0] == [];
    assert Replay(f, events[..3][..2][..1]) == f.(isLockedInPressed := true, isLockedIn := !f.isLockedIn);
    assert Replay(f, events[..3][..2]) == f.(isLockedIn := !f.isLockedIn);
    assert Replay(f, events[..3]) == f.(isLockedInPressed := true);
  }

  /** `pitch` after the two clamping tests of mouse motion. */
  function ClampPitch(pitch: real): (r: real)
    ensures -PitchLimit <= r <= PitchLimit
    ensures -PitchLimit <= pitch <= PitchLimit ==> r == pitch
    ensures pitch > PitchLimit ==> r == PitchLimit
    ensures pitch < -PitchLimit ==> r == -PitchLimit
  {
    var p := if pitch > PitchLimit then PitchLimit else pitch;
    if p < -PitchLimit then -PitchLimit else p
  }

  /** `fov` after the two clamping tests of the mouse wheel. */
  function ClampFov(fov: real): (r: real)
    ensures FovMin <= r <= FovMax
    ensures FovMin <= fov <= FovMax ==> r == fov
    ensures fov < FovMin ==> r == FovMin
    ensures fov > FovMax ==> r == FovMax
  {
    var f := if fov < FovMin then FovMin else fov;
    if f > FovMax then FovMax else f
  }

  /** The view angles the mouse changes. */
  datatype Angles = Angles(yaw: real, pitch: real, fov: real)

  /** The angles after `processMouseMotion` has seen one event. */
  function AfterMouse(a: Angles, f: Flags, sensitivity: real, e: Event): Angles {
    if e.MouseMotion? && f.isLockedIn then
      a.(yaw := a.yaw + e.xrel as real * sensitivity, pitch := ClampPitch(a.pitch - e.yrel as real * sensitivity))
    else if e.MouseWheel? && f.isLockedIn then
      var step := if f.FastZoom() then e.y as real * sensitivity * FovSpeedMultiplier else e.y as real * sensitivity;
      a.(fov := ClampFov(a.fov - step))
    else a
  }

  /** While locked in, motion moves yaw and pitch by the scaled offsets
      (pitch then clamped to ±89) and leaves fov; the wheel only changes fov,
      by the scaled offset (five times that with fast zoom), clamped to
      [1, 100]. Unlocked, nothing moves. */
  lemma MouseEffects(a: Angles, f: Flags, sensitivity: real, e: Event)
    ensures var r := AfterMouse(a, f, sensitivity, e);
            && (!f.isLockedIn ==> r == a)
            && (f.isLockedIn && e.MouseMotion? ==>
                  r.yaw == a.yaw + e.xrel as real * sensitivity && r.fov == a.fov
                  && -PitchLimit <= r.pitch <= PitchLimit
                  && (-PitchLimit <= a.pitch - e.yrel as real * sensitivity <= PitchLimit ==> r.pitch == a.pitch - e.yrel as real * sensitivity))
            && (f.isLockedIn && e.MouseWheel? ==>
                  r.yaw == a.yaw && r.pitch == a.pitch && FovMin <= r.fov <= FovMax
                  && var step := e.y as real * sensitivity * (if f.FastZoom() then FovSpeedMultiplier else 1.0);
                     (FovMin <= a.fov - step <= FovMax ==> r.fov == a.fov - step))
            && (!e.MouseMotion? && !e.MouseWheel? ==> r == a)
  {
  }

  /** The speed along front and side: tripled while sprinting. */
  function PlanarSpeed(f: Flags, speed: real): real {
    if f.Sprinting() then speed * SprintMultiplier else speed
  }

  /** The position after `update`'s six movement tests, in source order:
      forward, left, backward, right along the planar speed, then up and
      down along the base speed. `side` is the normalised `front × up`. */
  function Moved(p: Vec3, front: Vec3, up: Vec3, side: Vec3, f: Flags, speed: real): Vec3 {
    var p4 := Planar(p, front, side, f, speed);
    var p5 := if f.MoveUp() then p4.Plus(up.Scale(speed)) else p4;
    if f.MoveDown() then p5.Minus(up.Scale(speed)) else p5
  }

  /** The first four tests of `update`: forward, left, backward and right,
      at the planar speed. */
  function Planar(p: Vec3, front: Vec3, side: Vec3, f: Flags, speed: real): Vec3 {
    var s := PlanarSpeed(f, speed);
    var p1 := if f.MoveForward() then p.Plus(front.Scale(s)) else p;
    var p2 := if f.MoveLeft() then p1.Minus(side.Scale(s)) else p1;
    var p3 := if f.MoveBackward() then p2.Minus(front.Scale(s)) else p2;
    if f.MoveRight() then p3.Plus(side.Scale(s)) else p3
  }

  /** Pressing forward and backward together moves nowhere along `front`:
      the move is the one with both released. */
  lemma ForwardBackwardCancel(p: Vec3, front: Vec3, up: Vec3, side: Vec3, f: Flags, speed: real)
    requires f.MoveForward() && f.MoveBackward()
    ensures Moved(p, front, up, side, f, speed) == Moved(p, front, up, side, f.(held := f.held - {W, S}), speed)
  {
    var g := f.(held := f.held - {W, S});
    assert PlanarSpeed(g, speed) == PlanarSpeed(f, speed);
    assert g.MoveLeft() == f.MoveLeft() && g.MoveRight() == f.MoveRight() && !g.MoveForward() && !g.MoveBackward();
    assert g.MoveUp() == f.MoveUp() && g.MoveDown() == f.MoveDown();
    var s := PlanarSpeed(f, speed);
    var q := p.Plus(front.Scale(s));
    var q' := if f.MoveLeft() then q.Minus(side.Scale(s)) else q;
    var r := if f.MoveLeft() then p.Minus(side.Scale(s)) else p;
    assert q'.Minus(front.Scale(s)) == r;
    assert Planar(p, front, side, f, speed) == Planar(p, front, side, g, speed);
  }

  /** Pressing left and right together moves nowhere along the side vector. */
  lemma LeftRightCancel(p: Vec3, front: Vec3, up: Vec3, side: Vec3, f: Flags, speed: real)
    requires f.MoveLeft() && f.MoveRight()
    ensures Moved(p, front, up, side, f, speed) == Moved(p, front, up, side, f.(held := f.held - {A, D}), speed)
  {
    var g := f.(held := f.held - {A, D});
    assert PlanarSpeed(g, speed) == PlanarSpeed(f, speed);
    assert g.MoveForward() == f.MoveForward() && g.MoveBackward() == f.MoveBackward() && !g.MoveLeft() && !g.MoveRight();
    assert g.MoveUp() == f.MoveUp() && g.MoveDown() == f.MoveDown();
    var s := PlanarSpeed(f, speed);
    var q := if f.MoveForward() then p.Plus(front.Scale(s)) else p;
    var q' := if f.MoveBackward() then q.Minus(side.Scale(s)).Minus(front.Scale(s)) else q.Minus(side.Scale(s));
    var r := if f.MoveBackward() then q.Minus(front.Scale(s)) else q;
    assert q'.Plus(side.Scale(s)) == r;
    assert Planar(p, front, side, f, speed) == Planar(p, front, side, g, speed);
  }

  /** Pressing up and down together moves nowhere along `up`. */
  lemma UpDownCancel(p: Vec3, front: Vec3, up: Vec3, side: Vec3, f: Flags, speed: real)
    requires f.MoveUp() && f.MoveDown()
    ensures Moved(p, front, up, side, f, speed) == Moved(p, front, up, side, f.(held := f.held - {Space, LCtrl}), speed)
  {
    var g := f.(held := f.held - {Space, LCtrl});
    assert g.MoveForward() == f.MoveForward() && g.MoveBackward() == f.MoveBackward();
    assert g.MoveLeft() == f.MoveLeft() && g.MoveRight() == f.MoveRight() && g.Sprinting() == f.Sprinting();
    assert Planar(p, front, side, f, speed) == Planar(p, front, side, g, speed);
  }

  /** Sprinting does not change vertical movement: with only the up and
      down keys held, the move is the same sprinting or not. */
  lemma SprintIgnoredVertically(p: Vec3, front: Vec3, up: Vec3, side: Vec3, f: Flags, speed: real)
    requires !f.MoveForward() && !f.MoveBackward() && !f.MoveLeft() && !f.MoveRight()
    ensures Moved(p, front, up, side, f.(held := f.held + {R}), speed) == Moved(p, front, up, side, f.(held := f.held - {R}), speed)
  {
  }

  /** Sprinting moves along front and side as walking at three times the
      speed would, as long as the vertical keys are up. */
  lemma SprintTriplesHorizontally(p: Vec3, front: Vec3, up: Vec3, side: Vec3, f: Flags, speed: real)
    requires !f.MoveUp() && !f.MoveDown()
    ensures Moved(p, front, up, side, f.(held := f.held + {R}), speed)
            == Moved(p, front, up, side, f.(held := f.held - {R}), speed * SprintMultiplier)
  {
  }

  /** The `ProgramValues::KeyEvents` globals, shared by the camera and the
      rest of the engine; `held` holds the eight held-key flags. */
  class KeyEvents {
    var isLockedIn: bool
    var isLockedInPressed: bool
    var held: set<Key>

    function Snapshot(): Flags
      reads this
    {
      Flags(isLockedIn, isLockedInPressed, held)
    }

    constructor()
      ensures Snapshot() == InitialFlags
    {
      isLockedIn, isLockedInPressed, held := true, false, {};
    }
  }

  /** What `updateCameraVectors` computes from yaw, pitch and the world's up
      direction: the new front, right and up vectors. */
  type Orientation = (real, real, Vec3) -> (Vec3, Vec3, Vec3)

  class Camera {
    var position: Vec3
    var front: Vec3
    var up: Vec3
    var right: Vec3
    var worldUp: Vec3
    var yaw: real
    var pitch: real
    var speed: real
    var sensitivity: real
    var fov: real

    function View(): Angles
      reads this
    {
      Angles(yaw, pitch, fov)
    }

    /** `Camera(...)`: speed 0.05, sensitivity 0.1, fov 45, then the
        orientation vectors from the starting yaw and pitch. */
    constructor(startPosition: Vec3, startUp: Vec3, startYaw: real, startPitch: real, orient: Orientation)
      ensures position == startPosition && worldUp == startUp && yaw == startYaw && pitch == startPitch
      ensures speed == 0.05 && sensitivity == 0.1 && fov == 45.0
      ensures (front, right, up) == orient(startYaw, startPitch, startUp)
    {
      position, worldUp, yaw, pitch := startPosition, startUp, startYaw, startPitch;
      speed, sensitivity, fov := 0.05, 0.1, 45.0;
      var o := orient(startYaw, startPitch, startUp);
      front, right, up := o.0, o.1, o.2;
    }

    /** `processKeyboard`: updates the flags; when ESC unlocks the camera the
        mouse is warped to the centre of the window (`warp`). */
    method ProcessKeyboard(e: Event, keys: KeyEvents, windowWidth: nat, windowHeight: nat) returns (warp: Option<(nat, nat)>)
      modifies keys
      ensures keys.Snapshot() == AfterKeyboard(old(keys.Snapshot()), e)
      ensures warp == if e == KeyDown(Escape) && !old(keys.isLockedInPressed) && old(keys.isLockedIn)
                      then Some((windowWidth / 2, windowHeight / 2)) else None
    {
      warp := None;
      match e
      case KeyDown(k) => {
        if k == Escape {
          if !keys.isLockedInPressed {
            keys.isLockedInPressed := true;
            keys.isLockedIn := !keys.isLockedIn;
            if !keys.isLockedIn {
              warp := Some((windowWidth / 2, windowHeight / 2));
            }
          }
        } else if k != OtherKey {
          keys.held := keys.held + {k};
        }
      }
      case KeyUp(k) => {
        if k == Escape {
          if keys.isLockedInPressed {
            keys.isLockedInPressed := false;
          }
        } else if k != OtherKey {
          keys.held := keys.held - {k};
        }
      }
      case _ =>
    }

    /** `processMouseMotion`: yaw, pitch and fov follow `AfterMouse`; nothing
        else changes. */
    method ProcessMouseMotion(e: Event, keys: KeyEvents)
      modifies this
      ensures View() == AfterMouse(old(View()), keys.Snapshot(), sensitivity, e)
      ensures position == old(position) && front == old(front) && up == old(up) && right == old(right)
      ensures worldUp == old(worldUp) && speed == old(speed) && sensitivity == old(sensitivity)
    {
      if e.MouseMotion? && keys.isLockedIn {
        var xoffset := e.xrel as real;
        var yoffset := e.yrel as real;
        xoffset := xoffset * sensitivity;
        yoffset := yoffset * sensitivity;
        yaw := yaw + xoffset;
        var p := pitch - yoffset;
        if p > PitchLimit {
          p := PitchLimit;
        }
        if p < -PitchLimit {
          p := -PitchLimit;
        }
        pitch := p;
      } else if e.MouseButtonDown? {
      } else if e.MouseWheel? && keys.isLockedIn {
        var localSensitivity := if LShift in keys.held then e.y as real * sensitivity * FovSpeedMultiplier else e.y as real * sensitivity;
        var f := fov - localSensitivity;
        if f < FovMin {
          f := FovMin;
        }
        if f > FovMax {
          f := FovMax;
        }
        fov := f;
      }
    }

    /** `update`: returns the relative-mouse mode it sets; while locked in,
        moves the position as `Moved` says (`side` is the normalised
        `front × up`) and recomputes the orientation vectors. Unlocked,
        nothing changes. */
    method Update(keys: KeyEvents, side: (Vec3, Vec3) -> Vec3, orient: Orientation) returns (relativeMouse: bool)
      modifies this
      ensures relativeMouse == keys.isLockedIn
      ensures !keys.isLockedIn ==> unchanged(this)
      ensures keys.isLockedIn ==>
                && position == Moved(old(position), old(front), old(up), side(old(front), old(up)), keys.Snapshot(), speed)
                && (front, right, up) == orient(yaw, pitch, worldUp)
      ensures View() == old(View()) && worldUp == old(worldUp) && speed == old(speed) && sensitivity == old(sensitivity)
    {
      relativeMouse := keys.isLockedIn;
      if keys.isLockedIn {
        var modifiedSpeed := if R in keys.held then speed * SprintMultiplier else speed;
        var sideDirection := side(front, up);
        ghost var flags := keys.Snapshot();
        var p := position;
        if W in keys.held {
          p := p.Plus(front.Scale(modifiedSpeed));
        }
        if A in keys.held {
          p := p.Minus(sideDirection.Scale(modifiedSpeed));
        }
        if S in keys.held {
          p := p.Minus(front.Scale(modifiedSpeed));
        }
        if D in keys.held {
          p := p.Plus(sideDirection.Scale(modifiedSpeed));
        }
        assert p == Planar(position, front, sideDirection, flags, speed);
        if Space in keys.held {
          p := p.Plus(up.Scale(speed));
        }
        if LCtrl in keys.held {
          p := p.Minus(up.Scale(speed));
        }
        position := p;
        UpdateCameraVectors(orient);
      }
    }

    /** `updateCameraVectors`, with the trigonometry abstracted. */
    method UpdateCameraVectors(orient: Orientation)
      modifies this
      ensures (front, right, up) == orient(yaw, pitch, worldUp)
      ensures position == old(position) && View() == old(View())
      ensures worldUp == old(worldUp) && speed == old(speed) && sensitivity == old(sensitivity)
    {
      var o := orient(yaw, pitch, worldUp);
      front, right, up := o.0, o.1, o.2;
    }
  }
}
