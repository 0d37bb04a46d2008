/** The Bullet world wrapper (`Physics.h`, `RigidBody.h`, `Physics.cpp`): the
    five context objects, the world's gravity, the registry of primitive rigid
    bodies and the shape dispatch that builds them. Bullet objects are values
    or handles: a handle is a natural number and 0 is the null pointer. */
module PhysicsWorld {
  import opened Wrappers
  import opened Geometry

  type Handle = nat

  /** `DEFAULT_GRAVITY`: (0, -9.8, 0). */
  const DefaultGravity: Vec3 := Vec3(0.0, -9.8, 0.0)

  /** The main axis of a capsule, cylinder or cone: Bullet's base class is
      the Y-axis one and `btCapsuleShapeX`/`Z`, `btCylinderShapeX`/`Z` and
      `btConeShapeX`/`Z` are its subclasses. */
  datatype Axis = X | Y | Z

  /** A collision shape, told apart by its concrete Bullet class (the axis
      subclasses under their base class, with `axis`); `Other` stands for a
      null shape or any class that none of the six `dynamic_cast` tests of
      `createRigidBody` accepts. */
  datatype Shape =
    | BoxShape(halfExtents: Vec3)
    | SphereShape(radius: real)
    | CapsuleShape(radius: real, height: real, axis: Axis)
    | CylinderShape(halfExtents: Vec3, axis: Axis)
    | ConeShape(radius: real, height: real, axis: Axis)
    | StaticPlaneShape(normal: Vec3, constant: real)
    | ConvexHullShape(points: seq<Vec3>)
    | Other

  /** The six classes `createRigidBody` recognises; a `dynamic_cast` also
      accepts the axis subclasses of the capsule, cylinder and cone. */
  predicate Recognised(s: Shape) {
    s.BoxShape? || s.SphereShape? || s.CapsuleShape? || s.CylinderShape? || s.ConeShape? || s.StaticPlaneShape?
  }

  /** What `btRigidBodyConstructionInfo` holds: mass, a default motion state
      at the initial rotation and position, the shape and the local inertia. */
  datatype BodyInfo = BodyInfo(mass: real, rotation: Vec4, position: Vec3, shape: Shape, inertia: Vec3)

  /** A `PrimitiveRigidBody` as a value: the `RigidBody` fields (the Bullet
      body is `None` while null) followed by the shape parameters. */
  datatype BodyState = BodyState(
    rigidBody: Option<BodyInfo>,
    collisionShape: Shape,
    mass: real,
    inertia: Vec3,
    initialPosition: Vec3,
    initialRotation: Vec4,
    collisionGroup: int,
    collisionMask: int,
    initialized: bool,
    dimension: Vec3,
    radius: real,
    height: real,
    normal: Vec3)

  /** `createRigidBodyInfo`. */
  function InfoOf(b: BodyState): (info: BodyInfo)
    ensures info.mass == b.mass && info.shape == b.collisionShape && info.inertia == b.inertia
    ensures info.rotation == b.initialRotation && info.position == b.initialPosition
  {
    BodyInfo(b.mass, b.initialRotation, b.initialPosition, b.collisionShape, b.inertia)
  }

  /** The concrete shape each recognised class is rebuilt as, from the body's
      own parameters; the capsule, cylinder and cone are always rebuilt as the
      Y-axis base class. */
  function ShapeFor(b: BodyState): Shape
    requires Recognised(b.collisionShape)
  {
    match b.collisionShape
    case BoxShape(_) => BoxShape(b.dimension)
    case SphereShape(_) => SphereShape(b.radius)
    case CapsuleShape(_, _, _) => CapsuleShape(b.radius, b.height, Y)
    case CylinderShape(_, _) => CylinderShape(b.dimension, Y)
    case ConeShape(_, _, _) => ConeShape(b.radius, b.height, Y)
    case StaticPlaneShape(_, _) => StaticPlaneShape(b.normal, b.height)
  }

  /** `createRigidBody` on a value: a recognised shape is rebuilt, its local
      inertia computed (`localInertia`, except for the static plane), a body
      built from the construction info and `initialized` set; anything else
      leaves the body as it was. */
  function Created(b: BodyState, localInertia: Vec3): BodyState {
    if !Recognised(b.collisionShape) then b
    else
      var shaped := b.(collisionShape := ShapeFor(b));
      var inert := if b.collisionShape.StaticPlaneShape? then shaped else shaped.(inertia := localInertia);
      inert.(rigidBody := Some(InfoOf(inert)), initialized := true)
  }

  /** Each recognised class becomes the same class built from its own
      parameters (an X- or Z-axis capsule, cylinder or cone becomes the
      Y-axis one), with a Bullet body made from the body's final info. */
  lemma CreatedRecognised(b: BodyState, localInertia: Vec3)
    requires Recognised(b.collisionShape)
    ensures var r := Created(b, localInertia);
            && r.initialized
            && r.rigidBody == Some(InfoOf(r))
            && (b.collisionShape.BoxShape? ==> r.collisionShape == BoxShape(b.dimension))
            && (b.collisionShape.SphereShape? ==> r.collisionShape == SphereShape(b.radius))
            && (b.collisionShape.CapsuleShape? ==> r.collisionShape == CapsuleShape(b.radius, b.height, Y))
            && (b.collisionShape.CylinderShape? ==> r.collisionShape == CylinderShape(b.dimension, Y))
            && (b.collisionShape.ConeShape? ==> r.collisionShape == ConeShape(b.radius, b.height, Y))
            && (b.collisionShape.StaticPlaneShape? ==> r.collisionShape == StaticPlaneShape(b.normal, b.height))
            && r.mass == b.mass && r.initialPosition == b.initialPosition && r.initialRotation == b.initialRotation
  {
  }

  /** The local inertia is computed for every recognised class but the
      static plane, which keeps the inertia it had. */
  lemma CreatedInertia(b: BodyState, localInertia: Vec3)
    ensures Recognised(b.collisionShape) && !b.collisionShape.StaticPlaneShape? ==>
              Created(b, localInertia).inertia == localInertia
    ensures !Recognised(b.collisionShape) || b.collisionShape.StaticPlaneShape? ==>
              Created(b, localInertia).inertia == b.inertia
  {
  }

  /** An unrecognised shape leaves the whole record untouched, `initialized`
      included, and dispatching again changes nothing more. */
  lemma CreatedUnrecognised(b: BodyState, localInertia: Vec3)
    requires !Recognised(b.collisionShape)
    ensures Created(b, localInertia) == b
  {
  }

  /** The axis of a capsule, cylinder or cone is lost: two bodies that
      differ only in that axis come out of the dispatch identical. */
  lemma CreatedForgetsAxis(b: BodyState, a: Axis, localInertia: Vec3)
    requires b.collisionShape.CapsuleShape? || b.collisionShape.CylinderShape? || b.collisionShape.ConeShape?
    ensures Created(b.(collisionShape := b.collisionShape.(axis := a)), localInertia) == Created(b, localInertia)
  {
  }

  /** A `PrimitiveRigidBody` passed by reference. */
  class PrimitiveRigidBody {
    var rigidBody: Option<BodyInfo>
    var collisionShape: Shape
    var mass: real
    var inertia: Vec3
    var initialPosition: Vec3
    var initialRotation: Vec4
    var collisionGroup: int
    var collisionMask: int
    var initialized: bool
    var dimension: Vec3
    var radius: real
    var height: real
    var normal: Vec3

    function State(): BodyState
      reads this
    {
      BodyState(rigidBody, collisionShape, mass, inertia, initialPosition, initialRotation,
                collisionGroup, collisionMask, initialized, dimension, radius, height, normal)
    }

    /** The struct declares no initialisers: its fields hold whatever the
        caller put there, given here as `s`. */
    constructor(s: BodyState)
      ensures State() == s
    {
      rigidBody, collisionShape, mass, inertia := s.rigidBody, s.collisionShape, s.mass, s.inertia;
      initialPosition, initialRotation, collisionGroup, collisionMask := s.initialPosition, s.initialRotation, s.collisionGroup, s.collisionMask;
      initialized, dimension, radius, height, normal := s.initialized, s.dimension, s.radius, s.height, s.normal;
    }
  }

  /** A `ConvexHullRigidBody`: only its shape is touched here. */
  class ConvexHullRigidBody {
    var collisionShape: Shape

    /** As for `PrimitiveRigidBody`, the shape is whatever the caller set. */
    constructor(shape: Shape)
      ensures collisionShape == shape
    {
      collisionShape := shape;
    }
  }

  class Physics {
    var primitiveRigidBodies: seq<BodyState>
    var collisionConfig: Handle
    var dispatcher: Handle
    var broadphase: Handle
    var solver: Handle
    var dynamicsWorld: Handle
    /** The gravity the world applies. */
    var gravity: Vec3
    /** The handles `free` released, in order. */
    var released: seq<Handle>

    /** The private constructor behind `getInstance`: every pointer null. */
    constructor()
      ensures primitiveRigidBodies == [] && released == []
      ensures collisionConfig == 0 && dispatcher == 0 && broadphase == 0 && solver == 0 && dynamicsWorld == 0
    {
      primitiveRigidBodies, released := [], [];
      collisionConfig, dispatcher, broadphase, solver, dynamicsWorld := 0, 0, 0, 0, 0;
      gravity := DefaultGravity;
    }

    /** `init`: the body list is reset, the five context objects are created
        (`created` holds what each `new` returned, in the order
        configuration, dispatcher, broadphase, solver, world, and
        `worldGravity` is the gravity Bullet gives a new world). Gravity is
        set only when the argument is the default one. The result is false
        when any of the five is null. */
    method Init(requested: Vec3, created: (Handle, Handle, Handle, Handle, Handle), worldGravity: Vec3) returns (ok: bool)
      modifies this
      ensures primitiveRigidBodies == []
      ensures (collisionConfig, dispatcher, broadphase, solver, dynamicsWorld) == created
      ensures gravity == InitialGravity(requested, worldGravity)
      ensures ok == (collisionConfig != 0 && dispatcher != 0 && broadphase != 0 && solver != 0 && dynamicsWorld != 0)
      ensures released == old(released)
    {
      primitiveRigidBodies := [];
      collisionConfig := created.0;
      dispatcher := created.1;
      broadphase := created.2;
      solver := created.3;
      dynamicsWorld := created.4;
      gravity := worldGravity;
      if requested == DefaultGravity {
        gravity := DefaultGravity;
      }
      if collisionConfig == 0 || dispatcher == 0 || broadphase == 0 || solver == 0 || dynamicsWorld == 0 {
        return false;
      }
      return true;
    }

    /** Gravity calls need a live world: not null, and not released by `free`. */
    method SetGravity(g: Vec3)
      requires dynamicsWorld != 0 && dynamicsWorld !in released
      modifies this`gravity
      ensures gravity == g
    {
      gravity := g;
    }

    method GetGravity() returns (g: Vec3)
      requires dynamicsWorld != 0 && dynamicsWorld !in released
      ensures g == gravity
    {
      g := gravity;
    }

    /** `addPrimitiveRigidBody`: the shape dispatch, then one copy of the
        body appended exactly when it ended up initialized. `localInertia` is
        what `calcLocalInertia` computes for the new shape. */
    method AddPrimitiveRigidBody(body: PrimitiveRigidBody, localInertia: Vec3)
      modifies this`primitiveRigidBodies, body
      ensures body.State() == Created(old(body.State()), localInertia)
      ensures primitiveRigidBodies == old(primitiveRigidBodies) + (if body.initialized then [body.State()] else [])
    {
      CreateRigidBody(body, localInertia);
      if body.initialized {
        primitiveRigidBodies := primitiveRigidBodies + [body.State()];
      }
    }

    /** `createRigidBody`: the `dynamic_cast` chain over the six shape
        classes. */
    method CreateRigidBody(body: PrimitiveRigidBody, localInertia: Vec3)
      modifies body
      ensures body.State() == Created(old(body.State()), localInertia)
    {
      var s := body.collisionShape;
      if s.BoxShape? {
        body.collisionShape := BoxShape(body.dimension);
        body.inertia := localInertia;
        body.rigidBody := Some(InfoOf(body.State()));
        body.initialized := true;
      } else if s.SphereShape? {
        body.collisionShape := SphereShape(body.radius);
        body.inertia := localInertia;
        body.rigidBody := Some(InfoOf(body.State()));
        body.initialized := true;
      } else if s.CapsuleShape? {
        body.collisionShape := CapsuleShape(body.radius, body.height, Y);
        body.inertia := localInertia;
        body.rigidBody := Some(InfoOf(body.State()));
        body.initialized := true;
      } else if s.CylinderShape? {
        body.collisionShape := CylinderShape(body.dimension, Y);
        body.inertia := localInertia;
        body.rigidBody := Some(InfoOf(body.State()));
        body.initialized := true;
      } else if s.ConeShape? {
        body.collisionShape := ConeShape(body.radius, body.height, Y);
        body.inertia := localInertia;
        body.rigidBody := Some(InfoOf(body.State()));
        body.initialized := true;
      } else if s.StaticPlaneShape? {
        body.collisionShape := StaticPlaneShape(body.normal, body.height);
        body.rigidBody := Some(InfoOf(body.State()));
        body.initialized := true;
      }
    }

    /** `addConvexHullRigidBody`: a new hull shape receives the points in
        order; the registry is not touched. */
    method AddConvexHullRigidBody(body: ConvexHullRigidBody, vertices: seq<Vec3>)
      modifies body
      ensures body.collisionShape == ConvexHullShape(vertices)
    {
      body.collisionShape := ConvexHullShape([]);
      for i := 0 to |vertices|
        invariant body.collisionShape == ConvexHullShape(vertices[..i])
      {
        body.collisionShape := ConvexHullShape(body.collisionShape.points + [vertices[i]]);
        assert vertices[..i + 1] == vertices[..i] + [vertices[i]];
      }
      assert vertices[..|vertices|] == vertices;
    }

    /** `free`: world, solver, broadphase, dispatcher, then configuration.
        The pointers are not reset, so they dangle afterwards and a second
        `free` releases the same handles again. */
    method Free()
      modifies this`released
      ensures released == old(released) + [old(dynamicsWorld), old(solver), old(broadphase), old(dispatcher), old(collisionConfig)]
      ensures (collisionConfig, dispatcher, broadphase, solver, dynamicsWorld) == old((collisionConfig, dispatcher, broadphase, solver, dynamicsWorld))
    {
      released := released + [dynamicsWorld];
      released := released + [solver];
      released := released + [broadphase];
      released := released + [dispatcher];
      released := released + [collisionConfig];
    }
  }

  /** The world's gravity after `init`: the default when the default is
      asked for, otherwise whatever Bullet gave the new world; the requested
      value itself is never applied. */
  function InitialGravity(requested: Vec3, worldGravity: Vec3): (g: Vec3)
    ensures requested == DefaultGravity ==> g == DefaultGravity
    ensures requested != DefaultGravity ==> g == worldGravity
  {
    if requested == DefaultGravity then DefaultGravity else worldGravity
  }

  /** A non-default request only takes effect if it happens to equal the
      world's own gravity. */
  lemma RequestedGravityIgnored(requested: Vec3, worldGravity: Vec3)
    ensures InitialGravity(requested, worldGravity) == requested <==> requested == DefaultGravity || requested == worldGravity
  {
  }
}
