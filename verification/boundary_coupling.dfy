/** Two-way coupling between rigid bodies and their boundary particles:
    the kinematic sync that moves each boundary sampling with its body, and
    the force reduction that hands the fluid's forces on the samples to the
    body as one net force and one torque. */
module BoundaryCoupling {
  import opened Geometry
  import opened Particles

  /** World position of a boundary particle with rest position x0 on a body
      with rotation r at position p. */
  function BoundaryPosition(r: Mat3, p: Vec3, x0: Vec3): Vec3 {
    Add(MatVec(r, x0), p)
  }

  /** Velocity of the material point at x of a body at p moving with linear
      velocity vb and angular velocity omega. */
  function BoundaryVelocity(omega: Vec3, vb: Vec3, p: Vec3, x: Vec3): Vec3 {
    Add(Cross(omega, Sub(x, p)), vb)
  }

  /** Sum of the forces, accumulated front to back. */
  function NetForce(f: seq<Vec3>): Vec3 {
    if f == [] then Zero else Add(NetForce(f[..|f| - 1]), f[|f| - 1])
  }

  /** Sum of the torques (x[j] - p) x f[j] about the point p. */
  function NetTorque(x: seq<Vec3>, p: Vec3, f: seq<Vec3>): Vec3
    requires |x| == |f|
  {
    if f == [] then Zero
    else Add(NetTorque(x[..|x| - 1], p, f[..|f| - 1]), Cross(Sub(x[|x| - 1], p), f[|f| - 1]))
  }

  function ZeroForces(n: nat): (z: seq<Vec3>)
    ensures |z| == n && forall j :: 0 <= j < n ==> z[j] == Zero
  {
    seq(n, _ => Zero)
  }

  /** The torque about p is the torque about the origin less the moment of
      the net force applied at p. */
  lemma {:induction false} TorqueAboutPoint(x: seq<Vec3>, p: Vec3, f: seq<Vec3>)
    requires |x| == |f|
    ensures NetTorque(x, p, f) == Sub(NetTorque(x, Zero, f), Cross(p, NetForce(f)))
  {
    if f != [] {
      var xs, fs, xl, fl := x[..|x| - 1], f[..|f| - 1], x[|x| - 1], f[|f| - 1];
      TorqueAboutPoint(xs, p, fs);
      var b, c1 := NetTorque(xs, Zero, fs), Cross(p, NetForce(fs));
      var c2, c3 := Cross(xl, fl), Cross(p, fl);
      assert NetTorque(x, p, f) == Add(Sub(b, c1), Sub(c2, c3)) by {
        CrossSubLeft(xl, p, fl);
      }
      assert NetTorque(x, Zero, f) == Add(b, c2) by {
        assert Sub(xl, Zero) == xl;
      }
      assert Cross(p, NetForce(f)) == Add(c1, c3) by {
        CrossAddRight(p, NetForce(fs), fl);
      }
      Rearrange(b, c1, c2, c3);
    }
  }

  lemma Rearrange(b: Vec3, c1: Vec3, c2: Vec3, c3: Vec3)
    ensures Add(Sub(b, c1), Sub(c2, c3)) == Sub(Add(b, c2), Add(c1, c3))
  {
  }

  /** Drained accumulators contribute neither force nor torque. */
  lemma {:induction false} DrainedContributesNothing(x: seq<Vec3>, p: Vec3, n: nat)
    requires |x| == n
    ensures NetForce(ZeroForces(n)) == Zero && NetTorque(x, p, ZeroForces(n)) == Zero
  {
    if n > 0 {
      assert ZeroForces(n)[..n - 1] == ZeroForces(n - 1);
      DrainedContributesNothing(x[..n - 1], p, n - 1);
    }
  }

  /** Right after the force reduction of a dynamic body, reducing again would
      hand its body nothing more. */
  lemma ReductionDrains(rbpo: RigidBodyParticleObject, f0: seq<Vec3>, force0: Vec3, torque0: Vec3)
    requires Reduced(rbpo, true, f0, force0, torque0)
    ensures Add(rbpo.rigidBody.force, NetForce(rbpo.f)) == rbpo.rigidBody.force
    ensures Add(rbpo.rigidBody.torque, NetTorque(rbpo.particles.x, rbpo.rigidBody.position, rbpo.f)) == rbpo.rigidBody.torque
  {
    DrainedContributesNothing(rbpo.particles.x, rbpo.rigidBody.position, |f0|);
  }

  /** The particles of rbpo sit where the pose of its body puts them and move
      with the body's rigid velocity field. */
  ghost predicate Synced(rbpo: RigidBodyParticleObject)
    reads rbpo.particles, rbpo.rigidBody
  {
    var po, body := rbpo.particles, rbpo.rigidBody;
    && |po.x| == |po.x0| && |po.v| == |po.x0|
    && forall j :: 0 <= j < |po.x| ==>
         && po.x[j] == BoundaryPosition(body.rotation, body.position, po.x0[j])
         && po.v[j] == BoundaryVelocity(body.angularVelocity, body.velocity, body.position, po.x[j])
  }

  /** The inner loop of the kinematic sync for one boundary object. */
  method SyncParticles(rbpo: RigidBodyParticleObject)
    requires rbpo.Valid()
    modifies rbpo.particles
    ensures rbpo.Valid() && Synced(rbpo)
    ensures rbpo.particles.x0 == old(rbpo.particles.x0)
  {
    var po, body := rbpo.particles, rbpo.rigidBody;
    var n := po.NumberOfParticles();
    var j := 0;
    while j < n
      invariant 0 <= j <= n
      invariant po.x0 == old(po.x0) && |po.x| == n && |po.v| == n && |po.x0| == n
      invariant forall k :: 0 <= k < j ==>
                  && po.x[k] == BoundaryPosition(body.rotation, body.position, po.x0[k])
                  && po.v[k] == BoundaryVelocity(body.angularVelocity, body.velocity, body.position, po.x[k])
    {
      po.x := po.x[j := BoundaryPosition(body.rotation, body.position, po.x0[j])];
      po.v := po.v[j := BoundaryVelocity(body.angularVelocity, body.velocity, body.position, po.x[j])];
      j := j + 1;
    }
  }

  /** The synced velocities form a rigid field: two particles' velocities
      differ by the angular velocity crossed with the vector between them. */
  lemma RigidVelocityField(rbpo: RigidBodyParticleObject, j: nat, k: nat)
    requires Synced(rbpo) && j < |rbpo.particles.x| && k < |rbpo.particles.x|
    ensures Sub(rbpo.particles.v[j], rbpo.particles.v[k])
         == Cross(rbpo.rigidBody.angularVelocity, Sub(rbpo.particles.x[j], rbpo.particles.x[k]))
  {
    var po, body := rbpo.particles, rbpo.rigidBody;
    var omega, p := body.angularVelocity, body.position;
    var aj, ak := Cross(omega, Sub(po.x[j], p)), Cross(omega, Sub(po.x[k], p));
    assert Sub(po.v[j], po.v[k]) == Sub(aj, ak);
    assert Sub(Sub(po.x[j], p), Sub(po.x[k], p)) == Sub(po.x[j], po.x[k]);
    CrossSubRight(omega, Sub(po.x[j], p), Sub(po.x[k], p));
  }

  /** rbpo has gone through the kinematic sync (when done) or not, starting
      from rest positions x0, positions x and velocities v. */
  ghost predicate SyncStage(rbpo: RigidBodyParticleObject, done: bool, forceUpdate: bool,
                            x0: seq<Vec3>, x: seq<Vec3>, v: seq<Vec3>)
    reads rbpo, rbpo.particles, rbpo.rigidBody
  {
    && rbpo.Valid()
    && rbpo.particles.x0 == x0
    && if done && (rbpo.rigidBody.isDynamic || forceUpdate) then Synced(rbpo)
       else rbpo.particles.x == x && rbpo.particles.v == v
  }

  /** One iteration of the kinematic sync: object i goes through it. */
  method SyncObject(model: FluidModel, i: nat, forceUpdate: bool,
                    ghost x0: seq<seq<Vec3>>, ghost x: seq<seq<Vec3>>, ghost v: seq<seq<Vec3>>)
    requires model.Structure() && i < |model.rigidBodyObjects| == |x0| == |x| == |v|
    requires forall k :: 0 <= k < |x0| ==> SyncStage(model.rigidBodyObjects[k], k < i, forceUpdate, x0[k], x[k], v[k])
    modifies model.rigidBodyObjects[i].particles
    ensures forall k :: 0 <= k < |x0| ==> SyncStage(model.rigidBodyObjects[k], k < i + 1, forceUpdate, x0[k], x[k], v[k])
  {
    var rbpo := model.rigidBodyObjects[i];
    var rbo := rbpo.rigidBody;
    if rbo.isDynamic || forceUpdate {
      SyncParticles(rbpo);
    }
  }

  /** Kinematic sync: every boundary object whose body is dynamic, or every
      boundary object when forceUpdate is set, is moved to its body's pose.
      Rest positions and the fluid object are never touched. */
  method UpdateBoundaryParticles(model: FluidModel, forceUpdate: bool)
    requires model.Valid()
    modifies set k | 0 <= k < |model.rigidBodyObjects| :: model.rigidBodyObjects[k].particles
    ensures model.Valid()
    ensures forall k :: 0 <= k < |model.rigidBodyObjects| ==>
              var po := model.rigidBodyObjects[k].particles;
              SyncStage(model.rigidBodyObjects[k], true, forceUpdate, old(po.x0), old(po.x), old(po.v))
    ensures unchanged(model.particleObjects[0])
  {
    var nObjects := model.NumberOfRigidBodyParticleObjects();
    ghost var rbos := model.rigidBodyObjects;
    ghost var objects := set k | 0 <= k < nObjects :: rbos[k].particles;
    ghost var x0 := seq(nObjects, k requires 0 <= k < nObjects reads objects => rbos[k].particles.x0);
    ghost var x := seq(nObjects, k requires 0 <= k < nObjects reads objects => rbos[k].particles.x);
    ghost var v := seq(nObjects, k requires 0 <= k < nObjects reads objects => rbos[k].particles.v);
    var i := 0;
    while i < nObjects
      invariant 0 <= i <= nObjects == |rbos| == |x0| == |x| == |v| && model.rigidBodyObjects == rbos
      invariant forall k :: 0 <= k < nObjects ==> SyncStage(rbos[k], k < i, forceUpdate, x0[k], x[k], v[k])
      invariant forall k :: 0 <= k < nObjects ==>
                  var po := rbos[k].particles;
                  x0[k] == old(po.x0) && x[k] == old(po.x) && v[k] == old(po.v)
      invariant unchanged(model.particleObjects[0])
    {
      SyncObject(model, i, forceUpdate, x0, x, v);
      i := i + 1;
    }
  }

  /** The inner loop of the force reduction for one boundary object. */
  method ReduceForces(rbpo: RigidBodyParticleObject)
    requires rbpo.Valid()
    modifies rbpo`f, rbpo.rigidBody`force, rbpo.rigidBody`torque
    ensures rbpo.Valid()
    ensures Reduced(rbpo, true, old(rbpo.f), old(rbpo.rigidBody.force), old(rbpo.rigidBody.torque))
  {
    var po, body := rbpo.particles, rbpo.rigidBody;
    ghost var f0 := rbpo.f;
    var n := po.NumberOfParticles();
    var force, torque := Zero, Zero;
    var j := 0;
    while j < n
      invariant 0 <= j <= n == |f0| == |po.x|
      invariant |rbpo.f| == n
      invariant forall k :: 0 <= k < j ==> rbpo.f[k] == Zero
      invariant forall k :: j <= k < n ==> rbpo.f[k] == f0[k]
      invariant force == NetForce(f0[..j])
      invariant torque == NetTorque(po.x[..j], body.position, f0[..j])
      invariant unchanged(body)
    {
      assert f0[..j + 1][..j] == f0[..j];
      assert po.x[..j + 1][..j] == po.x[..j];
      force := Add(force, rbpo.f[j]);
      torque := Add(torque, Cross(Sub(po.x[j], body.position), rbpo.f[j]));
      rbpo.f := rbpo.f[j := Zero];
      j := j + 1;
    }
    assert f0[..n] == f0 && po.x[..n] == po.x;
    body.AddForce(force);
    body.AddTorque(torque);
  }

  /** What the force reduction leaves behind for one boundary object whose
      accumulators held f0 and whose body had accumulated force0 and torque0. */
  ghost predicate Reduced(rbpo: RigidBodyParticleObject, dynamic: bool, f0: seq<Vec3>, force0: Vec3, torque0: Vec3)
    reads rbpo, rbpo.particles, rbpo.rigidBody
  {
    var body := rbpo.rigidBody;
    if dynamic then
      && |rbpo.particles.x| == |f0|
      && rbpo.f == ZeroForces(|f0|)
      && body.force == Add(force0, NetForce(f0))
      && body.torque == Add(torque0, NetTorque(rbpo.particles.x, body.position, f0))
    else
      rbpo.f == f0 && body.force == force0 && body.torque == torque0
  }

  /** The state the force reduction reads and writes for one boundary object. */
  datatype ReductionState = ReductionState(
    f: seq<Vec3>, boundaryPsi: seq<real>, isDynamic: bool, rotation: Mat3, position: Vec3,
    velocity: Vec3, angularVelocity: Vec3, force: Vec3, torque: Vec3)

  ghost function StateOf(rbpo: RigidBodyParticleObject): ReductionState
    reads rbpo, rbpo.rigidBody
  {
    var body := rbpo.rigidBody;
    ReductionState(rbpo.f, rbpo.boundaryPsi, body.isDynamic, body.rotation, body.position,
                   body.velocity, body.angularVelocity, body.force, body.torque)
  }

  /** rbpo has gone through the force reduction (when done) or not, starting
      from state s: its accumulators and its body's force and torque are as
      Reduced says, and nothing else of it has changed. */
  ghost predicate Stage(rbpo: RigidBodyParticleObject, done: bool, s: ReductionState)
    reads rbpo, rbpo.particles, rbpo.rigidBody
  {
    var body := rbpo.rigidBody;
    && rbpo.Valid()
    && Reduced(rbpo, done && s.isDynamic, s.f, s.force, s.torque)
    && rbpo.boundaryPsi == s.boundaryPsi
    && body.isDynamic == s.isDynamic && body.rotation == s.rotation && body.position == s.position
    && body.velocity == s.velocity && body.angularVelocity == s.angularVelocity
  }

  /** One iteration of the force reduction: object i goes through it. */
  method ReduceObject(model: FluidModel, i: nat, ghost start: seq<ReductionState>)
    requires model.Structure() && i < |model.rigidBodyObjects| == |start|
    requires forall k :: 0 <= k < |start| ==> Stage(model.rigidBodyObjects[k], k < i, start[k])
    modifies model.rigidBodyObjects[i], model.rigidBodyObjects[i].rigidBody
    ensures forall k :: 0 <= k < |start| ==> Stage(model.rigidBodyObjects[k], k < i + 1, start[k])
  {
    var rbpo := model.rigidBodyObjects[i];
    var rbo := rbpo.rigidBody;
    if rbo.isDynamic {
      ReduceForces(rbpo);
    }
  }

  /** Force reduction: each dynamic body receives the net force and the torque
      about its position of the forces on its boundary particles, and those
      accumulators are drained to zero. Static bodies and their accumulators
      are left alone; no position, rest position or velocity changes. */
  method UpdateBoundaryForces(model: FluidModel)
    requires model.Valid()
    modifies model.rigidBodyObjects[..]
    modifies set k | 0 <= k < |model.rigidBodyObjects| :: model.rigidBodyObjects[k].rigidBody
    ensures model.Valid()
    ensures forall k :: 0 <= k < |model.rigidBodyObjects| ==>
              Stage(model.rigidBodyObjects[k], true, old(StateOf(model.rigidBodyObjects[k])))
    ensures forall o :: 0 <= o < |model.particleObjects| ==> unchanged(model.particleObjects[o])
  {
    var nObjects := model.NumberOfRigidBodyParticleObjects();
    ghost var rbos := model.rigidBodyObjects;
    ghost var bodies := set k | 0 <= k < nObjects :: rbos[k].rigidBody;
    ghost var start := seq(nObjects, k requires 0 <= k < nObjects reads rbos, bodies => StateOf(rbos[k]));
    var i := 0;
    while i < nObjects
      invariant 0 <= i <= nObjects == |rbos| == |start| && model.rigidBodyObjects == rbos
      invariant forall k :: 0 <= k < nObjects ==> Stage(rbos[k], k < i, start[k])
      invariant forall k :: 0 <= k < nObjects ==> start[k] == old(StateOf(rbos[k]))
    {
      ReduceObject(model, i, start);
      i := i + 1;
    }
  }
}
