/** The particle store of the fluid model: one particle object per physical
    entity (object 0 is the fluid, object k + 1 the sampling of rigid body k),
    each a set of parallel per-particle arrays, plus the fluid-indexed mass,
    density and acceleration arrays. */
module Particles {
  import opened Geometry

  /** The external rigid body a boundary sampling is attached to: its pose,
      its rates and the force and torque handed to it for its own time step. */
  class RigidBody {
    /** Position of the body in the external rigid-body registry. */
    ghost const index: nat
    var isDynamic: bool
    var rotation: Mat3
    var position: Vec3
    var velocity: Vec3
    var angularVelocity: Vec3
    var force: Vec3
    var torque: Vec3

    constructor (ghost index: nat, isDynamic: bool, rotation: Mat3, position: Vec3, velocity: Vec3, angularVelocity: Vec3)
      ensures this.index == index
      ensures this.isDynamic == isDynamic && this.rotation == rotation && this.position == position
      ensures this.velocity == velocity && this.angularVelocity == angularVelocity
      ensures force == Zero && torque == Zero
    {
      this.index := index;
      this.isDynamic, this.rotation, this.position := isDynamic, rotation, position;
      this.velocity, this.angularVelocity := velocity, angularVelocity;
      force, torque := Zero, Zero;
    }

    method AddForce(f: Vec3)
      modifies this`force
      ensures force == Add(old(force), f)
    {
      force := Add(force, f);
    }

    method AddTorque(t: Vec3)
      modifies this`torque
      ensures torque == Add(old(torque), t)
    {
      torque := Add(torque, t);
    }
  }

  /** Rest positions, positions and velocities of one particle object. */
  class ParticleObject {
    /** Position of the object in the fluid model's list of particle objects. */
    ghost const index: nat
    var x0: seq<Vec3>
    var x: seq<Vec3>
    var v: seq<Vec3>

    /** The three arrays are always resized together. */
    ghost predicate Valid()
      reads this
    {
      |x0| == |x| && |x| == |v|
    }

    constructor (ghost index: nat, positions: seq<Vec3>)
      ensures this.index == index
      ensures Valid() && x0 == positions && x == positions && |v| == |positions|
      ensures forall j :: 0 <= j < |v| ==> v[j] == Zero
    {
      this.index := index;
      x0, x := positions, positions;
      v := seq(|positions|, _ => Zero);
    }

    function NumberOfParticles(): (n: nat)
      reads this
      ensures Valid() ==> n == |x0| && n == |v|
    {
      |x|
    }
  }

  /** A particle object that samples the surface of a rigid body. The base
      particle arrays are the `particles` object; `boundaryPsi` and `f` run
      parallel to them. */
  class RigidBodyParticleObject {
    const particles: ParticleObject
    const rigidBody: RigidBody
    var boundaryPsi: seq<real>
    var f: seq<Vec3>

    ghost predicate Valid()
      reads this, particles
    {
      particles.Valid() && |boundaryPsi| == |particles.x| && |f| == |particles.x|
    }

    constructor (particles: ParticleObject, rigidBody: RigidBody, boundaryPsi: seq<real>)
      requires particles.Valid() && |boundaryPsi| == |particles.x|
      ensures Valid() && this.particles == particles && this.rigidBody == rigidBody
      ensures this.boundaryPsi == boundaryPsi
      ensures |f| == |particles.x| && forall j :: 0 <= j < |f| ==> f[j] == Zero
    {
      this.particles, this.rigidBody, this.boundaryPsi := particles, rigidBody, boundaryPsi;
      f := seq(|particles.x|, _ => Zero);
    }
  }

  class FluidModel {
    /** Object 0 is the fluid, object k + 1 the boundary sampling of rigid body k. */
    var particleObjects: seq<ParticleObject>
    /** The boundary objects seen as rigid-body particle objects. */
    var rigidBodyObjects: seq<RigidBodyParticleObject>
    var masses: seq<real>
    var a: seq<Vec3>
    var density: seq<real>

    /** How the objects are laid out: object k + 1 is the base of rigid-body
        object k, and each object and each body sits at its own index (so no
        two of them are the same). */
    ghost predicate Structure()
      reads this
    {
      && |particleObjects| == |rigidBodyObjects| + 1
      && (forall k :: 0 <= k < |rigidBodyObjects| ==> rigidBodyObjects[k].particles == particleObjects[k + 1])
      && (forall o :: 0 <= o < |particleObjects| ==> particleObjects[o].index == o)
      && (forall k :: 0 <= k < |rigidBodyObjects| ==> rigidBodyObjects[k].rigidBody.index == k)
    }

    /** The layout, every object keeps its parallel arrays the same length
        (a boundary object as part of its rigid-body particle object), and
        the fluid-indexed arrays match the fluid object. */
    ghost predicate Valid()
      reads this, particleObjects, rigidBodyObjects
    {
      && Structure()
      && particleObjects[0].Valid()
      && (forall k :: 0 <= k < |rigidBodyObjects| ==> rigidBodyObjects[k].Valid())
      && |masses| == |particleObjects[0].x| && |a| == |masses| && |density| == |masses|
    }

    /** A new store holds the fluid object alone, still without particles;
        rigid-body particle objects are registered after it. */
    constructor ()
      ensures Valid() && |particleObjects| == 1 && fresh(particleObjects[0])
      ensures particleObjects[0].x == [] && NumberOfRigidBodyParticleObjects() == 0
      ensures masses == [] && a == [] && density == []
    {
      var fluid := new ParticleObject(0, []);
      particleObjects, rigidBodyObjects := [fluid], [];
      masses, a, density := [], [], [];
    }

    /** Every particle object keeps its arrays the same length. */
    lemma ObjectsValid()
      requires Valid()
      ensures forall o :: 0 <= o < |particleObjects| ==> particleObjects[o].Valid()
    {
      forall o | 1 <= o < |particleObjects|
        ensures particleObjects[o].Valid()
      {
        assert rigidBodyObjects[o - 1].Valid();
      }
    }

    function NumParticles(): (n: nat)
      reads this, particleObjects, rigidBodyObjects
      requires Valid()
      ensures n == |masses| && n == |density| && n == |a|
      ensures n == particleObjects[0].NumberOfParticles()
    {
      |masses|
    }

    function NumberOfRigidBodyParticleObjects(): (n: nat)
      reads this, particleObjects, rigidBodyObjects
      requires Valid()
      ensures n + 1 == |particleObjects| && n == |rigidBodyObjects|
    {
      |particleObjects| - 1
    }

    function GetRigidBodyParticleObject(k: nat): (r: RigidBodyParticleObject)
      reads this, particleObjects, rigidBodyObjects
      requires Valid() && k < NumberOfRigidBodyParticleObjects()
      ensures r.particles == particleObjects[k + 1]
      ensures r.Valid()
    {
      rigidBodyObjects[k]
    }

    // Getters. For a boundary object (index at least 1) each one reads the
    // arrays of the rigid-body particle object one index below; the mass,
    // density and acceleration arrays are indexed by fluid particle.

    function GetPosition0(o: nat, i: nat): (p: Vec3)
      reads this, particleObjects, rigidBodyObjects
      requires Valid() && o < |particleObjects| && i < particleObjects[o].NumberOfParticles()
      ensures 1 <= o ==> p == GetRigidBodyParticleObject(o - 1).particles.x0[i]
    {
      ObjectsValid();
      particleObjects[o].x0[i]
    }

    function GetPosition(o: nat, i: nat): (p: Vec3)
      reads this, particleObjects, rigidBodyObjects
      requires Valid() && o < |particleObjects| && i < particleObjects[o].NumberOfParticles()
      ensures 1 <= o ==> p == GetRigidBodyParticleObject(o - 1).particles.x[i]
    {
      ObjectsValid();
      particleObjects[o].x[i]
    }

    function GetVelocity(o: nat, i: nat): (u: Vec3)
      reads this, particleObjects, rigidBodyObjects
      requires Valid() && o < |particleObjects| && i < particleObjects[o].NumberOfParticles()
      ensures 1 <= o ==> u == GetRigidBodyParticleObject(o - 1).particles.v[i]
    {
      ObjectsValid();
      particleObjects[o].v[i]
    }

    function GetAcceleration(i: nat): (accel: Vec3)
      reads this, particleObjects, rigidBodyObjects
      requires i < |a|
      ensures Valid() ==> i < NumParticles()
    {
      a[i]
    }

    function GetForce(o: nat, i: nat): (force: Vec3)
      reads this, particleObjects, rigidBodyObjects
      requires 1 <= o <= |rigidBodyObjects| && i < |rigidBodyObjects[o - 1].f|
      ensures Valid() ==> i < particleObjects[o].NumberOfParticles() && force == GetRigidBodyParticleObject(o - 1).f[i]
    {
      rigidBodyObjects[o - 1].f[i]
    }

    function GetMass(i: nat): (mass: real)
      reads this, particleObjects, rigidBodyObjects
      requires i < |masses|
      ensures Valid() ==> i < NumParticles()
    {
      masses[i]
    }

    function GetBoundaryPsi(o: nat, i: nat): (psi: real)
      reads this, particleObjects, rigidBodyObjects
      requires 1 <= o <= |rigidBodyObjects| && i < |rigidBodyObjects[o - 1].boundaryPsi|
      ensures Valid() ==> i < particleObjects[o].NumberOfParticles() && psi == GetRigidBodyParticleObject(o - 1).boundaryPsi[i]
    {
      rigidBodyObjects[o - 1].boundaryPsi[i]
    }

    function GetDensity(i: nat): (rho: real)
      reads this, particleObjects, rigidBodyObjects
      requires i < |density|
      ensures Valid() ==> i < NumParticles()
    {
      density[i]
    }

    // Setters. Each overwrites one element of one array.

    method SetPosition0(o: nat, i: nat, p: Vec3)
      requires Valid() && o < |particleObjects| && i < particleObjects[o].NumberOfParticles()
      modifies particleObjects[o]
      ensures particleObjects[o].x == old(particleObjects[o].x) && particleObjects[o].v == old(particleObjects[o].v)
      ensures Valid() && GetPosition0(o, i) == p
      ensures particleObjects[o].x0 == old(particleObjects[o].x0)[i := p]
      ensures forall k :: 0 <= k < |particleObjects| && k != o ==> unchanged(particleObjects[k])
    {
      ObjectsValid();
      particleObjects[o].x0 := particleObjects[o].x0[i := p];
    }

    method SetPosition(o: nat, i: nat, p: Vec3)
      requires Valid() && o < |particleObjects| && i < particleObjects[o].NumberOfParticles()
      modifies particleObjects[o]
      ensures particleObjects[o].x0 == old(particleObjects[o].x0) && particleObjects[o].v == old(particleObjects[o].v)
      ensures particleObjects[o].x == old(particleObjects[o].x)[i := p]
      ensures Valid() && GetPosition(o, i) == p
      ensures forall k :: 0 <= k < |particleObjects| && k != o ==> unchanged(particleObjects[k])
    {
      ObjectsValid();
      particleObjects[o].x := particleObjects[o].x[i := p];
    }

    method SetVelocity(o: nat, i: nat, u: Vec3)
      requires Valid() && o < |particleObjects| && i < particleObjects[o].NumberOfParticles()
      modifies particleObjects[o]
      ensures particleObjects[o].x0 == old(particleObjects[o].x0) && particleObjects[o].x == old(particleObjects[o].x)
      ensures Valid() && GetVelocity(o, i) == u
      ensures particleObjects[o].v == old(particleObjects[o].v)[i := u]
      ensures forall k :: 0 <= k < |particleObjects| && k != o ==> unchanged(particleObjects[k])
    {
      ObjectsValid();
      particleObjects[o].v := particleObjects[o].v[i := u];
    }

    method SetAcceleration(i: nat, accel: Vec3)
      requires Valid() && i < NumParticles()
      modifies this`a
      ensures Valid() && GetAcceleration(i) == accel
      ensures a == old(a)[i := accel]
    {
      a := a[i := accel];
    }

    method SetForce(o: nat, i: nat, force: Vec3)
      requires Valid() && 1 <= o < |particleObjects| && i < particleObjects[o].NumberOfParticles()
      modifies rigidBodyObjects[o - 1]
      ensures rigidBodyObjects[o - 1].boundaryPsi == old(rigidBodyObjects[o - 1].boundaryPsi)
      ensures Valid() && GetForce(o, i) == force
      ensures rigidBodyObjects[o - 1].f == old(rigidBodyObjects[o - 1].f)[i := force]
      ensures forall k :: 0 <= k < |rigidBodyObjects| && k != o - 1 ==> unchanged(rigidBodyObjects[k])
    {
      rigidBodyObjects[o - 1].f := rigidBodyObjects[o - 1].f[i := force];
    }

    method SetMass(i: nat, mass: real)
      requires Valid() && i < NumParticles()
      modifies this`masses
      ensures Valid() && GetMass(i) == mass
      ensures masses == old(masses)[i := mass]
    {
      masses := masses[i := mass];
    }

    method SetBoundaryPsi(o: nat, i: nat, psi: real)
      requires Valid() && 1 <= o < |particleObjects| && i < particleObjects[o].NumberOfParticles()
      modifies rigidBodyObjects[o - 1]
      ensures rigidBodyObjects[o - 1].f == old(rigidBodyObjects[o - 1].f)
      ensures Valid() && GetBoundaryPsi(o, i) == psi
      ensures rigidBodyObjects[o - 1].boundaryPsi == old(rigidBodyObjects[o - 1].boundaryPsi)[i := psi]
      ensures forall k :: 0 <= k < |rigidBodyObjects| && k != o - 1 ==> unchanged(rigidBodyObjects[k])
    {
      rigidBodyObjects[o - 1].boundaryPsi := rigidBodyObjects[o - 1].boundaryPsi[i := psi];
    }

    method SetDensity(i: nat, rho: real)
      requires Valid() && i < NumParticles()
      modifies this`density
      ensures Valid() && GetDensity(i) == rho
      ensures density == old(density)[i := rho]
    {
      density := density[i := rho];
    }
  }
}
