# Dynamic boundary coupling of SPlisHSPlasH, modelled in Dafny

SPlisHSPlasH simulates fluids with smoothed particle hydrodynamics. Its
dynamic-boundary demo couples the fluid to rigid bodies that a position-based
dynamics engine moves: each rigid body's surface is sampled with boundary
particles, which the fluid model stores as one more particle object.

This project models that coupling and the particle store behind it:

- `geometry.dfy` (module `Geometry`): exact 3D vectors and 3x3 matrices over
  `real`, standing in for `Vector3r` and `Matrix3r`.
- `fluid_model.dfy` (module `Particles`): the particle store. Particle object 0
  is the fluid and object `k + 1` is the sampling of rigid body `k`. Each
  object keeps parallel rest-position, position and velocity arrays. A
  rigid-body particle object adds pseudo-mass (`boundaryPsi`) and force
  arrays. The fluid-indexed mass, acceleration and density arrays sit beside
  them. `FluidModel` is a class whose setters overwrite one element in place.
- `boundary_coupling.dfy` (module `BoundaryCoupling`): two passes over the
  boundary objects.
  - The kinematic sync (`updateBoundaryParticles`) places every sample of a
    dynamic body at `R x0 + p` and gives it the body's rigid velocity.
  - The force reduction (`updateBoundaryForces`) hands each dynamic body the
    net force and the torque of the fluid forces on its samples, then drains
    those forces to zero.
- `boundary_init.dfy` (module `BoundarySampling`): the per-body set-up in
  `initBoundaryData`:
  - the choice between an explicit samples file, the sampling cache and a
    fresh Poisson-disk sampling;
  - the cache file name;
  - the transform of world-space samples into the body's frame.
- `mesh_export.dfy` (module `MeshExport`): the mesh export in `timeStep`.
  Each non-wall body's indexed triangle mesh is flattened to a triangle soup
  and appended, behind a header and per-body counts, to the mesh writer's
  buffer. A decoder for that layout is proved to invert it.
- `wrappers.dfy` (module `Wrappers`): an `Option` type for external reads
  that can fail.

External outcomes are inputs to the model: file reads, the Poisson-disk
sampler, directory creation and the rigid-body poses. The `SamplingIo` value
carries them for one boundary model.

## Model

| member | source | states |
|---|---|---|
| `Particles.ParticleObject.NumberOfParticles` | SPlisHSPlasH/FluidModel.h:31-34 | the particle count is the length of the position array, and of the rest-position and velocity arrays it is kept parallel to |
| `Particles.FluidModel.constructor` | SPlisHSPlasH/FluidModel.h:21 | a new store is consistent and holds only the fluid object, fresh and still empty, and no rigid-body particle object |
| `Particles.FluidModel.NumParticles` | SPlisHSPlasH/FluidModel.h:125-128 | the fluid particle count is the length of the mass array; it equals the density and acceleration lengths and the fluid object's particle count |
| `Particles.FluidModel.NumberOfRigidBodyParticleObjects` | SPlisHSPlasH/FluidModel.h:129-132 | there is one rigid-body particle object per particle object except the fluid object 0 |
| `Particles.FluidModel.GetRigidBodyParticleObject` | SPlisHSPlasH/FluidModel.h:121-124 | rigid-body particle object k is particle object k + 1, and its psi and force arrays run parallel to its particles |
| `Particles.FluidModel.GetPosition0` | SPlisHSPlasH/FluidModel.h:255-263 | the rest position of particle i of object o; for o >= 1 it is the one in rigid-body particle object o - 1 |
| `Particles.FluidModel.GetPosition` | SPlisHSPlasH/FluidModel.h:270-278 | the position of particle i of object o; for o >= 1 it is the one in rigid-body particle object o - 1, so reading object `body + 1` (main.cpp:197, 218) reads the samples of rigid-body object `body` |
| `Particles.FluidModel.GetVelocity` | SPlisHSPlasH/FluidModel.h:285-293 | the velocity of particle i of object o; for o >= 1 it is the one in rigid-body particle object o - 1 |
| `Particles.FluidModel.GetAcceleration` | SPlisHSPlasH/FluidModel.h:300-308 | acceleration i of the fluid-indexed array; in a consistent store i is a fluid particle index |
| `Particles.FluidModel.GetForce` | SPlisHSPlasH/FluidModel.h:315-323 | force i of rigid-body object o - 1, for o >= 1; i is a particle of object o |
| `Particles.FluidModel.GetMass` | SPlisHSPlasH/FluidModel.h:330-338 | mass i of the fluid-indexed array; in a consistent store i is a fluid particle index |
| `Particles.FluidModel.GetBoundaryPsi` | SPlisHSPlasH/FluidModel.h:345-353 | psi i of rigid-body object o - 1, for o >= 1; i is a particle of object o |
| `Particles.FluidModel.GetDensity` | SPlisHSPlasH/FluidModel.h:360-368 | density i of the fluid-indexed array; in a consistent store i is a fluid particle index |
| `Particles.FluidModel.SetPosition0` | SPlisHSPlasH/FluidModel.h:255-268 | only rest position i of object o changes, to the new value, which the getter then returns; that object's other arrays and every other object stay the same |
| `Particles.FluidModel.SetPosition` | SPlisHSPlasH/FluidModel.h:270-283 | only position i of object o changes, to the new value, which the getter then returns; that object's other arrays and every other object stay the same |
| `Particles.FluidModel.SetVelocity` | SPlisHSPlasH/FluidModel.h:285-298 | only velocity i of object o changes, to the new value, which the getter then returns; that object's other arrays and every other object stay the same |
| `Particles.FluidModel.SetAcceleration` | SPlisHSPlasH/FluidModel.h:300-313 | only acceleration i changes, to the new value, which the getter then returns |
| `Particles.FluidModel.SetForce` | SPlisHSPlasH/FluidModel.h:315-328 | needs a boundary object (o >= 1); only force i of that rigid-body object changes, to the new value, which the getter then returns; its psi array and every other rigid-body object stay the same |
| `Particles.FluidModel.SetMass` | SPlisHSPlasH/FluidModel.h:330-343 | only mass i changes, to the new value, which the getter then returns |
| `Particles.FluidModel.SetBoundaryPsi` | SPlisHSPlasH/FluidModel.h:345-358 | needs a boundary object (o >= 1); only psi i of that rigid-body object changes, to the new value, which the getter then returns; its force array and every other rigid-body object stay the same |
| `Particles.FluidModel.SetDensity` | SPlisHSPlasH/FluidModel.h:360-373 | only density i changes, to the new value, which the getter then returns |
| `Particles.RigidBody.AddForce` | Demos/DynamicBoundaryDemo/main.cpp:385 | the body's accumulated force grows by the given force |
| `Particles.RigidBody.AddTorque` | Demos/DynamicBoundaryDemo/main.cpp:386 | the body's accumulated torque grows by the given torque |
| `BoundaryCoupling.SyncParticles` | Demos/DynamicBoundaryDemo/main.cpp:353-357 | every sample j ends at R x0[j] + p with velocity omega x (x[j] - p) + v_b, using the new x[j]; rest positions are untouched |
| `BoundaryCoupling.RigidVelocityField` | Demos/DynamicBoundaryDemo/main.cpp:355-356 | after the sync, two samples' velocities differ by omega crossed with the vector between them, as in a rigid motion |
| `BoundaryCoupling.SyncObject` | Demos/DynamicBoundaryDemo/main.cpp:346-359 | boundary object i is synced exactly when its body is dynamic or the update is forced; the other objects are untouched |
| `BoundaryCoupling.UpdateBoundaryParticles` | Demos/DynamicBoundaryDemo/main.cpp:340-361 | objects of dynamic bodies, or all objects when forced, are synced; the others keep x and v; no rest position and not the fluid object changes; the store stays consistent |
| `BoundaryCoupling.ReduceForces` | Demos/DynamicBoundaryDemo/main.cpp:375-386 | the body's force grows by the sum of the pre-call forces and its torque by the sum of (x[j] - p) x f[j]; every f[j] ends at zero |
| `BoundaryCoupling.TorqueAboutPoint` | Demos/DynamicBoundaryDemo/main.cpp:382 | the torque about the body position is the torque about the origin less p crossed with the net force |
| `BoundaryCoupling.DrainedContributesNothing` | Demos/DynamicBoundaryDemo/main.cpp:383 | zeroed force accumulators add no force and no torque |
| `BoundaryCoupling.ReductionDrains` | Demos/DynamicBoundaryDemo/main.cpp:379-386 | right after a reduction, a second one would add nothing to the body |
| `BoundaryCoupling.ReduceObject` | Demos/DynamicBoundaryDemo/main.cpp:370-387 | boundary object i is reduced exactly when its body is dynamic; a static body gets no force or torque and keeps its accumulators; the other objects are untouched |
| `BoundaryCoupling.UpdateBoundaryForces` | Demos/DynamicBoundaryDemo/main.cpp:363-389 | every dynamic body is reduced and every static one left alone; the psi arrays, the poses and every particle object's x0, x and v are unchanged |
| `BoundarySampling.LocalFrame` | Demos/DynamicBoundaryDemo/main.cpp:332-333 | sample j maps to R^T (q[j] - p) |
| `BoundarySampling.TransformToLocal` | Demos/DynamicBoundaryDemo/main.cpp:331-333 | the array is rewritten in place into the body's local frame |
| `BoundarySampling.PlaceLocal` | Demos/DynamicBoundaryDemo/main.cpp:333 | with R orthonormal, placing a local-frame sample with the sync formula gives the world sample back |
| `BoundarySampling.LocalOfPlaced` | Demos/DynamicBoundaryDemo/main.cpp:355 | with R orthonormal, taking a placed rest position back to the local frame gives it back |
| `BoundarySampling.SyncRestoresSamples` | Demos/DynamicBoundaryDemo/main.cpp:331-337 | once an object whose rest positions are the local-frame samples is synced, its particles sit exactly at the world samples |
| `BoundarySampling.NatToString` | Demos/DynamicBoundaryDemo/main.cpp:297 | the model index is written in decimal: at least one digit, digits only, no leading zero unless it is 0 |
| `BoundarySampling.DecimalRoundTrip` | Demos/DynamicBoundaryDemo/main.cpp:297 | reading the written index back gives the index |
| `BoundarySampling.NatToStringInjective` | Demos/DynamicBoundaryDemo/main.cpp:297 | distinct indices are written differently |
| `BoundarySampling.CachePath` | Demos/DynamicBoundaryDemo/main.cpp:296 | the cache directory is `scenePath/meshBasePath/Cache`: it starts with the scene path and a separator and ends in `/Cache` |
| `BoundarySampling.CacheFileName` | Demos/DynamicBoundaryDemo/main.cpp:296-297 | the name has the form `cachePath/sceneFile_meshFile_i.bgeo`: it starts with the cache directory and a separator, ends in `.bgeo`, and holds the decimal index i right before the extension, after a `_` |
| `BoundarySampling.CacheFileNamesDistinct` | Demos/DynamicBoundaryDemo/main.cpp:296-297 | two boundary models of one scene with different indices never share a cache file, whatever their mesh directories and file names |
| `BoundarySampling.SelectSamples` | Demos/DynamicBoundaryDemo/main.cpp:284-333 | a samples file wins and is used untransformed; otherwise the cache is read exactly when caching is on and used exactly when the read succeeds; the cache is written only with fresh samples, caching on and the directory created; cached or sampled points go to the local frame |
| `BoundarySampling.CacheReplaysSampling` | Demos/DynamicBoundaryDemo/main.cpp:311-333 | a sampling written to the cache and read back in the same pose gives the same rest positions |
| `BoundarySampling.SampleBoundaryModel` | Demos/DynamicBoundaryDemo/main.cpp:284-334 | the step-by-step selection and in-place transform produce what `SelectSamples` prescribes |
| `BoundarySampling.InitBoundaryData` | Demos/DynamicBoundaryDemo/main.cpp:276-336 | boundary model i, paired with rigid body i, gets its prescribed samples and the cache file name for index i |
| `MeshExport.ToUInt` | Demos/DynamicBoundaryDemo/main.cpp:131 | the unsigned cast keeps the value modulo 2^32, so it is below 2^32 and unchanged when it already fits |
| `MeshExport.Gather` | Demos/DynamicBoundaryDemo/main.cpp:154-156 | corner k of the soup is the table entry at index k |
| `MeshExport.FlattenMesh` | Demos/DynamicBoundaryDemo/main.cpp:145-158 | there are 3 nFaces corners, and corner 3i + j carries the vertex and the normal at faces[3i + j] |
| `MeshExport.AppendBodyRecord` | Demos/DynamicBoundaryDemo/main.cpp:135-163 | the buffer grows by body i's corner count, corner vertices and corner normals when it is not a wall, and by nothing when it is; what remains to append is the records from body i + 1 on |
| `MeshExport.AppendBodyRecords` | Demos/DynamicBoundaryDemo/main.cpp:133-164 | the records of all bodies are appended in body order |
| `MeshExport.ExportMeshes` | Demos/DynamicBoundaryDemo/main.cpp:122-167 | for a saved frame the buffer becomes the header then the body records, and it is flushed under that frame; otherwise the writer is untouched |
| `MeshExport.RecordsRoundTrip` | Demos/DynamicBoundaryDemo/main.cpp:160-162 | the body records decode to the triangle soups of the non-wall bodies, in order, when every corner count fits in 32 bits |
| `MeshExport.ExportRoundTrip` | Demos/DynamicBoundaryDemo/main.cpp:130-162 | the whole buffer decodes to the header value and those soups |
| `MeshExport.HeaderValue` | Demos/DynamicBoundaryDemo/main.cpp:131 | the header is the index of the last rigid body; with no rigid body it wraps to 2^32 - 1 |

## Left out

- OpenMP parallelism in the sync loop: the loop is sequential here. Each
  iteration writes only its own sample, so the outcome is the same.
- Floating point: `Real` is modelled as an exact `real`, so rounding is not
  modelled. The round-trip lemmas hold exactly only in exact arithmetic.
- Unsigned 32-bit truncation in the accessors (`numberOfParticles`,
  `numParticles`, `numberOfRigidBodyParticleObjects`) is not modelled. The
  store always holds the fluid object (the constructor creates it), so the
  `size() - 1` there never wraps.
- MeshExport.FlattenMesh, `BoundaryCoupling.SyncParticles` and
  `BoundaryCoupling.ReduceForces` do not model the 32-bit
  integers of their loops. The export loop indexes `faces[i * 3 + j]` with
  unsigned ints, which wrap once a mesh has 2^32 / 3 faces or more; the model
  reads `faces[3i + j]` unwrapped. The sync and force loops run up to
  `(int)numberOfParticles()`, which is negative for a body with 2^31 samples or
  more, so such a body would be neither synced nor drained; the model syncs
  and drains it. Counts that large do not occur in practice.
- The body of the `FluidModel` constructor is in FluidModel.cpp, which is not
  part of this model. `Particles.FluidModel.constructor` builds the store the
  rest of the model relies on: the fluid object alone, at index 0.
- References: the C++ getters return references that callers may write
  through. The model's getters return values, and writes go through the
  setters or through the object fields, as the coupling passes do.
- Pointer aliasing between particle objects is ruled out by the model's
  `Structure` predicate: each object and each body sits at its own index.
- `addRigidBodyObject`, `initModel` and `computeBoundaryPsi` are implemented
  in FluidModel.cpp, which is not part of this model. `InitBoundaryData`
  therefore returns each model's samples and cache file name instead of
  registering them. `SyncRestoresSamples` states what the final forced sync
  then achieves.
- When no samples were produced, `SelectSamples` and `InitBoundaryData` return
  an empty sample list. What is not modelled is the `&boundaryParticles[0]`
  that `initBoundaryData` then hands to `addRigidBodyObject`: taking the first
  element of an empty vector is undefined behaviour in C++.
- The outside world is represented by input values in `SamplingIo`: the
  samples-file and cache readers, the Poisson-disk sampler, and `makeDir`'s
  status.
  - A failed cache read is assumed to leave no samples behind.
  - The sampler is assumed to replace the samples rather than append to them.
  - The cache write is recorded, not performed.
- The `FileSystem` path helpers (`getFilePath`, `getFileName`,
  `normalizePath`) are not modelled. Their outputs are inputs
  (`BoundaryModel.meshBasePath`, `meshFileName`, the scene path and name), and
  the cache name is not normalised.
- Particles.RigidBody.AddForce and `AddTorque` model the adapter's
  `addForce`/`addTorque` as plain accumulators that touch only the body's
  force and torque. Their bodies are not part of this model. What the real
  body does with them (after `updateTimeStepSize`) is not modelled. The
  promise of `UpdateBoundaryForces` that poses, velocities and angular
  velocities stay unchanged rests on that choice.
- `PBDRigidBody::updateTimeStepSize`, the time step size `h` and the position
  based dynamics step (`pbdWrapper`) are not modelled. The bodies' poses are
  whatever the model's `RigidBody` objects hold.
- `timeStep` orchestration is not modelled: the pause handling, the SPH
  solver step, `writeFrameFluidData` (the saved frame number is an input of
  `ExportMeshes`) and the sequencing of forces, body step, sync and export.
  The same goes for `reset`.
- The mesh writer's buffer internals are not modelled.
  `push_back_to_float_array` appends a `Floats` entry holding the vectors, not
  their float encoding. `flush_buffer_async` only records the buffer and the
  frame, not the asynchronous write.
- Rendering (`render`, `renderBoundary`, GL calls) is not modelled.
- Kernels, neighbourhood search, the solver parameter getters and setters,
  and the other declarations of FluidModel.h whose bodies live elsewhere are
  not modelled.
