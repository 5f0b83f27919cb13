/** The per-body part of the boundary set-up: where the surface samples of a
    rigid body come from (an explicit samples file, the sampling cache, or a
    fresh Poisson-disk sampling of its mesh), the name of its cache file, and
    the transform of world-space samples into the body's local frame. The
    file reads, the sampler and the directory creation are external; their
    outcomes are inputs. */
module BoundarySampling {
  import opened Wrappers
  import opened Geometry
  import opened BoundaryCoupling

  // ---------------------------------------------------------------------
  // Local frame

  /** Rest position, in the frame of a body with rotation r at p, of the
      world point q: the transposed rotation applied to q - p. */
  function ToLocal(r: Mat3, p: Vec3, q: Vec3): Vec3 {
    MatVec(Transpose(r), Sub(q, p))
  }

  function LocalFrame(r: Mat3, p: Vec3, qs: seq<Vec3>): (ls: seq<Vec3>)
    ensures |ls| == |qs| && forall j :: 0 <= j < |qs| ==> ls[j] == ToLocal(r, p, qs[j])
  {
    seq(|qs|, j requires 0 <= j < |qs| => ToLocal(r, p, qs[j]))
  }

  /** Placing a sample's local coordinates with the same pose gives the world
      sample back, when the rotation is orthonormal. */
  lemma PlaceLocal(r: Mat3, p: Vec3, q: Vec3)
    requires Orthonormal(r)
    ensures BoundaryPosition(r, p, ToLocal(r, p, q)) == q
  {
    MatVecMatMul(r, Transpose(r), Sub(q, p));
    MatVecIdentity(Sub(q, p));
  }

  /** Taking a placed rest position back to the local frame gives it back. */
  lemma LocalOfPlaced(r: Mat3, p: Vec3, x0: Vec3)
    requires Orthonormal(r)
    ensures ToLocal(r, p, BoundaryPosition(r, p, x0)) == x0
  {
    assert Sub(BoundaryPosition(r, p, x0), p) == MatVec(r, x0);
    MatVecMatMul(Transpose(r), r, x0);
    MatVecIdentity(x0);
  }

  /** Rewrites the samples in place, each into the local frame of the body. */
  method TransformToLocal(a: array<Vec3>, r: Mat3, p: Vec3)
    modifies a
    ensures a[..] == LocalFrame(r, p, old(a[..]))
  {
    var j := 0;
    while j < a.Length
      invariant 0 <= j <= a.Length
      invariant forall k :: 0 <= k < j ==> a[k] == ToLocal(r, p, old(a[k]))
      invariant forall k :: j <= k < a.Length ==> a[k] == old(a[k])
    {
      a[j] := ToLocal(r, p, a[j]);
      j := j + 1;
    }
  }

  /** A boundary object whose rest positions are the local-frame samples of
      the world points qs, once synced to the same orthonormal pose, has its
      particles exactly at qs. */
  lemma SyncRestoresSamples(rbpo: Particles.RigidBodyParticleObject, qs: seq<Vec3>)
    requires Orthonormal(rbpo.rigidBody.rotation) && Synced(rbpo)
    requires rbpo.particles.x0 == LocalFrame(rbpo.rigidBody.rotation, rbpo.rigidBody.position, qs)
    ensures rbpo.particles.x == qs
  {
    var body := rbpo.rigidBody;
    forall j | 0 <= j < |qs|
      ensures rbpo.particles.x[j] == qs[j]
    {
      PlaceLocal(body.rotation, body.position, qs[j]);
    }
  }

  // ---------------------------------------------------------------------
  // Cache file name

  /** The decimal digit d as a character. */
  function DigitChar(d: nat): char
    requires d < 10
  {
    ('0' as int + d) as char
  }

  predicate IsDigit(c: char) {
    '0' <= c <= '9'
  }

  /** Decimal rendering of an unsigned integer, as std::to_string writes it:
      digits only, and no leading zero unless the number is 0. */
  function NatToString(n: nat): (s: string)
    ensures |s| >= 1 && forall k :: 0 <= k < |s| ==> IsDigit(s[k])
    ensures s[0] == '0' ==> n == 0
    decreases n
  {
    if n < 10 then [DigitChar(n)] else NatToString(n / 10) + [DigitChar(n % 10)]
  }

  function DigitValue(c: char): (d: nat)
    requires IsDigit(c)
    ensures d < 10 && DigitChar(d) == c
  {
    c as int - '0' as int
  }

  /** Reads a string of decimal digits back as a number. */
  function ParseDecimal(s: string): nat
    requires forall k :: 0 <= k < |s| ==> IsDigit(s[k])
  {
    if s == [] then 0
    else 10 * ParseDecimal(s[..|s| - 1]) + DigitValue(s[|s| - 1])
  }

  lemma {:induction false} DecimalRoundTrip(n: nat)
    ensures ParseDecimal(NatToString(n)) == n
    decreases n
  {
    if n >= 10 {
      var s := NatToString(n);
      assert s[..|s| - 1] == NatToString(n / 10);
      DecimalRoundTrip(n / 10);
    }
  }

  lemma NatToStringInjective(m: nat, n: nat)
    ensures NatToString(m) == NatToString(n) ==> m == n
  {
    DecimalRoundTrip(m);
    DecimalRoundTrip(n);
  }

  /** The directory the sampling cache of a mesh lives in: a "Cache"
      directory below the mesh's directory, relative to the scene's. */
  function CachePath(scenePath: string, meshBasePath: string): (path: string)
    ensures scenePath + "/" <= path && |path| >= 6 && path[|path| - 6..] == "/Cache"
  {
    scenePath + "/" + meshBasePath + "/Cache"
  }

  /** The cache file of boundary model i: the scene's and the mesh's file
      names and the model's index, in the mesh's cache directory. The name
      lies in that directory, ends in ".bgeo", and just before the extension
      holds the index in decimal, preceded by "_". */
  function CacheFileName(scenePath: string, meshBasePath: string, sceneFileName: string,
                         meshFileName: string, i: nat): (name: string)
    ensures CachePath(scenePath, meshBasePath) + "/" <= name
    ensures |name| >= |NatToString(i)| + 6
    ensures name[|name| - 5..] == ".bgeo"
    ensures name[|name| - 5 - |NatToString(i)|..|name| - 5] == NatToString(i)
    ensures name[|name| - 6 - |NatToString(i)|] == '_'
  {
    var dir := CachePath(scenePath, meshBasePath) + "/";
    var stem := dir + sceneFileName + "_" + meshFileName + "_";
    var name := stem + NatToString(i) + ".bgeo";
    assert name == dir + (sceneFileName + "_" + meshFileName + "_" + NatToString(i) + ".bgeo");
    assert name[|stem|..|name| - 5] == NatToString(i);
    assert name[|stem| - 1] == '_';
    name
  }

  /** Two boundary models of one scene never share a cache file: the
      decimal index right before the extension contains no "_", so it can be
      read off the name, whatever the meshes' directories and names. */
  lemma CacheFileNamesDistinct(scenePath: string, sceneFileName: string,
                               meshBasePath1: string, meshFileName1: string, i: nat,
                               meshBasePath2: string, meshFileName2: string, j: nat)
    requires i != j
    ensures CacheFileName(scenePath, meshBasePath1, sceneFileName, meshFileName1, i)
         != CacheFileName(scenePath, meshBasePath2, sceneFileName, meshFileName2, j)
  {
    NatToStringInjective(i, j);
  }

  // ---------------------------------------------------------------------
  // Sample source selection

  datatype SampleSource = SamplesFile | Cache | MeshSampling

  /** What the outside world answers for one boundary model: the samples in
      its samples file, the cache read (None when it fails), the output of the
      Poisson-disk sampler, and the status of creating the cache directory. */
  datatype SamplingIo = SamplingIo(fileSamples: seq<Vec3>, cacheSamples: Option<seq<Vec3>>,
                                   meshSamples: seq<Vec3>, makeDirStatus: int)

  /** Where the samples came from, whether the cache was read, what (if
      anything) was written to the cache, and the samples handed on. */
  datatype BoundarySamples = BoundarySamples(source: SampleSource, cacheRead: bool,
                                             cacheWrite: Option<seq<Vec3>>, points: seq<Vec3>)

  /** The scene's description of one boundary model, with its mesh file
      already split into directory and file name. */
  datatype BoundaryModel = BoundaryModel(samplesFile: string, meshBasePath: string, meshFileName: string)

  /** The samples one boundary model receives, given its body's pose. */
  function SelectSamples(samplesFile: string, useCache: bool, r: Mat3, p: Vec3, io: SamplingIo): (s: BoundarySamples)
    // An explicit samples file wins: no cache, no sampling, no transform.
    ensures samplesFile != "" ==> s == BoundarySamples(SamplesFile, false, None, io.fileSamples)
    // Otherwise the cache is read exactly when caching is on ...
    ensures samplesFile == "" ==> s.cacheRead == useCache
    // ... and used exactly when that read succeeds.
    ensures s.source == Cache <==> samplesFile == "" && useCache && io.cacheSamples.Some?
    ensures s.source == MeshSampling <==> samplesFile == "" && !(useCache && io.cacheSamples.Some?)
    // The cache is written only with fresh samples, with caching on and the
    // cache directory created.
    ensures s.cacheWrite.Some? <==> s.source == MeshSampling && useCache && io.makeDirStatus == 0
    ensures s.cacheWrite.Some? ==> s.cacheWrite.value == io.meshSamples
    // Cached or sampled points are world-space and go to the local frame.
    ensures s.source == Cache ==> s.points == LocalFrame(r, p, io.cacheSamples.value)
    ensures s.source == MeshSampling ==> s.points == LocalFrame(r, p, io.meshSamples)
  {
    if samplesFile != "" then BoundarySamples(SamplesFile, false, None, io.fileSamples)
    else
      var cached := useCache && io.cacheSamples.Some?;
      var world := if cached then io.cacheSamples.value else io.meshSamples;
      var write := if !cached && useCache && io.makeDirStatus == 0 then Some(io.meshSamples) else None;
      BoundarySamples(if cached then Cache else MeshSampling, useCache, write, LocalFrame(r, p, world))
  }

  /** A cache written by one run, read back by the next with the body in the
      same pose, yields the same rest positions as the fresh sampling did. */
  lemma CacheReplaysSampling(samplesFile: string, r: Mat3, p: Vec3, io: SamplingIo, next: SamplingIo)
    requires SelectSamples(samplesFile, true, r, p, io).cacheWrite.Some?
    requires next.cacheSamples == SelectSamples(samplesFile, true, r, p, io).cacheWrite
    ensures SelectSamples(samplesFile, true, r, p, next).source == Cache
    ensures SelectSamples(samplesFile, true, r, p, next).points == SelectSamples(samplesFile, true, r, p, io).points
  {
  }

  /** The samples of one boundary model, computed step by step. */
  method SampleBoundaryModel(model: BoundaryModel, useCache: bool, r: Mat3, p: Vec3, io: SamplingIo)
    returns (s: BoundarySamples)
    ensures s == SelectSamples(model.samplesFile, useCache, r, p, io)
  {
    var boundaryParticles: seq<Vec3> := [];
    var source := SamplesFile;
    var cacheRead := false;
    var cacheWrite: Option<seq<Vec3>> := None;
    if model.samplesFile != "" {
      boundaryParticles := io.fileSamples;
    }
    if model.samplesFile == "" {
      var foundCacheFile := false;
      if useCache {
        cacheRead := true;
        foundCacheFile := io.cacheSamples.Some?;
        if foundCacheFile {
          boundaryParticles := io.cacheSamples.value;
          source := Cache;
        }
      }
      if !useCache || !foundCacheFile {
        boundaryParticles := io.meshSamples;
        source := MeshSampling;
        if useCache && io.makeDirStatus == 0 {
          cacheWrite := Some(boundaryParticles);
        }
      }
      var a := new Vec3[|boundaryParticles|](j requires 0 <= j < |boundaryParticles| => boundaryParticles[j]);
      assert a[..] == boundaryParticles;
      TransformToLocal(a, r, p);
      boundaryParticles := a[..];
    }
    s := BoundarySamples(source, cacheRead, cacheWrite, boundaryParticles);
  }

  /** The body pose the samples of a boundary model are expressed against. */
  datatype Pose = Pose(rotation: Mat3, position: Vec3)

  /** The samples and the cache file name of every boundary model, in scene
      order. Boundary model i belongs to rigid body i. */
  method InitBoundaryData(models: seq<BoundaryModel>, poses: seq<Pose>, io: seq<SamplingIo>, useCache: bool,
                          scenePath: string, sceneFileName: string)
    returns (samples: seq<BoundarySamples>, cacheFiles: seq<string>)
    requires |poses| == |models| && |io| == |models|
    ensures |samples| == |models| && |cacheFiles| == |models|
    ensures forall i :: 0 <= i < |models| ==>
              samples[i] == SelectSamples(models[i].samplesFile, useCache, poses[i].rotation, poses[i].position, io[i])
    ensures forall i :: 0 <= i < |models| ==>
              cacheFiles[i] == CacheFileName(scenePath, models[i].meshBasePath, sceneFileName, models[i].meshFileName, i)
  {
    samples, cacheFiles := [], [];
    var i := 0;
    while i < |models|
      invariant 0 <= i <= |models| && |samples| == i && |cacheFiles| == i
      invariant forall k :: 0 <= k < i ==>
                  samples[k] == SelectSamples(models[k].samplesFile, useCache, poses[k].rotation, poses[k].position, io[k])
      invariant forall k :: 0 <= k < i ==>
                  cacheFiles[k] == CacheFileName(scenePath, models[k].meshBasePath, sceneFileName, models[k].meshFileName, k)
    {
      var particleFileName := CacheFileName(scenePath, models[i].meshBasePath, sceneFileName, models[i].meshFileName, i);
      var s := SampleBoundaryModel(models[i], useCache, poses[i].rotation, poses[i].position, io[i]);
      samples, cacheFiles := samples + [s], cacheFiles + [particleFileName];
      i := i + 1;
    }
  }
}
