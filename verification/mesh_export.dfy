/** The mesh export done after a saved fluid frame: every non-wall rigid
    body's indexed triangle mesh is flattened into a triangle soup (three
    vertices and three vertex normals per face) and appended to the mesh
    writer's buffer behind a length count, after one header entry. */
module MeshExport {
  import opened Wrappers
  import opened Geometry

  /** Casting to a 32-bit unsigned integer keeps the value modulo 2^32. */
  const UIntRange: nat := 0x1_0000_0000

  function ToUInt(n: int): (u: nat)
    ensures u < UIntRange
    ensures 0 <= n < UIntRange ==> u == n
    ensures (n - u) % UIntRange == 0
  {
    n % UIntRange
  }

  /** The triangle mesh of one rigid body, with the wall flag of the
      boundary model the body belongs to. `faces` holds three vertex indices
      per face; normals are per vertex. */
  datatype BodyMesh = BodyMesh(isWall: bool, nFaces: nat, faces: seq<nat>,
                               vertices: seq<Vec3>, vertexNormals: seq<Vec3>)

  /** Every face index names a vertex and a vertex normal. */
  predicate WellFormed(m: BodyMesh) {
    && |m.faces| == 3 * m.nFaces
    && forall k :: 0 <= k < |m.faces| ==> m.faces[k] < |m.vertices| && m.faces[k] < |m.vertexNormals|
  }

  /** The entries of the table at the given indices, in order. */
  function Gather(table: seq<Vec3>, indices: seq<nat>): (r: seq<Vec3>)
    requires forall k :: 0 <= k < |indices| ==> indices[k] < |table|
    ensures |r| == |indices| && forall k :: 0 <= k < |indices| ==> r[k] == table[indices[k]]
  {
    if indices == [] then [] else [table[indices[0]]] + Gather(table, indices[1..])
  }

  function FaceVertices(m: BodyMesh): seq<Vec3>
    requires WellFormed(m)
  {
    Gather(m.vertices, m.faces)
  }

  function FaceNormals(m: BodyMesh): seq<Vec3>
    requires WellFormed(m)
  {
    Gather(m.vertexNormals, m.faces)
  }

  /** Expands the indexed mesh into one vertex and one normal per face
      corner: corner 3 i + j gets the vertex and normal of faces[3 i + j]. */
  method FlattenMesh(m: BodyMesh) returns (vertices: seq<Vec3>, normals: seq<Vec3>)
    requires WellFormed(m)
    ensures |vertices| == 3 * m.nFaces && |normals| == 3 * m.nFaces
    ensures vertices == FaceVertices(m) && normals == FaceNormals(m)
  {
    vertices, normals := [], [];
    var i := 0;
    while i < m.nFaces
      invariant 0 <= i <= m.nFaces && |vertices| == 3 * i && |normals| == 3 * i
      invariant forall k :: 0 <= k < 3 * i ==>
                  vertices[k] == m.vertices[m.faces[k]] && normals[k] == m.vertexNormals[m.faces[k]]
    {
      var j := 0;
      while j < 3
        invariant 0 <= j <= 3 && |vertices| == 3 * i + j && |normals| == 3 * i + j
        invariant forall k :: 0 <= k < 3 * i + j ==>
                    vertices[k] == m.vertices[m.faces[k]] && normals[k] == m.vertexNormals[m.faces[k]]
      {
        var vIndex := m.faces[i * 3 + j];
        vertices := vertices + [m.vertices[vIndex]];
        normals := normals + [m.vertexNormals[vIndex]];
        j := j + 1;
      }
      i := i + 1;
    }
  }

  /** One entry of the writer's buffer: an unsigned integer, or an array of
      vectors appended as floats. */
  datatype Entry = UInt(n: nat) | Floats(values: seq<Vec3>)

  /** Meshes the exporter may expand: the non-wall ones index correctly. */
  predicate Exportable(ms: seq<BodyMesh>) {
    forall b :: 0 <= b < |ms| && !ms[b].isWall ==> WellFormed(ms[b])
  }

  /** The record of one non-wall body: the corner count, then the corner
      vertices, then the corner normals. */
  function MeshRecord(m: BodyMesh): seq<Entry>
    requires WellFormed(m)
  {
    [UInt(ToUInt(3 * m.nFaces)), Floats(FaceVertices(m)), Floats(FaceNormals(m))]
  }

  /** The records of the non-wall bodies, in body order. */
  function BodyRecords(ms: seq<BodyMesh>): seq<Entry>
    requires Exportable(ms)
  {
    if ms == [] then []
    else (if ms[0].isWall then [] else MeshRecord(ms[0])) + BodyRecords(ms[1..])
  }

  /** The whole buffer: the number of rigid bodies minus one, as an
      unsigned 32-bit value, then the body records. */
  function ExportBuffer(ms: seq<BodyMesh>): seq<Entry>
    requires Exportable(ms)
  {
    [UInt(ToUInt(|ms| - 1))] + BodyRecords(ms)
  }

  /** A buffer handed to the asynchronous writer for one frame. */
  datatype Flush = Flush(frame: int, entries: seq<Entry>)

  /** The mesh writer: its buffer and the buffers flushed so far. */
  class MeshWriter {
    var buffer: seq<Entry>
    var flushed: seq<Flush>

    constructor ()
      ensures buffer == [] && flushed == []
    {
      buffer, flushed := [], [];
    }
  }

  /** One step of the export loop: body i's record goes into the buffer, so
      what remains to be appended is the records from body i + 1 on. */
  method AppendBodyRecord(writer: MeshWriter, meshes: seq<BodyMesh>, i: nat, ghost target: seq<Entry>)
    requires Exportable(meshes) && i < |meshes|
    requires writer.buffer + BodyRecords(meshes[i..]) == target
    modifies writer`buffer
    ensures writer.buffer == old(writer.buffer) + (if meshes[i].isWall then [] else MeshRecord(meshes[i]))
    ensures writer.buffer + BodyRecords(meshes[i + 1..]) == target
  {
    assert meshes[i..][1..] == meshes[i + 1..];
    var m := meshes[i];
    if !m.isWall {
      var vertices, normals := FlattenMesh(m);
      writer.buffer := writer.buffer + [UInt(ToUInt(|vertices|))];
      writer.buffer := writer.buffer + [Floats(vertices)];
      writer.buffer := writer.buffer + [Floats(normals)];
    }
  }

  /** Appends the records of the bodies, in body order. */
  method AppendBodyRecords(writer: MeshWriter, meshes: seq<BodyMesh>)
    requires Exportable(meshes)
    modifies writer`buffer
    ensures writer.buffer == old(writer.buffer) + BodyRecords(meshes)
  {
    ghost var target := writer.buffer + BodyRecords(meshes);
    assert meshes[0..] == meshes;
    var i := 0;
    while i < |meshes|
      invariant 0 <= i <= |meshes|
      invariant writer.buffer + BodyRecords(meshes[i..]) == target
    {
      AppendBodyRecord(writer, meshes, i, target);
      i := i + 1;
    }
    assert meshes[|meshes|..] == [];
  }

  /** The export that follows a fluid frame. Nothing happens unless the
      frame was saved (a positive frame number); then the buffer is rebuilt
      from scratch and flushed under that frame number. */
  method ExportMeshes(writer: MeshWriter, meshes: seq<BodyMesh>, savedFluidFrame: int)
    requires savedFluidFrame > 0 ==> Exportable(meshes)
    modifies writer
    ensures savedFluidFrame > 0 ==>
              && writer.buffer == ExportBuffer(meshes)
              && writer.flushed == old(writer.flushed) + [Flush(savedFluidFrame, ExportBuffer(meshes))]
    ensures savedFluidFrame <= 0 ==> unchanged(writer)
  {
    if savedFluidFrame > 0 {
      writer.buffer := [];
      writer.buffer := writer.buffer + [UInt(ToUInt(|meshes| - 1))];
      AppendBodyRecords(writer, meshes);
      writer.flushed := writer.flushed + [Flush(savedFluidFrame, writer.buffer)];
    }
  }

  // ---------------------------------------------------------------------
  // Reading the buffer back

  /** A triangle soup as read back: corner vertices and corner normals. */
  datatype Soup = Soup(vertices: seq<Vec3>, normals: seq<Vec3>)

  /** What the buffer says: the header value and the soups. */
  datatype Decoded = Decoded(header: nat, soups: seq<Soup>)

  /** The soups of the non-wall bodies, in body order. */
  function Soups(ms: seq<BodyMesh>): (r: seq<Soup>)
    requires Exportable(ms)
  {
    if ms == [] then []
    else (if ms[0].isWall then [] else [Soup(FaceVertices(ms[0]), FaceNormals(ms[0]))]) + Soups(ms[1..])
  }

  /** Reads body records: a count followed by that many vertices and that
      many normals, until the buffer ends. None on a malformed buffer. */
  function DecodeRecords(es: seq<Entry>): Option<seq<Soup>>
  {
    if es == [] then Some([])
    else if |es| >= 3 && es[0].UInt? && es[1].Floats? && es[2].Floats?
            && es[0].n == |es[1].values| && es[0].n == |es[2].values| then
      match DecodeRecords(es[3..])
      case None => None
      case Some(rest) => Some([Soup(es[1].values, es[2].values)] + rest)
    else None
  }

  function Decode(es: seq<Entry>): Option<Decoded> {
    if es == [] || !es[0].UInt? then None
    else
      match DecodeRecords(es[1..])
      case None => None
      case Some(soups) => Some(Decoded(es[0].n, soups))
  }

  /** No body has so many faces that its corner count wraps. */
  predicate CountsFit(ms: seq<BodyMesh>) {
    forall b :: 0 <= b < |ms| ==> 3 * ms[b].nFaces < UIntRange
  }

  lemma {:induction false} RecordsRoundTrip(ms: seq<BodyMesh>)
    requires Exportable(ms) && CountsFit(ms)
    ensures DecodeRecords(BodyRecords(ms)) == Some(Soups(ms))
  {
    if ms != [] {
      assert Exportable(ms[1..]) && CountsFit(ms[1..]);
      RecordsRoundTrip(ms[1..]);
      if !ms[0].isWall {
        var m, tail := ms[0], BodyRecords(ms[1..]);
        var es := BodyRecords(ms);
        assert es == MeshRecord(m) + tail;
        assert es[0] == UInt(3 * m.nFaces);
        assert es[1] == Floats(FaceVertices(m)) && es[2] == Floats(FaceNormals(m));
        assert es[3..] == tail;
        assert |es[1].values| == 3 * m.nFaces && |es[2].values| == 3 * m.nFaces;
        assert DecodeRecords(es) == Some([Soup(es[1].values, es[2].values)] + Soups(ms[1..]));
      } else {
        assert BodyRecords(ms) == BodyRecords(ms[1..]);
        assert Soups(ms) == Soups(ms[1..]);
      }
    }
  }

  /** Decoding the exported buffer gives back the header and, in body order,
      the triangle soup of every non-wall body. */
  lemma ExportRoundTrip(ms: seq<BodyMesh>)
    requires Exportable(ms) && CountsFit(ms)
    ensures Decode(ExportBuffer(ms)) == Some(Decoded(ToUInt(|ms| - 1), Soups(ms)))
  {
    RecordsRoundTrip(ms);
  }

  /** The header is the index of the last rigid body; with no rigid body at
      all the unsigned cast wraps to the largest 32-bit value. */
  lemma HeaderValue(ms: seq<BodyMesh>)
    requires Exportable(ms)
    ensures 1 <= |ms| <= UIntRange ==> ExportBuffer(ms)[0] == UInt(|ms| - 1)
    ensures |ms| == 0 ==> ExportBuffer(ms)[0] == UInt(UIntRange - 1)
  {
  }
}
