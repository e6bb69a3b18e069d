/**
  The client's mesh assembly: per-block mesh pieces (`MeshInformation`),
  the builder that concatenates many of them into one mesh with running
  index renumbering (`CosmosMeshBuilder`), and the six-face mesh record of
  a block (`BlockMeshInformation`).

  Positions, normals and texture coordinates are exact reals; indices are
  the u32 values of the source, with the u32 -> i32 -> u32 casts of the
  index bookkeeping written out.
 */
module Rendering {
  import opened Vectors

  const U32_LIMIT: nat := 0x1_0000_0000
  const I32_LIMIT: nat := 0x8000_0000

  // ---------------------------------------------------------------------
  // Integer casts
  // ---------------------------------------------------------------------

  /** The `as i32` cast of a u32: values from 2^31 up wrap to negatives. */
  function AsI32(u: nat): (v: int)
    requires u < U32_LIMIT
    ensures -(I32_LIMIT as int) <= v < I32_LIMIT
    ensures u < I32_LIMIT ==> v == u
  {
    if u < I32_LIMIT then u else u - U32_LIMIT
  }

  /** The `as u32` cast of an i32: two's complement reinterpretation. */
  function AsU32(v: int): (u: nat)
    requires -(I32_LIMIT as int) <= v < I32_LIMIT
    ensures u < U32_LIMIT
    ensures v >= 0 ==> u == v
  {
    if v >= 0 then v else v + U32_LIMIT
  }

  /** The two casts undo each other. */
  lemma CastsRoundTrip(u: nat)
    requires u < U32_LIMIT
    ensures AsU32(AsI32(u)) == u
  {
  }

  function MaxInt(a: int, b: int): int { if a < b then b else a }

  predicate AllU32(s: seq<nat>) {
    forall i | 0 <= i < |s| :: s[i] < U32_LIMIT
  }

  /**
    The running maximum of the add loop: starts at -1 and takes the
    maximum with each index cast to i32.
   */
  function MaxSigned(indices: seq<nat>): (m: int)
    requires AllU32(indices)
    ensures -1 <= m < I32_LIMIT
  {
    if indices == [] then -1
    else MaxInt(MaxSigned(indices[..|indices| - 1]), AsI32(indices[|indices| - 1]))
  }

  /** The running maximum is an upper bound that is attained, or -1 for no indices. */
  lemma {:induction false} MaxSignedIsMaximum(indices: seq<nat>)
    requires AllU32(indices)
    ensures forall i | 0 <= i < |indices| :: AsI32(indices[i]) <= MaxSigned(indices)
    ensures indices == [] ==> MaxSigned(indices) == -1
    ensures MaxSigned(indices) == -1 || exists i | 0 <= i < |indices| :: AsI32(indices[i]) == MaxSigned(indices)
  {
    if indices != [] {
      var prefix := indices[..|indices| - 1];
      var last := indices[|indices| - 1];
      assert AllU32(prefix) by {
        assert forall i | 0 <= i < |prefix| :: prefix[i] == indices[i];
      }
      MaxSignedIsMaximum(prefix);
      assert forall i | 0 <= i < |prefix| :: prefix[i] == indices[i];
      if MaxSigned(prefix) < AsI32(last) {
        assert AsI32(indices[|indices| - 1]) == MaxSigned(indices);
      } else if MaxSigned(prefix) != -1 {
        var i :| 0 <= i < |prefix| && AsI32(prefix[i]) == MaxSigned(prefix);
        assert AsI32(indices[i]) == MaxSigned(indices);
      }
    }
  }

  /**
    For indices below 2^31 the casts are exact, so the last-index step
    `max_index + 1` is 0 for no indices and otherwise one more than the
    largest index; every index lies below it.
   */
  lemma {:induction false} StepOfSmallIndices(indices: seq<nat>)
    requires forall i | 0 <= i < |indices| :: indices[i] < I32_LIMIT - 1
    ensures AllU32(indices)
    ensures 0 <= MaxSigned(indices) + 1 < I32_LIMIT
    ensures indices == [] ==> AsU32(MaxSigned(indices) + 1) == 0
    ensures forall i | 0 <= i < |indices| :: indices[i] < AsU32(MaxSigned(indices) + 1)
    ensures indices != [] ==> exists i | 0 <= i < |indices| :: indices[i] + 1 == AsU32(MaxSigned(indices) + 1)
  {
    assert AllU32(indices);
    MaxSignedIsMaximum(indices);
    if indices != [] {
      var i :| 0 <= i < |indices| && AsI32(indices[i]) == MaxSigned(indices);
      assert indices[i] + 1 == AsU32(MaxSigned(indices) + 1);
    }
  }

  // ---------------------------------------------------------------------
  // Mesh pieces
  // ---------------------------------------------------------------------

  /** Component-wise product. */
  function Scaled(v: Vec3, scale: Vec3): Vec3 {
    Vec3(v.x * scale.x, v.y * scale.y, v.z * scale.z)
  }

  /** The vertex data of one mesh piece. */
  class MeshInformation {
    var indices: seq<nat>
    var uvs: seq<Vec2>
    var positions: seq<Vec3>
    var normals: seq<Vec3>

    constructor (indices: seq<nat>, uvs: seq<Vec2>, positions: seq<Vec3>, normals: seq<Vec3>)
      ensures this.indices == indices && this.uvs == uvs
      ensures this.positions == positions && this.normals == normals
    {
      this.indices := indices;
      this.uvs := uvs;
      this.positions := positions;
      this.normals := normals;
    }

    /** Every index names one of the piece's positions. */
    predicate WellFormed()
      reads this
    {
      forall i | 0 <= i < |indices| :: indices[i] < |positions|
    }

    /** Scales every position component-wise, in place. */
    method Scale(scale: Vec3)
      modifies this
      ensures |positions| == |old(positions)|
      ensures forall i | 0 <= i < |positions| :: positions[i] == Scaled(old(positions[i]), scale)
      ensures indices == old(indices) && uvs == old(uvs) && normals == old(normals)
      ensures WellFormed() <==> old(WellFormed())
    {
      var i := 0;
      while i < |positions|
        invariant 0 <= i <= |positions| == |old(positions)|
        invariant forall j | 0 <= j < i :: positions[j] == Scaled(old(positions[j]), scale)
        invariant forall j | i <= j < |positions| :: positions[j] == old(positions[j])
        invariant indices == old(indices) && uvs == old(uvs) && normals == old(normals)
      {
        positions := positions[i := Scaled(positions[i], scale)];
        i := i + 1;
      }
    }
  }

  // ---------------------------------------------------------------------
  // The mesh builder
  // ---------------------------------------------------------------------

  /** A texture coordinate of the unit square mapped into an atlas rectangle. */
  function MapUv(uv: Vec2, r: Rect): Vec2 {
    Vec2(uv.x * (r.max.x - r.min.x) + r.min.x, uv.y * (r.max.y - r.min.y) + r.min.y)
  }

  /** A fraction of a non-negative length lies between 0 and the length. */
  lemma UnitScaleBound(t: real, d: real)
    requires 0.0 <= t <= 1.0 && 0.0 <= d
    ensures 0.0 <= t * d <= d
  {
    assert d - t * d == (1.0 - t) * d;
  }

  /** The unit square's corners go to the rectangle's corners. */
  lemma MapUvCorners(r: Rect)
    ensures MapUv(Vec2(0.0, 0.0), r) == r.min && MapUv(Vec2(1.0, 1.0), r) == r.max
  {
  }

  /** A point of the unit square lands inside the rectangle. */
  lemma MapUvIntoRect(uv: Vec2, r: Rect)
    requires r.min.x <= r.max.x && r.min.y <= r.max.y
    requires 0.0 <= uv.x <= 1.0 && 0.0 <= uv.y <= 1.0
    ensures r.min.x <= MapUv(uv, r).x <= r.max.x && r.min.y <= MapUv(uv, r).y <= r.max.y
  {
    UnitScaleBound(uv.x, r.max.x - r.min.x);
    UnitScaleBound(uv.y, r.max.y - r.min.y);
  }

  /** Concatenates mesh pieces into one vertex and index buffer. */
  class CosmosMeshBuilder {
    var lastIndex: nat
    var indices: seq<nat>
    var uvs: seq<Vec2>
    var positions: seq<Vec3>
    var normals: seq<Vec3>

    /** The empty builder. */
    constructor ()
      ensures lastIndex == 0 && indices == [] && uvs == [] && positions == [] && normals == []
      ensures IndicesInRange()
    {
      lastIndex := 0;
      indices := [];
      uvs := [];
      positions := [];
      normals := [];
    }

    /**
      Every index lies below the next piece's base index, which does not
      pass the number of positions: every index names a position.
     */
    predicate IndicesInRange()
      reads this
    {
      (forall i | 0 <= i < |indices| :: indices[i] < lastIndex) && lastIndex <= |positions|
    }

    /**
      Appends a mesh piece placed at `position` with its texture in `rect`:
      its positions translated, its normals as they are, its texture
      coordinates mapped into the rectangle and its indices shifted by the
      current base index, which then grows by one more than the piece's
      largest index. The requirements are the absence of u32 and i32
      overflow on the way. The base index stays equal to the number of
      positions only for a piece whose largest index is its last vertex;
      while it does, `RenumberingNamesOwnVertices` shows that each appended
      index names the piece's own translated vertex.
     */
    method AddMeshInformation(info: MeshInformation, position: Vec3, rect: Rect)
      requires AllU32(info.indices) && lastIndex < U32_LIMIT
      requires forall i | 0 <= i < |info.indices| :: info.indices[i] + lastIndex < U32_LIMIT
      requires MaxSigned(info.indices) + 1 < I32_LIMIT
      requires lastIndex + AsU32(MaxSigned(info.indices) + 1) < U32_LIMIT
      modifies this
      ensures TranslatedAppend(old(positions), info.positions, position, positions)
      ensures normals == old(normals) + info.normals
      ensures MappedAppend(old(uvs), info.uvs, rect, uvs)
      ensures ShiftedAppend(old(indices), info.indices, old(lastIndex), indices)
      ensures lastIndex == old(lastIndex) + AsU32(MaxSigned(info.indices) + 1)
      ensures old(IndicesInRange()) && info.WellFormed() && (forall i | 0 <= i < |info.indices| :: info.indices[i] < I32_LIMIT - 1)
              ==> IndicesInRange()
      ensures AsU32(MaxSigned(info.indices) + 1) == |info.positions| ==>
                (lastIndex == |positions| <==> old(lastIndex) == |old(positions)|)
    {
      ghost var count0, last0, indices0 := |positions|, lastIndex, indices;
      ghost var inRange := IndicesInRange();
      AppendVertices(info, position, rect);
      var maxIndex := PushIndices(info);
      if inRange && info.WellFormed() && (forall i | 0 <= i < |info.indices| :: info.indices[i] < I32_LIMIT - 1) {
        RenumberingKeepsRange(indices0, last0, count0, info.indices, |info.positions|, indices);
      }
      lastIndex := lastIndex + AsU32(maxIndex + 1);
    }

    /** The vertex half of `AddMeshInformation`: positions, normals and texture coordinates. */
    method AppendVertices(info: MeshInformation, position: Vec3, rect: Rect)
      modifies this
      ensures TranslatedAppend(old(positions), info.positions, position, positions)
      ensures normals == old(normals) + info.normals
      ensures MappedAppend(old(uvs), info.uvs, rect, uvs)
      ensures indices == old(indices) && lastIndex == old(lastIndex)
    {
      var src := info.positions;
      positions := positions + seq(|src|, i requires 0 <= i < |src| => Add(src[i], position));
      normals := normals + info.normals;
      var tex := info.uvs;
      uvs := uvs + seq(|tex|, i requires 0 <= i < |tex| => MapUv(tex[i], rect));
    }

    /**
      The index half of `AddMeshInformation`: pushes each index shifted by
      the base index and returns the running i32 maximum.
     */
    method PushIndices(info: MeshInformation) returns (maxIndex: int)
      requires AllU32(info.indices)
      modifies this
      ensures ShiftedAppend(old(indices), info.indices, lastIndex, indices)
      ensures maxIndex == MaxSigned(info.indices)
      ensures lastIndex == old(lastIndex) && positions == old(positions) && normals == old(normals) && uvs == old(uvs)
    {
      maxIndex := -1;
      var k := 0;
      ghost var base := |indices|;
      while k < |info.indices|
        invariant 0 <= k <= |info.indices|
        invariant |indices| == base + k && indices[..base] == old(indices)
        invariant forall i | 0 <= i < k :: indices[base + i] == info.indices[i] + lastIndex
        invariant maxIndex == MaxSigned(info.indices[..k])
        invariant lastIndex == old(lastIndex) && positions == old(positions) && normals == old(normals) && uvs == old(uvs)
      {
        assert info.indices[..k + 1][..k] == info.indices[..k];
        indices := indices + [info.indices[k] + lastIndex];
        maxIndex := MaxInt(maxIndex, AsI32(info.indices[k]));
        k := k + 1;
      }
      assert info.indices[..k] == info.indices;
    }
  }

  /**
    Appending a well-formed piece whose indices are below 2^31 - 1 keeps
    every index of the builder below the new base index, and the new base
    index within the new number of positions.
   */
  lemma RenumberingKeepsRange(before: seq<nat>, last: nat, count: nat, piece: seq<nat>, pieceCount: nat, after: seq<nat>)
    requires (forall i | 0 <= i < |before| :: before[i] < last) && last <= count
    requires forall i | 0 <= i < |piece| :: piece[i] < pieceCount && piece[i] < I32_LIMIT - 1
    requires AllU32(piece) && MaxSigned(piece) + 1 < I32_LIMIT
    requires ShiftedAppend(before, piece, last, after)
    ensures forall i | 0 <= i < |after| :: after[i] < last + AsU32(MaxSigned(piece) + 1)
    ensures last + AsU32(MaxSigned(piece) + 1) <= count + pieceCount
  {
    StepOfSmallIndices(piece);
    if piece != [] {
      var j :| 0 <= j < |piece| && piece[j] + 1 == AsU32(MaxSigned(piece) + 1);
    }
    forall i | 0 <= i < |after|
      ensures after[i] < last + AsU32(MaxSigned(piece) + 1)
    {
      if i < |before| {
        assert after[i] == after[..|before|][i];
      } else {
        assert after[i] == piece[i - |before|] + last;
      }
    }
  }

  /** `after` is `before` followed by the piece's positions translated by `position`. */
  predicate TranslatedAppend(before: seq<Vec3>, piece: seq<Vec3>, position: Vec3, after: seq<Vec3>) {
    && |after| == |before| + |piece| && after[..|before|] == before
    && forall i | 0 <= i < |piece| :: after[|before| + i] == Add(piece[i], position)
  }

  /** `after` is `before` followed by the piece's texture coordinates mapped into `rect`. */
  predicate MappedAppend(before: seq<Vec2>, piece: seq<Vec2>, rect: Rect, after: seq<Vec2>) {
    && |after| == |before| + |piece| && after[..|before|] == before
    && forall i | 0 <= i < |piece| :: after[|before| + i] == MapUv(piece[i], rect)
  }

  /** `after` is `before` followed by the piece's indices shifted by `shift`. */
  predicate ShiftedAppend(before: seq<nat>, piece: seq<nat>, shift: nat, after: seq<nat>) {
    && |after| == |before| + |piece| && after[..|before|] == before
    && forall i | 0 <= i < |piece| :: after[|before| + i] == piece[i] + shift
  }

  /**
    The indices from `indexBase` on are the piece's indices `piece`, each
    naming, among `positions`, the piece's own vertex translated by
    `position`.
   */
  predicate NamesOwnVertices(indices: seq<nat>, indexBase: nat, positions: seq<Vec3>,
                             piece: seq<nat>, piecePositions: seq<Vec3>, position: Vec3)
  {
    && |indices| == indexBase + |piece|
    && forall k | indexBase <= k < |indices| ::
         && indices[k] < |positions|
         && piece[k - indexBase] < |piecePositions|
         && positions[indices[k]] == Add(piecePositions[piece[k - indexBase]], position)
  }

  /**
    When a well-formed piece's vertices are appended after the existing
    ones and its indices are shifted by the number of existing vertices,
    as `AddMeshInformation` does while its base index equals that number,
    each shifted index names the piece's own translated vertex.
   */
  lemma RenumberingNamesOwnVertices(before: seq<Vec3>, piecePositions: seq<Vec3>, position: Vec3, positions: seq<Vec3>,
                                    indicesBefore: seq<nat>, piece: seq<nat>, indices: seq<nat>)
    requires TranslatedAppend(before, piecePositions, position, positions)
    requires forall i | 0 <= i < |piece| :: piece[i] < |piecePositions|
    requires ShiftedAppend(indicesBefore, piece, |before|, indices)
    ensures NamesOwnVertices(indices, |indicesBefore|, positions, piece, piecePositions, position)
  {
    var base, indexBase := |before|, |indicesBefore|;
    forall k | indexBase <= k < |indices|
      ensures indices[k] < |positions| &&
              positions[indices[k]] == Add(piecePositions[piece[k - indexBase]], position)
    {
      assert k - indexBase < |piece|;
      var j := piece[k - indexBase];
      assert indices[indexBase + (k - indexBase)] == j + base;
      assert positions[base + j] == Add(piecePositions[j], position);
    }
  }

  // ---------------------------------------------------------------------
  // Block meshes
  // ---------------------------------------------------------------------

  /** The six faces of a block. */
  datatype BlockFace = Right | Left | Top | Bottom | Front | Back {
    /** The face's slot in a block's mesh record. */
    function Index(): (i: nat)
      ensures i < 6
    {
      match this
      case Right => 0
      case Left => 1
      case Top => 2
      case Bottom => 3
      case Front => 4
      case Back => 5
    }
  }

  /** Distinct faces have distinct slots, and every slot has a face. */
  lemma FaceIndexBijective(a: BlockFace, b: BlockFace, i: nat)
    ensures a.Index() == b.Index() ==> a == b
    ensures i < 6 ==> exists f: BlockFace :: f.Index() == i
  {
    if i < 6 {
      var f := if i == 0 then Right else if i == 1 then Left else if i == 2 then Top
               else if i == 3 then Bottom else if i == 4 then Front else Back;
      assert f.Index() == i;
    }
  }

  /** The mesh pieces of a block, one per face, with its registry id and name. */
  class BlockMeshInformation {
    /** The face meshes, in the slot order of `BlockFace.Index`. */
    const meshInfo: seq<MeshInformation>
    var id: nat
    const unlocalizedName: string

    /** A block mesh record with id 0, faces given in slot order. */
    constructor (unlocalizedName: string, right: MeshInformation, left: MeshInformation, top: MeshInformation,
                 bottom: MeshInformation, front: MeshInformation, back: MeshInformation)
      ensures meshInfo == [right, left, top, bottom, front, back]
      ensures id == 0 && this.unlocalizedName == unlocalizedName
      ensures Valid()
    {
      meshInfo := [right, left, top, bottom, front, back];
      id := 0;
      this.unlocalizedName := unlocalizedName;
    }

    /** The record holds one mesh per face. */
    predicate Valid() {
      |meshInfo| == 6
    }

    /** The mesh of one face. */
    function InfoForFace(face: BlockFace): (m: MeshInformation)
      requires Valid()
      ensures m == meshInfo[face.Index()]
    {
      meshInfo[face.Index()]
    }

    /** Each face returns the mesh given for it at construction. */
    lemma InfoForFaceInConstructorOrder(right: MeshInformation, left: MeshInformation, top: MeshInformation,
                                        bottom: MeshInformation, front: MeshInformation, back: MeshInformation)
      requires meshInfo == [right, left, top, bottom, front, back]
      ensures InfoForFace(Right) == right && InfoForFace(Left) == left && InfoForFace(Top) == top
      ensures InfoForFace(Bottom) == bottom && InfoForFace(Front) == front && InfoForFace(Back) == back
    {
    }

    function Id(): nat
      reads this
    {
      id
    }

    function UnlocalizedName(): string {
      unlocalizedName
    }

    /** Records the registry id; `Id` then reports it. */
    method SetNumericId(newId: nat)
      requires newId < 0x1_0000
      modifies this
      ensures Id() == newId
    {
      id := newId;
    }
  }
}
