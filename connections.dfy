// The connections registry of the particle engine (`ParticleSystemConnections`):
// the CPU-side tables of collision primitives, force fields and instance mesh
// patches, held by value, plus the instance vertex stream and the terrain
// texture id. The GPU storage buffers these tables are uploaded to are not
// part of this model.
module Connections {
  import opened CppInt

  /** One collision primitive, as laid out for the simulation shader. */
  type TCollision(==, 0)
  /** One force field, as laid out for the simulation shader. */
  type TForce(==, 0)
  /** The vertex stream shared by all instance patches. */
  type TInstanceVertexStream(==, 0)

  /** The value-initialised `TCollision()` that a growing resize appends. */
  const DefaultCollision: TCollision
  /** The value-initialised `TForce()` that a growing resize appends. */
  const DefaultForce: TForce

  /** One sub-patch of the instanced mesh: a range of the vertex stream and the
      texture bound while drawing it. */
  datatype TMeshPatch = TMeshPatch(offset: UInt32, size: UInt32, texId: UInt32)

  /** The value-initialised `TMeshPatch()`. */
  const DefaultPatch: TMeshPatch := TMeshPatch(0, 0, 0)

  /** `std::vector::resize(n)`: the first `n` entries are kept, entries past
      `n` are dropped and the new tail is filled with `fill`. */
  function Resized<T>(s: seq<T>, n: nat, fill: T): (r: seq<T>)
    ensures |r| == n
    ensures forall i :: 0 <= i < |s| && i < n ==> r[i] == s[i]
    ensures forall i :: |s| <= i < n ==> r[i] == fill
  {
    if n <= |s| then s[..n] else s + seq(n - |s|, _ => fill)
  }

  class ParticleSystemConnections {
    var instanceVertex: TInstanceVertexStream
    var instanceMesh: seq<TMeshPatch>
    var collisionData: seq<TCollision>
    var forcesData: seq<TForce>
    var textureTerrain: UInt32

    /** The table sizes stay within what the `int`/`unsigned int` count
        parameters of the setters can produce. */
    ghost predicate Valid()
      reads this
    {
      |collisionData| <= Int32Max && |forcesData| <= Int32Max && |instanceMesh| <= UInt32Max
    }

    constructor ()
      ensures Valid()
      ensures collisionData == [] && forcesData == [] && instanceMesh == []
      ensures textureTerrain == 0
    {
      collisionData := [];
      forcesData := [];
      instanceMesh := [];
      textureTerrain := 0;
    }

    /** The number of collision primitives, as the `int` cast of the table size. */
    function GetNumberOfCollisions(): (r: Int32)
      reads this
      requires Valid()
      ensures r == |collisionData|
    {
      SizeToInt(|collisionData|)
    }

    /** The number of force fields, as the `int` cast of the table size. */
    function GetNumberOfForces(): (r: Int32)
      reads this
      requires Valid()
      ensures r == |forcesData|
    {
      SizeToInt(|forcesData|)
    }

    /** The number of instance patches, as the `int` cast of the table size; a
        table longer than `INT_MAX` (reachable, since the count is set through an
        `unsigned int`) reads back negative. */
    function GetNumberOfInstanceSubPatches(): (r: Int32)
      reads this
      requires Valid()
      ensures |instanceMesh| <= Int32Max ==> r == |instanceMesh|
      ensures |instanceMesh| > Int32Max ==> r < 0 && r == |instanceMesh| - TwoTo32
    {
      SizeToInt(|instanceMesh|)
    }

    /** The stream stored by the last `SetInstanceVertexStream`. */
    function GetInstanceVertexStream(): (stream: TInstanceVertexStream)
      reads this
      ensures stream == instanceVertex
    {
      instanceVertex
    }

    /** The patch table, as a value. */
    function GetInstanceMeshVector(): (patches: seq<TMeshPatch>)
      reads this
      ensures patches == instanceMesh
    {
      instanceMesh
    }

    function GetTextureTerrain(): (textureId: UInt32)
      reads this
      ensures textureId == textureTerrain
    {
      textureTerrain
    }

    method SetTextureTerrain(textureId: UInt32)
      modifies this`textureTerrain
      ensures GetTextureTerrain() == textureId
    {
      textureTerrain := textureId;
    }

    /** Resizes the collision table to `count` entries. */
    method SetCollisionsCount(count: Int32)
      requires Valid()
      requires count >= 0
      modifies this`collisionData
      ensures Valid()
      ensures GetNumberOfCollisions() == count
      ensures collisionData == Resized(old(collisionData), count, DefaultCollision)
    {
      collisionData := Resized(collisionData, count, DefaultCollision);
    }

    /** Overwrites collision entry `index`. */
    method SetCollisionData(index: Int32, data: TCollision)
      requires Valid()
      requires 0 <= index < |collisionData|
      modifies this`collisionData
      ensures Valid()
      ensures collisionData == old(collisionData)[index := data]
      ensures GetNumberOfCollisions() == old(GetNumberOfCollisions())
    {
      collisionData := collisionData[index := data];
    }

    /** Resizes the force table to `count` entries. */
    method SetForcesCount(count: Int32)
      requires Valid()
      requires count >= 0
      modifies this`forcesData
      ensures Valid()
      ensures GetNumberOfForces() == count
      ensures forcesData == Resized(old(forcesData), count, DefaultForce)
    {
      forcesData := Resized(forcesData, count, DefaultForce);
    }

    /** Overwrites force entry `index`. */
    method SetForceData(index: Int32, data: TForce)
      requires Valid()
      requires 0 <= index < |forcesData|
      modifies this`forcesData
      ensures Valid()
      ensures forcesData == old(forcesData)[index := data]
      ensures GetNumberOfForces() == old(GetNumberOfForces())
    {
      forcesData := forcesData[index := data];
    }

    /** Stores the shared vertex stream and resizes the patch table to
        `patchCount` entries. */
    method SetInstanceVertexStream(stream: TInstanceVertexStream, patchCount: UInt32)
      requires Valid()
      modifies this`instanceVertex, this`instanceMesh
      ensures Valid()
      ensures GetInstanceVertexStream() == stream
      ensures |instanceMesh| == patchCount
      ensures instanceMesh == Resized(old(instanceMesh), patchCount, DefaultPatch)
      ensures patchCount <= Int32Max ==> GetNumberOfInstanceSubPatches() == patchCount
    {
      instanceVertex := stream;
      instanceMesh := Resized(instanceMesh, patchCount, DefaultPatch);
    }

    /** Describes instance patch `index`. */
    method SetInstancePatchData(index: Int32, offset: UInt32, size: UInt32, texId: UInt32)
      requires Valid()
      requires 0 <= index < |instanceMesh|
      modifies this`instanceMesh
      ensures Valid()
      ensures instanceMesh == old(instanceMesh)[index := TMeshPatch(offset, size, texId)]
      ensures GetNumberOfInstanceSubPatches() == old(GetNumberOfInstanceSubPatches())
    {
      instanceMesh := instanceMesh[index := TMeshPatch(offset, size, texId)];
    }
  }
}
