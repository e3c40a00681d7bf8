/**
 * str::Graphics and its builder (src/graphics.cpp): a mesh's vertex and index lists, how
 * copies and assignments move them between objects, and the layout `initialize` gives the
 * vertex and index buffers inside one allocation, with the memory types and the queue family
 * it picks. Vulkan calls are replaced by the requirements, memory types and queue families
 * they report.
 */
module GraphicsObjects {
  import opened Wrappers
  import opened Memory

  /** vecs::FamilyType values used for the upload. */
  datatype FamilyType = All | Transfer | Async

  /** The upload queue: the transfer family if the device has one, else async, else all. */
  function UploadFamily(hasTransfer: bool, hasAsync: bool): (f: FamilyType)
    ensures f == Transfer <==> hasTransfer
    ensures f == Async <==> !hasTransfer && hasAsync
    ensures f == All <==> !hasTransfer && !hasAsync
  {
    if hasTransfer then Transfer else if hasAsync then Async else All
  }

  /**
   * The buffer layout of initialize: the vertex buffer at 0 and the index buffer at the first
   * multiple of its alignment at or after the vertex buffer's size; the allocation ends with
   * the index buffer.
   */
  method BufferLayout(vertexReq: Requirements, indexReq: Requirements)
    returns (offset: nat, allocationSize: nat)
    requires vertexReq.alignment > 0 && indexReq.alignment > 0
    ensures Layout([0, offset], allocationSize) == Pack([vertexReq, indexReq])
    ensures offset == AlignedUp(vertexReq.size, indexReq.alignment)
  {
    offset := vertexReq.size;
    var aligned := AlignUp(offset, indexReq.alignment);
    offset := aligned;
    allocationSize := offset + indexReq.size;
    var reqs := [vertexReq, indexReq];
    assert reqs[..1] == [vertexReq] && reqs[..1][..0] == [];
    AlignedUpFixesMultiples(0, vertexReq.alignment);
    assert Pack(reqs[..1]) == Layout([0], vertexReq.size);
  }

  /** The vertex range [0, vsize) and the index range end inside the allocation and do not overlap. */
  lemma BufferLayoutDisjoint(vertexReq: Requirements, indexReq: Requirements)
    requires vertexReq.alignment > 0 && indexReq.alignment > 0
    ensures var l := Pack([vertexReq, indexReq]);
            && l.offsets[0] == 0
            && vertexReq.size <= l.offsets[1]
            && l.offsets[1] + indexReq.size == l.end
            && l.offsets[1] % indexReq.alignment == 0
  {
    var reqs := [vertexReq, indexReq];
    PackDisjoint(reqs);
    PackLayout(reqs);
  }

  class GraphicsBuilder<V> {
    var verts: seq<V>
    var inds: seq<nat>

    constructor()
      ensures verts == [] && inds == []
    {
      verts := [];
      inds := [];
    }

    /** vertices(v): replace the stored vertex list; returns *this. */
    method Vertices(v: seq<V>) returns (self: GraphicsBuilder<V>)
      modifies this
      ensures self == this && verts == v && inds == old(inds)
    {
      verts := v;
      self := this;
    }

    /** indices(i): replace the stored index list; returns *this. */
    method Indices(i: seq<nat>) returns (self: GraphicsBuilder<V>)
      modifies this
      ensures self == this && inds == i && verts == old(verts)
    {
      inds := i;
      self := this;
    }
  }

  class Graphics<V> {
    var vertices: seq<V>
    var indices: seq<nat>
    /** Where initialize placed the index buffer, and the allocation's size. */
    var indexOffset: nat
    var allocationSize: nat
    /** The memory types of the staging and of the device-local allocation. */
    var stagingType: nat
    var deviceType: nat
    var family: FamilyType

    /** indexCount(): the number of indices. */
    function IndexCount(): nat
      reads this
    {
      |indices|
    }

    /** Graphics(builder): take the builder's lists; the builder is left as it was. */
    constructor FromBuilder(builder: GraphicsBuilder<V>)
      ensures vertices == builder.verts && indices == builder.inds
      ensures IndexCount() == |builder.inds|
    {
      vertices := builder.verts;
      indices := builder.inds;
      indexOffset, allocationSize, stagingType, deviceType, family := 0, 0, 0, 0, All;
    }

    /** Graphics(const Graphics&): copy the lists. */
    constructor Copy(other: Graphics<V>)
      ensures vertices == other.vertices && indices == other.indices
    {
      vertices := other.vertices;
      indices := other.indices;
      indexOffset, allocationSize, stagingType, deviceType, family := 0, 0, 0, 0, All;
    }

    /** operator=(const Graphics&): self-assignment changes nothing; otherwise copy the lists. */
    method Assign(other: Graphics<V>) returns (self: Graphics<V>)
      modifies this
      ensures self == this
      ensures vertices == old(other.vertices) && indices == old(other.indices)
      ensures other == this ==> vertices == old(vertices) && indices == old(indices)
      ensures indexOffset == old(indexOffset) && allocationSize == old(allocationSize)
      ensures stagingType == old(stagingType) && deviceType == old(deviceType) && family == old(family)
    {
      if other == this {
        return this;
      }
      vertices := other.vertices;
      indices := other.indices;
      self := this;
    }

    /**
     * operator=(Graphics&&): self-assignment changes nothing; otherwise take the lists and
     * leave the source's lists empty.
     */
    method MoveAssign(other: Graphics<V>) returns (self: Graphics<V>)
      modifies this, other
      ensures self == this
      ensures vertices == old(other.vertices) && indices == old(other.indices)
      ensures other != this ==> other.vertices == [] && other.indices == []
      ensures other != this ==> other.indexOffset == old(other.indexOffset)
                                && other.allocationSize == old(other.allocationSize)
                                && other.stagingType == old(other.stagingType)
                                && other.deviceType == old(other.deviceType)
                                && other.family == old(other.family)
      ensures indexOffset == old(indexOffset) && allocationSize == old(allocationSize)
      ensures stagingType == old(stagingType) && deviceType == old(deviceType) && family == old(family)
    {
      if other == this {
        return this;
      }
      vertices := other.vertices;
      indices := other.indices;
      other.vertices := [];
      other.indices := [];
      self := this;
    }

    /** operator=(const GraphicsBuilder&): take the builder's lists. */
    method AssignBuilder(builder: GraphicsBuilder<V>) returns (self: Graphics<V>)
      modifies this
      ensures self == this
      ensures vertices == builder.verts && indices == builder.inds
      ensures IndexCount() == |builder.inds|
      ensures indexOffset == old(indexOffset) && allocationSize == old(allocationSize)
      ensures stagingType == old(stagingType) && deviceType == old(deviceType) && family == old(family)
    {
      vertices := builder.verts;
      indices := builder.inds;
      self := this;
    }

    /**
     * The bookkeeping of initialize, given the requirements Vulkan reports for the staging and
     * the device buffers, the memory types and the queue families: lay out the staging
     * buffers and pick a host-visible, host-coherent type, then lay out the device buffers
     * and pick a device-local type, then choose the upload family. Either search can throw.
     */
    method Initialize(stagingVertex: Requirements, stagingIndex: Requirements,
                      deviceVertex: Requirements, deviceIndex: Requirements,
                      types: seq<bv32>, hasTransfer: bool, hasAsync: bool) returns (o: Outcome)
      requires stagingVertex.alignment > 0 && stagingIndex.alignment > 0
      requires deviceVertex.alignment > 0 && deviceIndex.alignment > 0
      requires |types| <= MaxMemoryTypes
      modifies this
      ensures vertices == old(vertices) && indices == old(indices)
      ensures var staging := FirstSuitable(stagingVertex.memoryTypeBits | stagingIndex.memoryTypeBits,
                                           types, HostVisible | HostCoherent, 0);
              var device := FirstSuitable(deviceVertex.memoryTypeBits | deviceIndex.memoryTypeBits,
                                          types, DeviceLocal, 0);
              && (o.Fail? <==> staging.Throw? || device.Throw?)
              && (o.Fail? ==> o.error == RuntimeError)
              && (o == Done ==>
                    && stagingType == staging.value && deviceType == device.value
                    && Layout([0, indexOffset], allocationSize) == Pack([deviceVertex, deviceIndex])
                    && family == UploadFamily(hasTransfer, hasAsync))
              && (staging.Throw? ==> stagingType == old(stagingType))
              && (o.Fail? ==>
                    && deviceType == old(deviceType) && indexOffset == old(indexOffset)
                    && allocationSize == old(allocationSize) && family == old(family))
    {
      var offset, size := BufferLayout(stagingVertex, stagingIndex);
      var pick := FindIndex(stagingVertex.memoryTypeBits | stagingIndex.memoryTypeBits,
                            types, HostVisible | HostCoherent);
      FirstSuitableIsLeast(stagingVertex.memoryTypeBits | stagingIndex.memoryTypeBits,
                           types, HostVisible | HostCoherent, 0);
      if pick.Throw? {
        return Fail(pick.error);
      }
      stagingType := pick.value;
      offset, size := BufferLayout(deviceVertex, deviceIndex);
      pick := FindIndex(deviceVertex.memoryTypeBits | deviceIndex.memoryTypeBits, types, DeviceLocal);
      FirstSuitableIsLeast(deviceVertex.memoryTypeBits | deviceIndex.memoryTypeBits,
                           types, DeviceLocal, 0);
      if pick.Throw? {
        return Fail(pick.error);
      }
      deviceType := pick.value;
      indexOffset, allocationSize := offset, size;
      family := All;
      if hasTransfer {
        family := Transfer;
      } else if hasAsync {
        family := Async;
      }
      o := Done;
    }
  }
}
