/**
 * str::Material and its builder (src/material.cpp, src/include/material_templates.hpp): the
 * builder collects shader paths and registers uniform types; the material copies them, packs
 * the uniform buffers into one allocation, enumerates one descriptor write per frame and
 * uniform, and writes a uniform's bytes at its offset when it is updated. A C++ type appears
 * as its typeid name and its size.
 */
module Materials {
  import opened Wrappers
  import opened NatArith
  import opened Memory

  /** A shader stage flag and the path of its SPIR-V file. */
  datatype ShaderPath = ShaderPath(stage: bv32, path: string)

  /** A uniform type T: typeid(T).name() and sizeof(T). */
  datatype UniformType = UniformType(name: string, size: nat)

  /** UniformInfo: binding index, byte size and offset in the material's memory (0 until packed). */
  datatype UniformInfo = UniformInfo(index: nat, size: nat, offset: nat)

  /** One vk::WriteDescriptorSet: the set written, its binding, the buffer and its range. */
  datatype DescriptorWrite = DescriptorWrite(dstSet: nat, binding: nat, buffer: nat, range: nat)

  /** A vk::DescriptorBufferInfo: the buffer a write describes and its range. */
  datatype BufferInfo = BufferInfo(buffer: nat, range: nat)

  /**
   * A vk::WriteDescriptorSet as loadDescriptors builds it: the set and the binding by value;
   * the buffer and the range only through pBufferInfo, the address of the loop-local
   * bufferInfo, which is the same slot in every iteration and so is left implicit.
   */
  datatype PendingWrite = PendingWrite(dstSet: nat, binding: nat)

  /**
   * The index map after registering `types` in order, the first of them getting index `base`:
   * a name already present keeps its index.
   */
  function Registered(m: map<string, nat>, base: nat, types: seq<UniformType>): map<string, nat>
  {
    if |types| == 0 then m
    else
      var before := Registered(m, base, types[..|types| - 1]);
      var t := types[|types| - 1];
      if t.name in before then before else before[t.name := base + |types| - 1]
  }

  /** The entries that registering `types` appends, the first at position `base`. */
  function NewInfos(base: nat, types: seq<UniformType>): (r: seq<UniformInfo>)
    ensures |r| == |types|
    ensures forall k :: 0 <= k < |types| ==> r[k] == UniformInfo(base + k, types[k].size, 0)
  {
    seq(|types|, k requires 0 <= k < |types| => UniformInfo(base + k, types[k].size, 0))
  }

  /** After registration a name is present iff it was before or some registered type has it. */
  lemma {:induction false} RegisteredDomain(m: map<string, nat>, base: nat, types: seq<UniformType>)
    ensures forall name :: name in Registered(m, base, types) <==>
              name in m || exists k :: 0 <= k < |types| && types[k].name == name
  {
    if |types| > 0 {
      var init := types[..|types| - 1];
      RegisteredDomain(m, base, init);
      assert forall k :: 0 <= k < |init| ==> init[k] == types[k];
    }
  }

  /** A name mapped before registration keeps its index. */
  lemma {:induction false} RegisteredKeepsOld(m: map<string, nat>, base: nat, types: seq<UniformType>)
    ensures forall name :: name in m ==> name in Registered(m, base, types)
                                         && Registered(m, base, types)[name] == m[name]
  {
    if |types| > 0 {
      RegisteredKeepsOld(m, base, types[..|types| - 1]);
    }
  }

  /** A new name gets the index of its first registration, later registrations notwithstanding. */
  lemma {:induction false} RegisteredFirstWins(m: map<string, nat>, base: nat, types: seq<UniformType>, k: nat)
    requires k < |types| && types[k].name !in m
    requires forall e :: 0 <= e < k ==> types[e].name != types[k].name
    ensures types[k].name in Registered(m, base, types)
    ensures Registered(m, base, types)[types[k].name] == base + k
  {
    var init := types[..|types| - 1];
    if k < |init| {
      assert init[k] == types[k];
      assert forall e :: 0 <= e < k ==> init[e] == types[e];
      RegisteredFirstWins(m, base, init, k);
    } else {
      RegisteredDomain(m, base, init);
      assert forall e :: 0 <= e < |init| ==> init[e] == types[e];
    }
  }

  /** Every index in the map names an entry when the registration started below `base`. */
  lemma {:induction false} RegisteredBounded(m: map<string, nat>, base: nat, types: seq<UniformType>)
    requires forall name :: name in m ==> m[name] < base
    ensures forall name :: name in Registered(m, base, types) ==>
              Registered(m, base, types)[name] < base + |types|
  {
    if |types| > 0 {
      RegisteredBounded(m, base, types[..|types| - 1]);
    }
  }

  class MaterialBuilder {
    var paths: seq<ShaderPath>
    var indexMap: map<string, nat>
    var uniformInfo: seq<UniformInfo>

    /** Entry i has binding index i and no offset yet, and the map points at entries. */
    predicate Valid()
      reads this
    {
      && (forall i :: 0 <= i < |uniformInfo| ==> uniformInfo[i].index == i && uniformInfo[i].offset == 0)
      && (forall name :: name in indexMap ==> indexMap[name] < |uniformInfo|)
    }

    constructor()
      ensures Valid() && paths == [] && indexMap == map[] && uniformInfo == []
    {
      paths := [];
      indexMap := map[];
      uniformInfo := [];
    }

    /** shader(stage, path): append (stage, path) to the paths; returns *this. */
    method Shader(stage: bv32, path: string) returns (self: MaterialBuilder)
      modifies this
      ensures self == this
      ensures paths == old(paths) + [ShaderPath(stage, path)]
      ensures indexMap == old(indexMap) && uniformInfo == old(uniformInfo)
    {
      paths := paths + [ShaderPath(stage, path)];
      self := this;
    }

    /**
     * uniform<T>(): append an entry with index = the number of entries so far and size
     * sizeof(T), and map T's name to that index unless the name is already mapped.
     */
    method Uniform(t: UniformType)
      requires Valid()
      modifies this
      ensures Valid()
      ensures uniformInfo == old(uniformInfo) + [UniformInfo(|old(uniformInfo)|, t.size, 0)]
      ensures indexMap == Registered(old(indexMap), |old(uniformInfo)|, [t])
      ensures paths == old(paths)
    {
      var info := UniformInfo(|uniformInfo|, t.size, 0);
      if t.name !in indexMap {
        indexMap := indexMap[t.name := info.index];
      }
      uniformInfo := uniformInfo + [info];
    }

    /** uniforms<Ts...>(): register each type in argument order; returns *this. */
    method Uniforms(types: seq<UniformType>) returns (self: MaterialBuilder)
      requires Valid()
      modifies this
      ensures Valid() && self == this
      ensures uniformInfo == old(uniformInfo) + NewInfos(|old(uniformInfo)|, types)
      ensures indexMap == Registered(old(indexMap), |old(uniformInfo)|, types)
      ensures paths == old(paths)
    {
      var i := 0;
      while i < |types|
        invariant i <= |types| && Valid()
        invariant uniformInfo == old(uniformInfo) + NewInfos(|old(uniformInfo)|, types[..i])
        invariant indexMap == Registered(old(indexMap), |old(uniformInfo)|, types[..i])
        invariant paths == old(paths)
      {
        Uniform(types[i]);
        assert types[..i + 1][..i] == types[..i];
        i := i + 1;
      }
      assert types[..i] == types;
      self := this;
    }
  }

  /** A fresh builder given uniforms<Ts...>() numbers the types 0, 1, ... in argument order. */
  lemma FreshRegistry(types: seq<UniformType>, k: nat)
    requires k < |types|
    requires forall e :: 0 <= e < k ==> types[e].name != types[k].name
    ensures NewInfos(0, types)[k] == UniformInfo(k, types[k].size, 0)
    ensures types[k].name in Registered(map[], 0, types)
    ensures Registered(map[], 0, types)[types[k].name] == k
  {
    RegisteredFirstWins(map[], 0, types, k);
  }

  /** The descriptor writes of frames 0..n-1, each frame writing every uniform in order. */
  function FrameWrites(infos: seq<UniformInfo>, sets: seq<seq<nat>>, n: nat): seq<DescriptorWrite>
    requires n <= |sets| && forall f :: 0 <= f < |sets| ==> |sets[f]| == |infos|
  {
    if n == 0 then []
    else FrameWrites(infos, sets, n - 1) + UniformWrites(infos, sets[n - 1], |infos|)
  }

  /** The writes of one frame's first n uniforms: set j, binding index_j, buffer j, range size_j. */
  function UniformWrites(infos: seq<UniformInfo>, frameSets: seq<nat>, n: nat): seq<DescriptorWrite>
    requires n <= |infos| == |frameSets|
  {
    if n == 0 then []
    else UniformWrites(infos, frameSets, n - 1)
         + [DescriptorWrite(frameSets[n - 1], infos[n - 1].index, n - 1, infos[n - 1].size)]
  }

  /** One frame's writes are one per uniform, write j describing uniform j. */
  lemma {:induction false} UniformWritesAt(infos: seq<UniformInfo>, frameSets: seq<nat>, n: nat)
    requires n <= |infos| == |frameSets|
    ensures |UniformWrites(infos, frameSets, n)| == n
    ensures forall j :: 0 <= j < n ==>
              UniformWrites(infos, frameSets, n)[j]
              == DescriptorWrite(frameSets[j], infos[j].index, j, infos[j].size)
  {
    if n > 0 {
      UniformWritesAt(infos, frameSets, n - 1);
    }
  }

  /** Write (i, j) of the frame-major enumeration is at i |infos| + j. */
  lemma WriteBefore(u: nat, n: nat, i: nat, j: nat)
    requires i < n && j < u
    ensures i * u + j < n * u
  {
    MulMonotone(i + 1, n, u);
  }

  /** loadDescriptors writes max_flight_frames x |uniformInfo| descriptors. */
  lemma {:induction false} FrameWritesLength(infos: seq<UniformInfo>, sets: seq<seq<nat>>, n: nat)
    requires n <= |sets| && forall f :: 0 <= f < |sets| ==> |sets[f]| == |infos|
    ensures |FrameWrites(infos, sets, n)| == n * |infos|
  {
    if n > 0 {
      FrameWritesLength(infos, sets, n - 1);
      UniformWritesAt(infos, sets[n - 1], |infos|);
      assert n * |infos| == (n - 1) * |infos| + |infos|;
    }
  }

  /**
   * Write (i, j), at position i |uniformInfo| + j, targets frame i's set j at binding
   * uniformInfo[j].index, buffer j, with range uniformInfo[j].size.
   */
  lemma {:induction false} FrameWriteAt(infos: seq<UniformInfo>, sets: seq<seq<nat>>, n: nat, i: nat, j: nat)
    requires n <= |sets| && forall f :: 0 <= f < |sets| ==> |sets[f]| == |infos|
    requires i < n && j < |infos|
    ensures i * |infos| + j < |FrameWrites(infos, sets, n)|
    ensures FrameWrites(infos, sets, n)[i * |infos| + j]
            == DescriptorWrite(sets[i][j], infos[j].index, j, infos[j].size)
  {
    FrameWritesLength(infos, sets, n);
    FrameWritesLength(infos, sets, n - 1);
    WriteBefore(|infos|, n, i, j);
    if i < n - 1 {
      WriteBefore(|infos|, n - 1, i, j);
      FrameWriteAt(infos, sets, n - 1, i, j);
    } else {
      UniformWritesAt(infos, sets[n - 1], |infos|);
      assert i * |infos| == (n - 1) * |infos|;
    }
  }

  /** The writes with their buffer and range left behind pBufferInfo. */
  function Pending(ws: seq<DescriptorWrite>): (r: seq<PendingWrite>)
    ensures |r| == |ws|
  {
    seq(|ws|, k requires 0 <= k < |ws| => PendingWrite(ws[k].dstSet, ws[k].binding))
  }

  lemma PendingAppend(ws: seq<DescriptorWrite>, w: DescriptorWrite)
    ensures Pending(ws + [w]) == Pending(ws) + [PendingWrite(w.dstSet, w.binding)]
  {
    assert forall k :: 0 <= k < |ws| ==> (ws + [w])[k] == ws[k];
  }

  /** What updateDescriptorSets reads: every pending write completed from the one slot. */
  function ReadThroughSlot(pending: seq<PendingWrite>, slot: BufferInfo): (r: seq<DescriptorWrite>)
    ensures |r| == |pending|
  {
    seq(|pending|, k requires 0 <= k < |pending| =>
          DescriptorWrite(pending[k].dstSet, pending[k].binding, slot.buffer, slot.range))
  }

  /** What the loop-local bufferInfo holds after the last iteration over `infos`. */
  function LastBufferInfo(infos: seq<UniformInfo>): BufferInfo
    requires |infos| > 0
  {
    BufferInfo(|infos| - 1, infos[|infos| - 1].size)
  }

  /**
   * The writes updateDescriptorSets receives from loadDescriptors AS WRITTEN: the sets and
   * bindings of FrameWrites, with every buffer and range read through the one slot, which
   * holds the last uniform's info.
   */
  function SharedSlotWrites(infos: seq<UniformInfo>, sets: seq<seq<nat>>, n: nat)
    : (r: seq<DescriptorWrite>)
    requires n <= |sets| && forall f :: 0 <= f < |sets| ==> |sets[f]| == |infos|
    ensures |r| == |FrameWrites(infos, sets, n)|
  {
    if |infos| == 0 then FrameWrites(infos, sets, n)
    else ReadThroughSlot(Pending(FrameWrites(infos, sets, n)), LastBufferInfo(infos))
  }

  /** As written, every write carries the same buffer and range: the last uniform's. */
  lemma SharedSlotOneInfo(infos: seq<UniformInfo>, sets: seq<seq<nat>>, n: nat)
    requires n <= |sets| && forall f :: 0 <= f < |sets| ==> |sets[f]| == |infos|
    requires |infos| > 0
    ensures forall k :: 0 <= k < |SharedSlotWrites(infos, sets, n)| ==>
              SharedSlotWrites(infos, sets, n)[k].buffer == |infos| - 1
              && SharedSlotWrites(infos, sets, n)[k].range == infos[|infos| - 1].size
  {
    var w := SharedSlotWrites(infos, sets, n);
    assert w == ReadThroughSlot(Pending(FrameWrites(infos, sets, n)), LastBufferInfo(infos));
  }

  /**
   * As written, write (i, j) targets the right set and binding but carries buffer
   * |uniformInfo| - 1 and its range.
   */
  lemma SharedSlotWriteAt(infos: seq<UniformInfo>, sets: seq<seq<nat>>, n: nat, i: nat, j: nat,
                          k: nat)
    requires n <= |sets| && forall f :: 0 <= f < |sets| ==> |sets[f]| == |infos|
    requires i < n && j < |infos| && k == i * |infos| + j
    ensures k < |SharedSlotWrites(infos, sets, n)|
    ensures SharedSlotWrites(infos, sets, n)[k]
            == DescriptorWrite(sets[i][j], infos[j].index, |infos| - 1, infos[|infos| - 1].size)
  {
    var u := |infos|;
    var fw := FrameWrites(infos, sets, n);
    var w := SharedSlotWrites(infos, sets, n);
    FrameWriteAt(infos, sets, n, i, j);
    assert w == ReadThroughSlot(Pending(fw), LastBufferInfo(infos));
    assert w[k] == DescriptorWrite(fw[k].dstSet, fw[k].binding, u - 1, infos[u - 1].size);
  }

  /** As written, write (i, j) is the intended one exactly when j is the last uniform. */
  lemma SharedSlotAgreesIff(infos: seq<UniformInfo>, sets: seq<seq<nat>>, n: nat, i: nat, j: nat,
                            k: nat)
    requires n <= |sets| && forall f :: 0 <= f < |sets| ==> |sets[f]| == |infos|
    requires i < n && j < |infos| && k == i * |infos| + j
    ensures k < |FrameWrites(infos, sets, n)|
    ensures SharedSlotWrites(infos, sets, n)[k] == FrameWrites(infos, sets, n)[k] <==> j == |infos| - 1
  {
    SharedSlotWriteAt(infos, sets, n, i, j, k);
    FrameWriteAt(infos, sets, n, i, j);
  }

  /** Two uniforms of 64 and 16 bytes: the first write describes buffer 1 with range 16. */
  lemma SharedSlotCounterexample()
    ensures SharedSlotWrites([UniformInfo(0, 64, 0), UniformInfo(1, 16, 64)], [[7, 8]], 1)[0]
            == DescriptorWrite(7, 0, 1, 16)
    ensures FrameWrites([UniformInfo(0, 64, 0), UniformInfo(1, 16, 64)], [[7, 8]], 1)[0]
            == DescriptorWrite(7, 0, 0, 64)
  {
    var infos := [UniformInfo(0, 64, 0), UniformInfo(1, 16, 64)];
    FrameWriteAt(infos, [[7, 8]], 1, 0, 0);
  }

  lemma PendingConcat(a: seq<DescriptorWrite>, b: seq<DescriptorWrite>)
    ensures Pending(a + b) == Pending(a) + Pending(b)
  {
    assert forall k :: 0 <= k < |a| ==> (a + b)[k] == a[k];
    assert forall k :: 0 <= k < |b| ==> (a + b)[|a| + k] == b[k];
  }

  /**
   * The inner loop of loadDescriptors as written, for one frame: record each write's set and
   * binding, and overwrite the one bufferInfo slot with uniform j's buffer and range.
   */
  method AppendFrameAsWritten(infos: seq<UniformInfo>, frameSets: seq<nat>,
                              pending0: seq<PendingWrite>, slot0: BufferInfo)
    returns (pending: seq<PendingWrite>, slot: BufferInfo)
    requires |frameSets| == |infos|
    ensures pending == pending0 + Pending(UniformWrites(infos, frameSets, |infos|))
    ensures slot == if |infos| == 0 then slot0 else LastBufferInfo(infos)
  {
    pending, slot := pending0, slot0;
    var j := 0;
    while j < |infos|
      invariant j <= |infos|
      invariant pending == pending0 + Pending(UniformWrites(infos, frameSets, j))
      invariant slot == if j == 0 then slot0 else BufferInfo(j - 1, infos[j - 1].size)
    {
      var w := DescriptorWrite(frameSets[j], infos[j].index, j, infos[j].size);
      PendingAppend(UniformWrites(infos, frameSets, j), w);
      slot := BufferInfo(j, infos[j].size);
      pending := pending + [PendingWrite(frameSets[j], infos[j].index)];
      j := j + 1;
    }
  }

  /** The memory after updateUniforms(args...): each known type's bytes at its offset, in order. */
  function Updated(memory: map<nat, seq<bv8>>, indexMap: map<string, nat>, infos: seq<UniformInfo>,
                   updates: seq<(UniformType, seq<bv8>)>): map<nat, seq<bv8>>
    requires forall name :: name in indexMap ==> indexMap[name] < |infos|
  {
    if |updates| == 0 then memory
    else
      var before := Updated(memory, indexMap, infos, updates[..|updates| - 1]);
      var (t, data) := updates[|updates| - 1];
      if t.name !in indexMap then before else before[infos[indexMap[t.name]].offset := data]
  }

  /** Updates of unregistered types leave the memory as it is. */
  lemma {:induction false} UpdatedIgnoresUnknown(memory: map<nat, seq<bv8>>, indexMap: map<string, nat>,
                                                infos: seq<UniformInfo>, updates: seq<(UniformType, seq<bv8>)>)
    requires forall name :: name in indexMap ==> indexMap[name] < |infos|
    requires forall k :: 0 <= k < |updates| ==> updates[k].0.name !in indexMap
    ensures Updated(memory, indexMap, infos, updates) == memory
  {
    if |updates| > 0 {
      UpdatedIgnoresUnknown(memory, indexMap, infos, updates[..|updates| - 1]);
    }
  }

  class Material {
    /** VECS_SETTINGS.max_flight_frames(). */
    const flight: nat
    var paths: seq<ShaderPath>
    var indexMap: map<string, nat>
    var uniformInfo: seq<UniformInfo>
    var allocationSize: nat
    var memoryType: nat
    /** The bytes written into the material's memory, by offset. */
    var memory: map<nat, seq<bv8>>
    /** The descriptor sets of each frame, one per uniform. */
    var descriptorSets: seq<seq<nat>>
    var writes: seq<DescriptorWrite>

    /** Every mapped name points at an entry. */
    predicate Valid()
      reads this
    {
      forall name :: name in indexMap ==> indexMap[name] < |uniformInfo|
    }

    /** Material(builder): copy paths, indexMap and uniformInfo. */
    constructor(builder: MaterialBuilder, maxFlightFrames: nat)
      requires builder.Valid()
      ensures Valid() && flight == maxFlightFrames
      ensures paths == builder.paths && indexMap == builder.indexMap
      ensures uniformInfo == builder.uniformInfo
      ensures memory == map[] && descriptorSets == [] && writes == []
    {
      flight := maxFlightFrames;
      paths := builder.paths;
      indexMap := builder.indexMap;
      uniformInfo := builder.uniformInfo;
      allocationSize := 0;
      memoryType := 0;
      memory := map[];
      descriptorSets := [];
      writes := [];
    }

    /** operator=(builder): copy paths, indexMap and uniformInfo; nothing else changes. */
    method Assign(builder: MaterialBuilder)
      requires builder.Valid()
      modifies this
      ensures Valid()
      ensures paths == builder.paths && indexMap == builder.indexMap
      ensures uniformInfo == builder.uniformInfo
      ensures memory == old(memory) && descriptorSets == old(descriptorSets) && writes == old(writes)
      ensures allocationSize == old(allocationSize) && memoryType == old(memoryType)
    {
      paths := builder.paths;
      indexMap := builder.indexMap;
      uniformInfo := builder.uniformInfo;
    }

    /**
     * allocateUniforms, with the requirements Vulkan reports for each uniform buffer: every
     * entry's offset becomes its packed offset and nothing else in it changes; the allocation
     * spans the packed buffers; the memory type is the first host-visible, host-coherent one
     * that the union of the buffers' memory-type bits allows.
     */
    method AllocateUniforms(reqs: seq<Requirements>, types: seq<bv32>) returns (o: Outcome)
      requires Valid() && |reqs| == |uniformInfo| && Alignable(reqs) && |types| <= MaxMemoryTypes
      modifies this
      ensures Valid()
      ensures |uniformInfo| == |old(uniformInfo)|
      ensures forall i :: 0 <= i < |uniformInfo| ==>
                uniformInfo[i] == old(uniformInfo[i]).(offset := Pack(reqs).offsets[i])
      ensures allocationSize == Pack(reqs).end
      ensures var pick := FirstSuitable(UnionOfBits(reqs), types, HostVisible | HostCoherent, 0);
              && (o.Fail? <==> pick.Throw?)
              && (o.Fail? ==> o.error == RuntimeError)
              && (o == Done ==> memoryType == pick.value)
              && (o.Fail? ==> memoryType == old(memoryType))
      ensures indexMap == old(indexMap) && paths == old(paths) && memory == old(memory)
      ensures descriptorSets == old(descriptorSets) && writes == old(writes)
    {
      var size := 0;
      var filter: bv32 := 0;
      var i := 0;
      while i < |uniformInfo|
        invariant i <= |uniformInfo| == |old(uniformInfo)|
        invariant size == Pack(reqs[..i]).end && filter == UnionOfBits(reqs[..i])
        invariant forall k :: 0 <= k < i ==>
                    uniformInfo[k] == old(uniformInfo[k]).(offset := Pack(reqs[..i]).offsets[k])
        invariant forall k :: i <= k < |uniformInfo| ==> uniformInfo[k] == old(uniformInfo[k])
        invariant indexMap == old(indexMap) && paths == old(paths) && memory == old(memory)
        invariant descriptorSets == old(descriptorSets) && writes == old(writes)
        invariant memoryType == old(memoryType)
      {
        assert reqs[..i + 1][..i] == reqs[..i];
        var info := uniformInfo[i];
        size := AlignUp(size, reqs[i].alignment);
        info := info.(offset := size);
        uniformInfo := uniformInfo[i := info];
        size := size + reqs[i].size;
        filter := filter | reqs[i].memoryTypeBits;
        i := i + 1;
      }
      assert reqs[..i] == reqs;
      allocationSize := size;
      var pick := FindIndex(filter, types, HostVisible | HostCoherent);
      FirstSuitableIsLeast(filter, types, HostVisible | HostCoherent, 0);
      if pick.Throw? {
        return Fail(pick.error);
      }
      memoryType := pick.value;
      o := Done;
    }

    /**
     * loadDescriptors, with the descriptor sets Vulkan allocates for each frame: for every
     * frame i and uniform j, write frame i's set j at binding uniformInfo[j].index, buffer j,
     * range uniformInfo[j].size.
     */
    method LoadDescriptors(given: seq<seq<nat>>)
      requires |given| == flight
      requires forall f :: 0 <= f < |given| ==> |given[f]| == |uniformInfo|
      modifies this
      ensures indexMap == old(indexMap) && uniformInfo == old(uniformInfo) && paths == old(paths)
      ensures descriptorSets == old(descriptorSets) + given
      ensures writes == FrameWrites(uniformInfo, given, flight)
      ensures memory == old(memory) && allocationSize == old(allocationSize)
      ensures memoryType == old(memoryType)
    {
      var all := [];
      var i := 0;
      while i < flight
        invariant i <= flight
        invariant indexMap == old(indexMap) && uniformInfo == old(uniformInfo) && paths == old(paths)
        invariant descriptorSets == old(descriptorSets) + given[..i]
        invariant all == FrameWrites(uniformInfo, given, i)
        invariant memory == old(memory) && allocationSize == old(allocationSize)
        invariant memoryType == old(memoryType)
      {
        descriptorSets := descriptorSets + [given[i]];
        var j := 0;
        while j < |uniformInfo|
          invariant j <= |uniformInfo|
          invariant all == FrameWrites(uniformInfo, given, i)
                           + UniformWrites(uniformInfo, given[i], j)
        {
          all := all + [DescriptorWrite(given[i][j], uniformInfo[j].index, j, uniformInfo[j].size)];
          j := j + 1;
        }
        assert given[..i + 1] == given[..i] + [given[i]];
        i := i + 1;
      }
      assert given[..i] == given;
      writes := all;
    }

    /**
     * loadDescriptors AS WRITTEN: each write keeps the address of the loop-local bufferInfo,
     * so when updateDescriptorSets reads them after the loops, every write finds what that
     * slot last held. (The C++ reads a dead local, which is undefined behaviour; the model
     * takes the slot's last contents.)
     */
    method LoadDescriptorsAsWritten(given: seq<seq<nat>>)
      requires |given| == flight
      requires forall f :: 0 <= f < |given| ==> |given[f]| == |uniformInfo|
      modifies this
      ensures indexMap == old(indexMap) && uniformInfo == old(uniformInfo) && paths == old(paths)
      ensures descriptorSets == old(descriptorSets) + given
      ensures writes == SharedSlotWrites(uniformInfo, given, flight)
      ensures memory == old(memory) && allocationSize == old(allocationSize)
      ensures memoryType == old(memoryType)
    {
      var pending: seq<PendingWrite> := [];
      var slot := BufferInfo(0, 0);
      var i := 0;
      while i < flight
        invariant i <= flight
        invariant indexMap == old(indexMap) && uniformInfo == old(uniformInfo) && paths == old(paths)
        invariant descriptorSets == old(descriptorSets) + given[..i]
        invariant pending == Pending(FrameWrites(uniformInfo, given, i))
        invariant i > 0 && |uniformInfo| > 0 ==> slot == LastBufferInfo(uniformInfo)
        invariant memory == old(memory) && allocationSize == old(allocationSize)
        invariant memoryType == old(memoryType)
      {
        descriptorSets := descriptorSets + [given[i]];
        PendingConcat(FrameWrites(uniformInfo, given, i), UniformWrites(uniformInfo, given[i], |uniformInfo|));
        pending, slot := AppendFrameAsWritten(uniformInfo, given[i], pending, slot);
        assert given[..i + 1] == given[..i] + [given[i]];
        i := i + 1;
      }
      assert given[..i] == given;
      if |uniformInfo| == 0 {
        FrameWritesLength(uniformInfo, given, flight);
      }
      writes := ReadThroughSlot(pending, slot);
    }

    /** descriptorSets(frame): the frame's sets, copied in order. */
    method DescriptorSets(frame: nat) returns (sets: seq<nat>)
      requires frame < |descriptorSets|
      ensures sets == descriptorSets[frame]
    {
      sets := [];
      var i := 0;
      while i < |descriptorSets[frame]|
        invariant i <= |descriptorSets[frame]|
        invariant sets == descriptorSets[frame][..i]
      {
        sets := sets + [descriptorSets[frame][i]];
        i := i + 1;
      }
      assert descriptorSets[frame][..i] == descriptorSets[frame];
    }

    /**
     * updateUniform<T>(data): nothing happens when T was never registered; otherwise T's bytes
     * are written at the offset of T's entry.
     */
    method UpdateUniform(t: UniformType, data: seq<bv8>)
      requires Valid()
      modifies this
      ensures Valid() && indexMap == old(indexMap) && uniformInfo == old(uniformInfo)
      ensures t.name !in indexMap ==> memory == old(memory)
      ensures t.name in indexMap ==> memory == old(memory)[uniformInfo[indexMap[t.name]].offset := data]
      ensures memory == Updated(old(memory), indexMap, uniformInfo, [(t, data)])
      ensures paths == old(paths)
      ensures descriptorSets == old(descriptorSets) && writes == old(writes)
      ensures allocationSize == old(allocationSize) && memoryType == old(memoryType)
    {
      if t.name !in indexMap {
        return;
      }
      var info := uniformInfo[indexMap[t.name]];
      memory := memory[info.offset := data];
    }

    /** updateUniforms(args...): updateUniform for each argument in order. */
    method UpdateUniforms(updates: seq<(UniformType, seq<bv8>)>)
      requires Valid()
      modifies this
      ensures Valid() && indexMap == old(indexMap) && uniformInfo == old(uniformInfo)
      ensures memory == Updated(old(memory), indexMap, uniformInfo, updates)
      ensures paths == old(paths)
      ensures descriptorSets == old(descriptorSets) && writes == old(writes)
      ensures allocationSize == old(allocationSize) && memoryType == old(memoryType)
    {
      var i := 0;
      while i < |updates|
        invariant i <= |updates|
        invariant Valid() && indexMap == old(indexMap) && uniformInfo == old(uniformInfo)
        invariant memory == Updated(old(memory), indexMap, uniformInfo, updates[..i])
        invariant paths == old(paths)
        invariant descriptorSets == old(descriptorSets) && writes == old(writes)
        invariant allocationSize == old(allocationSize) && memoryType == old(memoryType)
      {
        assert updates[..i + 1][..i] == updates[..i];
        UpdateUniform(updates[i].0, updates[i].1);
        i := i + 1;
      }
      assert updates[..i] == updates;
    }
  }
}
