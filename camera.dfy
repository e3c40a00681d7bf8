/**
 * The state str::Camera (src/camera.cpp) keeps outside the GPU: the near-plane dimensions
 * set by adjustNearPlane / adjustFOV, the buffer list and packed offsets of allocateUniforms,
 * and what updateSSBO writes into the mapped storage buffer of a frame. Vulkan objects are
 * replaced by the memory requirements and memory types they report.
 */
module Cameras {
  import opened Wrappers
  import opened Scalar
  import opened LinAlgVec
  import opened Memory

  /** The buffers allocateUniforms creates, in order. */
  datatype BufferKind = VertexBuffer | IndexBuffer | StorageBuffer

  /** What the camera writes into its device memory at an offset. */
  datatype Blob<T> = Vertices(points: seq<Vector>) | Indices(ids: seq<nat>)
                   | Ssbo(count: nat, transforms: seq<T>)

  /** The full-screen quad copied into the vertex buffer. */
  const QuadVertices: seq<Vector> := [[-1.0, -1.0], [-1.0, 1.0], [1.0, 1.0], [1.0, -1.0]]

  /** The two triangles of the quad, copied into the index buffer. */
  const QuadIndices: seq<nat> := [0, 1, 2, 2, 3, 0]

  /** The near-plane height for a near distance and a field of view in degrees. */
  function NearPlaneHeight(m: Math, np: real, fov: real): (h: real)
    ensures 0.0 < np && 0.0 < m.tan(Radians(m, fov) / 2.0) ==> 0.0 < h
    ensures np == 0.0 ==> h == 0.0
  {
    2.0 * np * m.tan(Radians(m, fov) / 2.0)
  }

  /** The buffer list: vertex, index, then one storage buffer per frame in flight. */
  method CameraBuffers(flight: nat) returns (buffers: seq<BufferKind>)
    ensures |buffers| == 2 + flight
    ensures buffers[0] == VertexBuffer && buffers[1] == IndexBuffer
    ensures forall f :: 2 <= f < 2 + flight ==> buffers[f] == StorageBuffer
  {
    buffers := [VertexBuffer, IndexBuffer];
    var i := 0;
    while i < flight
      invariant i <= flight
      invariant |buffers| == 2 + i
      invariant buffers[0] == VertexBuffer && buffers[1] == IndexBuffer
      invariant forall f :: 2 <= f < 2 + i ==> buffers[f] == StorageBuffer
    {
      buffers := buffers + [StorageBuffer];
      i := i + 1;
    }
  }

  /**
   * The slots of the fixed transform array that the copy loop of updateSSBO writes, paired
   * with the values written: one per input transform, with no bound check.
   */
  function SsboWritesAsWritten<T>(transforms: seq<T>): (w: seq<(nat, T)>)
    ensures |w| == |transforms|
    ensures forall i :: 0 <= i < |w| ==> w[i] == (i, transforms[i])
  {
    seq(|transforms|, i requires 0 <= i < |transforms| => (i, transforms[i]))
  }

  /** With more transforms than the array holds, the copy writes slot `capacity`, past its end. */
  lemma SsboCopyOverflows<T>(capacity: nat, transforms: seq<T>)
    requires |transforms| > capacity
    ensures exists w :: w in SsboWritesAsWritten(transforms) && w.0 >= capacity
  {
    assert SsboWritesAsWritten(transforms)[capacity].0 == capacity;
  }

  class Camera<T> {
    /** VECS_SETTINGS.max_flight_frames(). */
    const flight: nat
    /** STR_MAX_TRANSFORMS, the length of the SSBO's transform array. */
    const capacity: nat
    /** VECS_SETTINGS.aspect_ratio(). */
    const aspect: real
    /** A default-constructed Transform, the content of unused SSBO slots. */
    const blank: T

    /** Near-plane width, height and distance. */
    var npDims: Vector
    var buffers: seq<BufferKind>
    var offsets: seq<nat>
    var allocationSize: nat
    var memoryType: nat
    /** The device memory the camera has written, by offset. */
    var memory: map<nat, Blob<T>>

    /** The near plane is three numbers and its width is the aspect ratio times its height. */
    predicate Valid()
      reads this
    {
      |npDims| == 3 && npDims[0] == aspect * npDims[1]
    }

    /** allocateUniforms has laid out one buffer per list entry. */
    predicate Allocated()
      reads this
    {
      |buffers| == 2 + flight && |offsets| == 2 + flight
    }

    /** Camera(np, fov): adjustNearPlane(np) followed by adjustFOV(fov); nothing allocated yet. */
    constructor(m: Math, np: real, fov: real, maxFlightFrames: nat, maxTransforms: nat,
                aspectRatio: real, defaultTransform: T)
      ensures Valid()
      ensures flight == maxFlightFrames && capacity == maxTransforms && aspect == aspectRatio
      ensures blank == defaultTransform
      ensures |npDims| == 3 && npDims[2] == np
      ensures npDims[1] == NearPlaneHeight(m, np, fov)
      ensures npDims[0] == aspectRatio * NearPlaneHeight(m, np, fov)
      ensures buffers == [] && offsets == [] && memory == map[]
    {
      flight := maxFlightFrames;
      capacity := maxTransforms;
      aspect := aspectRatio;
      blank := defaultTransform;
      buffers := [];
      offsets := [];
      allocationSize := 0;
      memoryType := 0;
      memory := map[];
      npDims := Zero(3);
      new;
      AdjustNearPlane(np);
      AdjustFov(m, fov);
    }

    /** adjustNearPlane(np): only the near-plane distance changes. */
    method AdjustNearPlane(np: real)
      requires |npDims| == 3
      modifies this
      ensures npDims == old(npDims)[2 := np]
      ensures npDims[0] == old(npDims[0]) && npDims[1] == old(npDims[1]) && npDims[2] == np
      ensures buffers == old(buffers) && offsets == old(offsets) && memory == old(memory)
      ensures allocationSize == old(allocationSize) && memoryType == old(memoryType)
    {
      npDims := npDims[2 := np];
    }

    /**
     * adjustFOV(fov): the height becomes 2 np tan(radians(fov) / 2), the width the aspect ratio
     * times the height, and the distance stays.
     */
    method AdjustFov(m: Math, fov: real)
      requires |npDims| == 3
      modifies this
      ensures Valid()
      ensures |npDims| == 3
      ensures npDims[2] == old(npDims[2])
      ensures npDims[1] == NearPlaneHeight(m, old(npDims[2]), fov)
      ensures npDims[0] == aspect * NearPlaneHeight(m, old(npDims[2]), fov)
      ensures buffers == old(buffers) && offsets == old(offsets) && memory == old(memory)
      ensures allocationSize == old(allocationSize) && memoryType == old(memoryType)
    {
      var height := NearPlaneHeight(m, npDims[2], fov);
      var width := aspect * height;
      npDims := npDims[0 := width][1 := height];
    }

    /**
     * allocateUniforms: create the buffer list, pack the buffers (with the requirements Vulkan
     * reports for them) into one allocation, pick a host-visible, host-coherent memory type
     * allowed for the vertex buffer, and write the quad's vertices and indices. The offsets are
     * recorded before the memory-type search can throw.
     */
    method AllocateUniforms(reqs: seq<Requirements>, types: seq<bv32>) returns (o: Outcome)
      requires buffers == [] && offsets == []
      requires |reqs| == 2 + flight && Alignable(reqs) && |types| <= MaxMemoryTypes
      modifies this
      ensures Allocated()
      ensures buffers[0] == VertexBuffer && buffers[1] == IndexBuffer
      ensures forall f :: 2 <= f < 2 + flight ==> buffers[f] == StorageBuffer
      ensures Layout(offsets, allocationSize) == Pack(reqs)
      ensures var pick := FirstSuitable(reqs[0].memoryTypeBits, types, HostVisible | HostCoherent, 0);
              && (o.Fail? <==> pick.Throw?)
              && (o.Fail? ==> o.error == RuntimeError && memory == old(memory))
              && (o == Done ==> memoryType == pick.value
                                && memory == old(memory)[0 := Vertices(QuadVertices)]
                                                        [offsets[1] := Indices(QuadIndices)])
      ensures npDims == old(npDims)
    {
      buffers := CameraBuffers(flight);
      var size;
      offsets, size := PackOffsets(reqs);
      allocationSize := size;
      var pick := FindIndex(reqs[0].memoryTypeBits, types, HostVisible | HostCoherent);
      FirstSuitableIsLeast(reqs[0].memoryTypeBits, types, HostVisible | HostCoherent, 0);
      if pick.Throw? {
        return Fail(pick.error);
      }
      memoryType := pick.value;
      memory := memory[0 := Vertices(QuadVertices)];
      memory := memory[offsets[1] := Indices(QuadIndices)];
      o := Done;
    }

    /**
     * updateSSBO(frame, transforms), with the bound check the copy needs: more transforms
     * than the SSBO holds throw out_of_range; otherwise the SSBO of `frame` receives the
     * count and the transforms, default transforms filling the rest of the array.
     */
    method UpdateSsbo(frame: nat, transforms: seq<T>) returns (o: Outcome)
      requires Allocated() && frame < flight
      modifies this
      ensures npDims == old(npDims) && buffers == old(buffers) && offsets == old(offsets)
      ensures allocationSize == old(allocationSize) && memoryType == old(memoryType)
      ensures |transforms| > capacity ==> o == Fail(OutOfRange) && memory == old(memory)
      ensures |transforms| <= capacity ==>
                o == Done
                && memory == old(memory)[offsets[frame + 2] :=
                     Ssbo(|transforms|, transforms + seq(capacity - |transforms|, _ => blank))]
    {
      if |transforms| > capacity {
        return Fail(OutOfRange);
      }
      var tforms := new T[capacity](_ => blank);
      var i := 0;
      while i < |transforms|
        invariant i <= |transforms|
        modifies tforms
        invariant tforms[..] == transforms[..i] + seq(capacity - i, _ => blank)
      {
        tforms[i] := transforms[i];
        i := i + 1;
        assert tforms[..] == transforms[..i] + seq(capacity - i, _ => blank) by {
          forall k | 0 <= k < capacity
            ensures tforms[k] == (transforms[..i] + seq(capacity - i, _ => blank))[k]
          {
          }
        }
      }
      assert transforms[..i] == transforms;
      memory := memory[offsets[frame + 2] := Ssbo(|transforms|, tforms[..])];
      o := Done;
    }
  }

  /** The storage buffers of different frames occupy disjoint ranges of the allocation. */
  lemma FrameSsbosDisjoint(reqs: seq<Requirements>, f: nat, g: nat)
    requires Alignable(reqs) && f < g && g + 2 < |reqs|
    ensures Pack(reqs).offsets[f + 2] + reqs[f + 2].size <= Pack(reqs).offsets[g + 2]
  {
    PackDisjoint(reqs);
  }
}
