/**
 * Device-memory bookkeeping shared by Camera, Material and Graphics (src/camera.cpp,
 * src/material.cpp, src/graphics.cpp): the memory-type search `findIndex`, the alignment loop
 * `while (size % alignment != 0) ++size`, and the packing of several buffers into one
 * allocation, one aligned offset after another.
 */
module Memory {
  import opened Wrappers
  import opened NatArith

  /** vk::MemoryPropertyFlagBits used by the program. */
  const DeviceLocal: bv32 := 0x1
  const HostVisible: bv32 := 0x2
  const HostCoherent: bv32 := 0x4

  /** Vulkan reports at most VK_MAX_MEMORY_TYPES = 32 memory types. */
  const MaxMemoryTypes: nat := 32

  /** The flags wanted: every bit of `flags` is set in `available`. */
  predicate Contains(available: bv32, flags: bv32)
  {
    available & flags == flags
  }

  /** Bit i of `filter` is set. */
  predicate Allows(filter: bv32, i: nat)
    requires i < MaxMemoryTypes
  {
    filter & ((1 as bv32) << i) != 0
  }

  /** Memory type i passes the filter and has every requested property flag. */
  predicate Suitable(filter: bv32, types: seq<bv32>, flags: bv32, i: nat)
    requires |types| <= MaxMemoryTypes
  {
    i < |types| && Allows(filter, i) && Contains(types[i], flags)
  }

  /** The first suitable memory type at or after `from`, or runtime_error. */
  function FirstSuitable(filter: bv32, types: seq<bv32>, flags: bv32, from: nat): Result<nat>
    requires |types| <= MaxMemoryTypes
    decreases |types| - from
  {
    if from >= |types| then Throw(RuntimeError)
    else if Suitable(filter, types, flags, from) then Ok(from)
    else FirstSuitable(filter, types, flags, from + 1)
  }

  /** FirstSuitable finds the least suitable index at or after `from`, and throws iff there is none. */
  lemma {:induction false} FirstSuitableIsLeast(filter: bv32, types: seq<bv32>, flags: bv32, from: nat)
    requires |types| <= MaxMemoryTypes
    ensures var r := FirstSuitable(filter, types, flags, from);
            && (r.Ok? ==> from <= r.value && Suitable(filter, types, flags, r.value)
                          && forall j :: from <= j < r.value ==> !Suitable(filter, types, flags, j))
            && (r.Throw? <==> forall j :: from <= j ==> !Suitable(filter, types, flags, j))
            && (r.Throw? ==> r.error == RuntimeError)
    decreases |types| - from
  {
    if from < |types| && !Suitable(filter, types, flags, from) {
      FirstSuitableIsLeast(filter, types, flags, from + 1);
    }
  }

  /**
   * findIndex: scan the memory types in order and return the first whose filter bit is set and
   * whose property flags contain `flags`; throw runtime_error when none does.
   */
  method FindIndex(filter: bv32, types: seq<bv32>, flags: bv32) returns (r: Result<nat>)
    requires |types| <= MaxMemoryTypes
    ensures r == FirstSuitable(filter, types, flags, 0)
  {
    var i := 0;
    while i < |types|
      invariant i <= |types|
      invariant FirstSuitable(filter, types, flags, 0) == FirstSuitable(filter, types, flags, i)
    {
      if filter & ((1 as bv32) << i) != 0 && types[i] & flags == flags {
        return Ok(i);
      }
      i := i + 1;
    }
    return Throw(RuntimeError);
  }

  /** A filter with more bits set never makes findIndex pick a later type or fail where it succeeded. */
  lemma WiderFilterFindsNoLater(filter: bv32, more: bv32, types: seq<bv32>, flags: bv32)
    requires |types| <= MaxMemoryTypes
    ensures var narrow := FirstSuitable(filter, types, flags, 0);
            var wide := FirstSuitable(filter | more, types, flags, 0);
            narrow.Ok? ==> wide.Ok? && wide.value <= narrow.value
  {
    FirstSuitableIsLeast(filter, types, flags, 0);
    FirstSuitableIsLeast(filter | more, types, flags, 0);
    var narrow := FirstSuitable(filter, types, flags, 0);
    if narrow.Ok? {
      var i := narrow.value;
      OrAllows(filter, more, i);
      assert Suitable(filter | more, types, flags, i);
    }
  }

  // ---------------------------------------------------------------- alignment

  /** The smallest multiple of `alignment` that is at least `size`. */
  function AlignedUp(size: nat, alignment: nat): nat
    requires alignment > 0
  {
    ((size + alignment - 1) / alignment) * alignment
  }

  /** AlignedUp is a multiple of the alignment in [size, size + alignment). */
  lemma AlignedUpBounds(size: nat, alignment: nat)
    requires alignment > 0
    ensures var r := AlignedUp(size, alignment);
            r % alignment == 0 && size <= r < size + alignment
  {
    var a := alignment;
    var q := (size + a - 1) / a;
    assert size + a - 1 == q * a + (size + a - 1) % a;
    DivModUnique(q * a, a, q, 0);
  }

  /** No multiple of the alignment lies in [size, AlignedUp(size, alignment)). */
  lemma AlignedUpIsLeast(size: nat, alignment: nat, k: nat)
    requires alignment > 0 && size <= k < AlignedUp(size, alignment)
    ensures k % alignment != 0
  {
    var a := alignment;
    var q := (size + a - 1) / a;
    assert size + a - 1 == q * a + (size + a - 1) % a;
    assert q * a <= size + a - 1;
    if k % a == 0 {
      var p := k / a;
      assert k == p * a;
      if q <= p {
        MulMonotone(q, p, a);
      } else {
        MulMonotone(p + 1, q, a);
      }
    }
  }

  /** An aligned size stays where it is. */
  lemma AlignedUpFixesMultiples(size: nat, alignment: nat)
    requires alignment > 0 && size % alignment == 0
    ensures AlignedUp(size, alignment) == size
  {
    AlignedUpBounds(size, alignment);
    if size < AlignedUp(size, alignment) {
      AlignedUpIsLeast(size, alignment, size);
    }
  }

  /** `while (size % alignment != 0) ++size`: bump size to the next multiple of the alignment. */
  method AlignUp(size: nat, alignment: nat) returns (r: nat)
    requires alignment > 0
    ensures r == AlignedUp(size, alignment)
  {
    AlignedUpBounds(size, alignment);
    r := size;
    while r % alignment != 0
      invariant size <= r <= AlignedUp(size, alignment)
      decreases AlignedUp(size, alignment) - r
    {
      r := r + 1;
    }
    if r < AlignedUp(size, alignment) {
      AlignedUpIsLeast(size, alignment, r);
    }
  }

  // ---------------------------------------------------------------- packing

  /** vk::MemoryRequirements of one buffer. */
  datatype Requirements = Requirements(size: nat, alignment: nat, memoryTypeBits: bv32)

  /** Vulkan reports alignments that are powers of two, so never 0. */
  predicate Alignable(reqs: seq<Requirements>)
  {
    forall i :: 0 <= i < |reqs| ==> reqs[i].alignment > 0
  }

  /** The offset of every buffer and the end of the last one. */
  datatype Layout = Layout(offsets: seq<nat>, end: nat)

  /**
   * Buffers placed one after another from offset 0: each at the first multiple of its
   * alignment at or after the previous buffer's end.
   */
  function Pack(reqs: seq<Requirements>): (l: Layout)
    requires Alignable(reqs)
    ensures |l.offsets| == |reqs|
  {
    if |reqs| == 0 then Layout([], 0)
    else
      var before := Pack(reqs[..|reqs| - 1]);
      var last := reqs[|reqs| - 1];
      var offset := AlignedUp(before.end, last.alignment);
      Layout(before.offsets + [offset], offset + last.size)
  }

  /**
   * The packing loop of allocateUniforms / the camera's buffers: align the running size,
   * record it as the buffer's offset, then advance it by the buffer's size.
   */
  method PackOffsets(reqs: seq<Requirements>) returns (offsets: seq<nat>, size: nat)
    requires Alignable(reqs)
    ensures Layout(offsets, size) == Pack(reqs)
  {
    offsets := [];
    size := 0;
    var i := 0;
    while i < |reqs|
      invariant i <= |reqs|
      invariant Layout(offsets, size) == Pack(reqs[..i])
    {
      assert reqs[..i + 1][..i] == reqs[..i];
      size := AlignUp(size, reqs[i].alignment);
      offsets := offsets + [size];
      size := size + reqs[i].size;
      i := i + 1;
    }
    assert reqs[..i] == reqs;
  }

  /**
   * The packed layout, buffer by buffer: one offset per buffer, the first at 0, each the least
   * aligned offset at or after the previous end, and the end just past the last buffer.
   */
  lemma {:induction false} PackLayout(reqs: seq<Requirements>)
    requires Alignable(reqs)
    ensures |Pack(reqs).offsets| == |reqs|
    ensures |reqs| > 0 ==> Pack(reqs).offsets[0] == 0
    ensures forall i :: 0 < i < |reqs| ==>
              Pack(reqs).offsets[i]
              == AlignedUp(Pack(reqs).offsets[i - 1] + reqs[i - 1].size, reqs[i].alignment)
    ensures forall i :: 0 <= i < |reqs| ==> Pack(reqs).offsets[i] % reqs[i].alignment == 0
    ensures |reqs| == 0 ==> Pack(reqs).end == 0
    ensures forall i :: i == |reqs| - 1 >= 0 ==>
              Pack(reqs).end == Pack(reqs).offsets[i] + reqs[i].size
  {
    if |reqs| > 0 {
      var init := reqs[..|reqs| - 1];
      var last := reqs[|reqs| - 1];
      PackLayout(init);
      AlignedUpBounds(Pack(init).end, last.alignment);
      if |init| == 0 {
        AlignedUpFixesMultiples(0, last.alignment);
      } else {
        assert Pack(reqs).offsets[0] == Pack(init).offsets[0];
      }
    }
  }

  /**
   * The packed buffers do not overlap and all fit in the allocation: every buffer starts at or
   * after the end of each earlier one, and ends at or before the allocation's end.
   */
  lemma {:induction false} PackDisjoint(reqs: seq<Requirements>)
    requires Alignable(reqs)
    ensures |Pack(reqs).offsets| == |reqs|
    ensures forall i, j :: 0 <= i < j < |reqs| ==>
              Pack(reqs).offsets[i] + reqs[i].size <= Pack(reqs).offsets[j]
    ensures forall i :: 0 <= i < |reqs| ==> Pack(reqs).offsets[i] + reqs[i].size <= Pack(reqs).end
  {
    PackLayout(reqs);
    if |reqs| > 0 {
      var init := reqs[..|reqs| - 1];
      var last := reqs[|reqs| - 1];
      PackDisjoint(init);
      AlignedUpBounds(Pack(init).end, last.alignment);
      assert forall i :: 0 <= i < |init| ==> Pack(reqs).offsets[i] == Pack(init).offsets[i];
    }
  }

  /** The bitwise OR of every buffer's memoryTypeBits. */
  function UnionOfBits(reqs: seq<Requirements>): bv32
  {
    if |reqs| == 0 then 0 else UnionOfBits(reqs[..|reqs| - 1]) | reqs[|reqs| - 1].memoryTypeBits
  }

  /** The union holds every buffer's bits. */
  lemma {:induction false} UnionOfBitsCovers(reqs: seq<Requirements>)
    ensures forall i :: 0 <= i < |reqs| ==>
              UnionOfBits(reqs) & reqs[i].memoryTypeBits == reqs[i].memoryTypeBits
  {
    if |reqs| > 0 {
      var init := reqs[..|reqs| - 1];
      UnionOfBitsCovers(init);
      assert forall i :: 0 <= i < |init| ==> init[i] == reqs[i];
    }
  }

  /** A bit is set in a | b exactly when it is set in a or in b. */
  lemma OrAllows(a: bv32, b: bv32, k: nat)
    requires k < MaxMemoryTypes
    ensures Allows(a | b, k) <==> Allows(a, k) || Allows(b, k)
  {
    var bit := (1 as bv32) << k;
    assert (a | b) & bit == (a & bit) | (b & bit);
  }

  /** The empty filter passes no memory type. */
  lemma ZeroAllowsNothing(k: nat)
    requires k < MaxMemoryTypes
    ensures !Allows(0, k)
  {
  }

  /** A memory type that passes some buffer's filter passes the union filter. */
  lemma {:induction false} UnionOfBitsAllowsEach(reqs: seq<Requirements>, k: nat, i: nat)
    requires k < MaxMemoryTypes && i < |reqs| && Allows(reqs[i].memoryTypeBits, k)
    ensures Allows(UnionOfBits(reqs), k)
  {
    var init := reqs[..|reqs| - 1];
    var last := reqs[|reqs| - 1];
    OrAllows(UnionOfBits(init), last.memoryTypeBits, k);
    if i < |init| {
      assert init[i] == reqs[i];
      UnionOfBitsAllowsEach(init, k, i);
    }
  }

  /** A memory type that no buffer's filter passes does not pass the union filter either. */
  lemma {:induction false} UnionOfBitsAllowsOnly(reqs: seq<Requirements>, k: nat)
    requires k < MaxMemoryTypes
    requires forall i :: 0 <= i < |reqs| ==> !Allows(reqs[i].memoryTypeBits, k)
    ensures !Allows(UnionOfBits(reqs), k)
  {
    if |reqs| == 0 {
      ZeroAllowsNothing(k);
    } else {
      var init := reqs[..|reqs| - 1];
      assert forall i :: 0 <= i < |init| ==> init[i] == reqs[i];
      UnionOfBitsAllowsOnly(init, k);
      OrAllows(UnionOfBits(init), reqs[|reqs| - 1].memoryTypeBits, k);
    }
  }

  /**
   * The memory types every buffer of `reqs` accepts: the AND of their memoryTypeBits (every
   * type when there is no buffer). This is the filter a shared allocation evidently needs,
   * since each buffer is later bound to it.
   */
  function IntersectionOfBits(reqs: seq<Requirements>): bv32
  {
    if |reqs| == 0 then 0xFFFF_FFFF
    else IntersectionOfBits(reqs[..|reqs| - 1]) & reqs[|reqs| - 1].memoryTypeBits
  }

  /** A mask with exactly one bit set. */
  predicate IsBit(bit: bv32)
  {
    bit != 0 && bit & (bit - 1) == 0
  }

  /** The mask Allows tests for memory type k has exactly one bit set. */
  lemma ShiftIsBit(k: nat)
    requires k < MaxMemoryTypes
    ensures IsBit((1 as bv32) << k)
  {
  }

  /** A single bit is kept by a & b exactly when both a and b keep it. */
  lemma AndKeepsBit(a: bv32, b: bv32, bit: bv32)
    requires IsBit(bit)
    ensures (a & b) & bit != 0 <==> a & bit != 0 && b & bit != 0
  {
  }

  /** A single bit is kept by the intersection filter exactly when every buffer's bits keep it. */
  lemma {:induction false} IntersectionKeepsBit(reqs: seq<Requirements>, bit: bv32)
    requires IsBit(bit)
    ensures IntersectionOfBits(reqs) & bit != 0
            <==> forall i :: 0 <= i < |reqs| ==> reqs[i].memoryTypeBits & bit != 0
  {
    if |reqs| == 0 {
      assert 0xFFFF_FFFF & bit == bit;
    } else {
      var init := reqs[..|reqs| - 1];
      assert forall i :: 0 <= i < |init| ==> init[i] == reqs[i];
      IntersectionKeepsBit(init, bit);
      AndKeepsBit(IntersectionOfBits(init), reqs[|reqs| - 1].memoryTypeBits, bit);
    }
  }

  /** A memory type passes the intersection filter exactly when every buffer accepts it. */
  lemma IntersectionOfBitsAllowsIff(reqs: seq<Requirements>, k: nat)
    requires k < MaxMemoryTypes
    ensures Allows(IntersectionOfBits(reqs), k)
            <==> forall i :: 0 <= i < |reqs| ==> Allows(reqs[i].memoryTypeBits, k)
  {
    var bit := (1 as bv32) << k;
    ShiftIsBit(k);
    IntersectionKeepsBit(reqs, bit);
    assert forall i :: 0 <= i < |reqs| ==> (Allows(reqs[i].memoryTypeBits, k) <==> reqs[i].memoryTypeBits & bit != 0);
  }

  /** A memory type chosen with the intersection filter can be bound to every buffer. */
  lemma IntersectionChoiceBindsEach(reqs: seq<Requirements>, types: seq<bv32>, flags: bv32, i: nat)
    requires |types| <= MaxMemoryTypes && i < |reqs|
    requires FirstSuitable(IntersectionOfBits(reqs), types, flags, 0).Ok?
    ensures FirstSuitable(IntersectionOfBits(reqs), types, flags, 0).value < MaxMemoryTypes
    ensures Allows(reqs[i].memoryTypeBits, FirstSuitable(IntersectionOfBits(reqs), types, flags, 0).value)
  {
    FirstSuitableIsLeast(IntersectionOfBits(reqs), types, flags, 0);
    IntersectionOfBitsAllowsIff(reqs, FirstSuitable(IntersectionOfBits(reqs), types, flags, 0).value);
  }

  /**
   * Two buffers that accept only memory type 0 and only type 1, on a device whose two types
   * both have the wanted flags: the union filter picks type 0, which the second buffer cannot
   * be bound to, while the intersection filter finds no type and reports it.
   */
  lemma UnionChoiceCounterexample()
    ensures FirstSuitable(UnionOfBits([Requirements(16, 4, 1), Requirements(16, 4, 2)]), [0, 0], 0, 0)
            == Ok(0)
    ensures !Allows(2, 0)
    ensures FirstSuitable(IntersectionOfBits([Requirements(16, 4, 1), Requirements(16, 4, 2)]),
                          [0, 0], 0, 0).Throw?
  {
    var reqs := [Requirements(16, 4, 1), Requirements(16, 4, 2)];
    assert reqs[..1] == [Requirements(16, 4, 1)];
    assert [Requirements(16, 4, 1)][..0] == [];
    assert UnionOfBits(reqs) == 3;
    assert IntersectionOfBits(reqs) == 0;
    ZeroAllowsNothing(0);
    ZeroAllowsNothing(1);
  }
}
