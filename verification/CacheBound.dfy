/** What the admission bound counts, byte by byte, and exactly which loads it admits. */
module CacheBound {
  import opened Wrappers
  import opened Evidence
  import opened AdmissionProofs

  const ONE_GIB := 1024 * 1024 * 1024

  // ---------- the key/value cache, counted ----------

  /** `n` parts of the same size. */
  function Parts(n: nat, each: nat): nat {
    if n == 0 then 0 else Parts(n - 1, each) + each
  }

  /** Four bytes for every position of one vector. */
  function VectorBytes(headSize: nat): nat {
    Parts(headSize, 4)
  }

  /** Every token keeps, in every layer and for every key/value head, one key vector and one value vector. */
  function StoredBytes(tokens: nat, layers: nat, heads: nat, headSize: nat): nat {
    Parts(tokens, Parts(layers, Parts(heads, VectorBytes(headSize) + VectorBytes(headSize))))
  }

  lemma {:induction false} PartsMultiply(n: nat, each: nat)
    ensures Parts(n, each) == n * each
  {
    if n > 0 {
      PartsMultiply(n - 1, each);
      assert n * each == (n - 1) * each + each;
    }
  }

  /** The metadata gives these as positive integers under the architecture's own names. */
  predicate HasShape(info: ModelInfo, layers: int, heads: int, headSize: int) {
    && layers > 0 && heads > 0 && headSize > 0
    && info.architecture.Some? && info.architecture.value != ""
    && FieldIs(info, ".block_count", layers)
    && FieldIs(info, ".attention.head_count_kv", heads)
    && FieldIs(info, ".attention.key_length", headSize)
  }

  predicate FieldIs(info: ModelInfo, name: string, n: int)
    requires info.architecture.Some?
  {
    info.architecture.value + name in info.fields && info.fields[info.architecture.value + name] == Int(n)
  }

  /** The bound is the number of bytes stored for the requested tokens, and it is missing exactly when some part of the
      model's shape is. */
  lemma BoundCountsStoredBytes(tokens: nat, info: ModelInfo, layers: int, heads: int, headSize: int)
    ensures HasShape(info, layers, heads, headSize) ==>
              ContextAllocationBound(tokens, info) == Some(StoredBytes(tokens, layers, heads, headSize))
    ensures ContextAllocationBound(tokens, info).Some? <==> exists l, h, s :: HasShape(info, l, h, s)
  {
    if HasShape(info, layers, heads, headSize) {
      BytesMultiply(tokens, layers, heads, headSize);
    }
    if ContextAllocationBound(tokens, info).Some? {
      var arch := info.architecture.value;
      var l := PositiveField(info, arch + ".block_count").value;
      var h := PositiveField(info, arch + ".attention.head_count_kv").value;
      var s := PositiveField(info, arch + ".attention.key_length").value;
      assert HasShape(info, l, h, s);
    }
  }

  lemma BytesMultiply(tokens: nat, layers: nat, heads: nat, headSize: nat)
    ensures StoredBytes(tokens, layers, heads, headSize) == tokens * layers * heads * headSize * 2 * 4
    ensures StoredBytes(tokens, layers, heads, headSize) == tokens * StoredBytes(1, layers, heads, headSize)
  {
    var vectors := VectorBytes(headSize) + VectorBytes(headSize);
    PartsMultiply(headSize, 4);
    PartsMultiply(heads, vectors);
    PartsMultiply(layers, Parts(heads, vectors));
    PartsMultiply(tokens, Parts(layers, Parts(heads, vectors)));
    PartsMultiply(1, Parts(layers, Parts(heads, vectors)));
    Regroup(tokens, layers, heads, headSize);
  }

  lemma Regroup(a: int, b: int, c: int, d: int)
    ensures a * (b * (c * (d * 4 + d * 4))) == a * b * c * d * 2 * 4
  {
    assert c * (d * 4 + d * 4) == c * d * 8;
    assert b * (c * d * 8) == b * c * d * 8 by { assert b * (c * d) == b * c * d; }
    assert a * (b * c * d * 8) == a * b * c * d * 8 by {
      assert a * (b * c * d) == a * b * c * d by { assert a * (b * c) == a * b * c; }
    }
  }

  // ---------- what is admitted ----------

  /** Five quarters of the model's size, rounded up. */
  predicate IsWeightBound(weights: int, size: int) {
    4 * weights >= 5 * size && 4 * (weights - 1) < 5 * size
  }

  /** The walls of this topology are known and readable. */
  predicate KnownWalls(s: MemorySnapshot) {
    && s.systemTotal.Some? && s.systemTotal.value > 0 && s.systemAvailable.Some? && s.systemAvailable.value >= 0
    && match s.kind
       case None => s.count.None? || s.count == Some(0)
       case Some(Apple) => s.unified
       case Some(Nvidia) => s.count == Some(1) && s.acceleratorAvailable.Some? && s.acceleratorAvailable.value >= 0
       case Some(OtherKind(_)) => false
  }

  /** The need leaves two GiB of system memory and, where there is an accelerator of its own, one GiB there. */
  predicate LeavesRoom(s: MemorySnapshot, need: int)
    requires KnownWalls(s)
  {
    && s.systemAvailable.value - need >= 2 * ONE_GIB
    && (s.kind == Some(Nvidia) ==> s.acceleratorAvailable.value - need >= ONE_GIB)
  }

  /** A load is admitted exactly when the walls are known, and weights, stored bytes and one GiB for the runtime leave room. */
  lemma AdmittedExactly(
    s: MemorySnapshot, size: Option<int>, context: int, info: ModelInfo, layers: int, heads: int, headSize: int, weights: int)
    requires HasShape(info, layers, heads, headSize) && context > 0 && size.Some? && size.value > 0 && IsWeightBound(weights, size.value)
    ensures Admits(s, size, context, info)
            <==> KnownWalls(s) && LeavesRoom(s, weights + StoredBytes(context, layers, heads, headSize) + ONE_GIB)
  {
    BoundCountsStoredBytes(context, info, layers, heads, headSize);
    StoredIsPositive(context, layers, heads, headSize);
    hide ContextAllocationBound, StoredBytes, HasShape;
    assert weights == ResidencyBound(size.value);
  }

  lemma StoredIsPositive(tokens: nat, layers: nat, heads: nat, headSize: nat)
    requires tokens > 0 && layers > 0 && heads > 0 && headSize > 0
    ensures StoredBytes(tokens, layers, heads, headSize) > 0
  {
    BytesMultiply(tokens, layers, heads, headSize);
    PerTokenPositive(layers, heads, headSize);
    CacheIsLinear(tokens, layers, heads, headSize);
    MulPositive(tokens, layers * heads * headSize * 2 * KV_ELEMENT_BYTES);
  }

  /** Without a shape, a size or a positive context nothing is admitted. */
  lemma NothingElseIsAdmitted(s: MemorySnapshot, size: Option<int>, context: int, info: ModelInfo)
    requires Admits(s, size, context, info)
    ensures context > 0 && size.Some? && size.value > 0 && exists l, h, d :: HasShape(info, l, h, d)
  {
    BoundCountsStoredBytes(context, info, 1, 1, 1);
  }

  /** The largest admitted context is the largest one whose stored bytes fit beside weights, runtime and margins. */
  lemma LargestFits(
    s: MemorySnapshot, size: Option<int>, context: int, info: ModelInfo, layers: int, heads: int, headSize: int, weights: int)
    requires HasShape(info, layers, heads, headSize) && context > 0 && size.Some? && size.value > 0 && IsWeightBound(weights, size.value)
    ensures context <= LargestAdmissible(s, size, info)
            <==> KnownWalls(s) && LeavesRoom(s, weights + StoredBytes(context, layers, heads, headSize) + ONE_GIB)
  {
    hide Admits, LargestAdmissible, StoredBytes, HasShape, KnownWalls, LeavesRoom, IsWeightBound;
    AdmittedExactlyUpToLargest(s, size, context, info);
    AdmittedExactly(s, size, context, info, layers, heads, headSize, weights);
  }
}
