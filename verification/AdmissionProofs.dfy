/** What an admission without a refusal guarantees, and which contexts are admitted at all. */
module AdmissionProofs {
  import opened Wrappers
  import opened Evidence

  predicate Admits(s: MemorySnapshot, size: Option<int>, context: int, info: ModelInfo) {
    PreflightAdmission(s, size, context, info).reason.None?
  }

  /** The weight term is the least integer that is at least five quarters of the model size. */
  lemma ResidencyBoundIsLeast(size: int, other: int)
    ensures 4 * ResidencyBound(size) >= 5 * size
    ensures 4 * other >= 5 * size ==> other >= ResidencyBound(size)
  {
  }

  /** However an allocation within the bound is split across memories, each wall it may touch keeps its margin. */
  lemma AdmissionLeavesEveryMargin(
    s: MemorySnapshot, size: Option<int>, context: int, info: ModelInfo, system: nat, accelerator: nat)
    requires Admits(s, size, context, info)
    requires system + accelerator <= PreflightAdmission(s, size, context, info).totalBound.GetOr(0)
    ensures s.systemAvailable.Some? && s.systemAvailable.value - system >= SYSTEM_MARGIN_BYTES
    ensures s.kind == Some(Apple) ==> s.systemAvailable.value - (system + accelerator) >= SYSTEM_MARGIN_BYTES
    ensures s.kind == Some(Nvidia) ==>
              s.acceleratorAvailable.Some? && s.acceleratorAvailable.value - accelerator >= ACCELERATOR_MARGIN_BYTES
  {
    AdmittedTotal(s, size, context, info);
  }

  /** An admitted request has a known, positive bound made of weights, cache and runtime overhead. */
  lemma AdmittedTotal(s: MemorySnapshot, size: Option<int>, context: int, info: ModelInfo)
    requires Admits(s, size, context, info)
    ensures context > 0 && size.Some? && size.value > 0 && ContextAllocationBound(context, info).Some?
    ensures var kv := ContextAllocationBound(context, info).value;
            kv > 0 && ResidencyBound(size.value) > 0
            && PreflightAdmission(s, size, context, info).totalBound
               == Some(ResidencyBound(size.value) + kv + RUNTIME_OVERHEAD_BYTES)
  {
    var arch := info.architecture.value;
    var layers := PositiveField(info, arch + ".block_count").value;
    var heads := PositiveField(info, arch + ".attention.head_count_kv").value;
    var dim := PositiveField(info, arch + ".attention.key_length").value;
    CacheIsLinear(context, layers, heads, dim);
    PerTokenPositive(layers, heads, dim);
    MulPositive(context, layers * heads * dim * 2 * KV_ELEMENT_BYTES);
  }

  lemma MulPositive(a: int, b: int)
    requires a > 0 && b > 0
    ensures a * b > 0
  {
  }

  lemma PerTokenPositive(layers: int, heads: int, dim: int)
    requires layers > 0 && heads > 0 && dim > 0
    ensures layers * heads * dim * 2 * KV_ELEMENT_BYTES > 0
  {
    MulPositive(layers, heads);
    MulPositive(layers * heads, dim);
  }

  lemma CacheIsLinear(context: int, layers: int, heads: int, dim: int)
    ensures context * layers * heads * dim * 2 * KV_ELEMENT_BYTES
            == context * (layers * heads * dim * 2 * KV_ELEMENT_BYTES)
  {
    assert context * layers * heads == context * (layers * heads);
    assert context * (layers * heads) * dim == context * (layers * heads * dim);
    assert context * (layers * heads * dim) * 8 == context * (layers * heads * dim * 8);
  }

  /** A refusal for exceeding a wall is deserved: the bound placed wholly on that wall would break its margin. */
  lemma WallRefusalIsDeserved(s: MemorySnapshot, size: Option<int>, context: int, info: ModelInfo)
    ensures var a := PreflightAdmission(s, size, context, info);
            && (a.reason == Some(AllocationExceedsSystemWall) ==>
                  s.systemAvailable.Some? && a.totalBound.Some?
                  && s.systemAvailable.value - a.totalBound.value < SYSTEM_MARGIN_BYTES)
            && (a.reason == Some(AllocationExceedsAcceleratorWall) ==>
                  s.acceleratorAvailable.Some? && a.totalBound.Some? && s.kind == Some(Nvidia)
                  && s.systemAvailable.Some? && s.systemAvailable.value - a.totalBound.value >= SYSTEM_MARGIN_BYTES
                  && s.acceleratorAvailable.value - a.totalBound.value < ACCELERATOR_MARGIN_BYTES)
  {
  }

  // ---------- the admitted contexts are exactly 1 .. LargestAdmissible ----------

  /** Bytes that an allocation may use without touching the margin of any wall this topology exposes. */
  function Budget(s: MemorySnapshot): Option<int> {
    if Positive(s.systemTotal).None? || s.systemAvailable.None? then None
    else
      var system := s.systemAvailable.value - SYSTEM_MARGIN_BYTES;
      match s.kind
      case Some(Apple) => if s.unified then Some(system) else None
      case Some(Nvidia) =>
        if s.count == Some(1) && s.acceleratorAvailable.Some?
        then Some(Min(system, s.acceleratorAvailable.value - ACCELERATOR_MARGIN_BYTES)) else None
      case None => if s.count.None? || s.count == Some(0) then Some(system) else None
      case _ => None
  }

  function Min(a: int, b: int): int {
    if a <= b then a else b
  }

  /** The largest admitted context in closed form; 0 when nothing is admitted. */
  function LargestAdmissible(s: MemorySnapshot, size: Option<int>, info: ModelInfo): int {
    var perToken := ContextAllocationBound(1, info);
    if Budget(s).None? || Positive(size).None? || perToken.None? || perToken.value <= 0 then 0
    else
      var room := Budget(s).value - ResidencyBound(size.value) - RUNTIME_OVERHEAD_BYTES;
      if room < 0 then 0 else room / perToken.value
  }

  lemma AdmittedExactlyUpToLargest(s: MemorySnapshot, size: Option<int>, context: int, info: ModelInfo)
    ensures Admits(s, size, context, info) <==> 1 <= context <= LargestAdmissible(s, size, info)
  {
    var perToken := ContextAllocationBound(1, info);
    if perToken.Some? {
      var arch := info.architecture.value;
      var layers := PositiveField(info, arch + ".block_count").value;
      var heads := PositiveField(info, arch + ".attention.head_count_kv").value;
      var dim := PositiveField(info, arch + ".attention.key_length").value;
      PerTokenPositive(layers, heads, dim);
      CacheIsLinear(1, layers, heads, dim);
      CacheIsLinear(context, layers, heads, dim);
      assert ContextAllocationBound(context, info) == Some(context * perToken.value);
      if context >= 1 {
        MulPositive(context, perToken.value);
        if Budget(s).Some? && Positive(size).Some? {
          FitsExactlyWhenBelowQuotient(
            context, perToken.value, Budget(s).value - ResidencyBound(size.value) - RUNTIME_OVERHEAD_BYTES);
        }
      }
    }
  }

  lemma FitsExactlyWhenBelowQuotient(n: int, per: int, room: int)
    requires n >= 1 && per >= 1
    ensures n * per <= room <==> room >= 0 && n <= room / per
  {
    MulPositive(n, per);
    if room >= 0 {
      var q := room / per;
      assert room == q * per + room % per;
      if n <= q {
        MulMonotone(n, q, per);
      } else {
        MulMonotone(q + 1, n, per);
        assert (q + 1) * per == q * per + per;
      }
    }
  }

  lemma MulMonotone(a: int, b: int, c: int)
    requires a <= b && c >= 0
    ensures a * c <= b * c
  {
  }
}
