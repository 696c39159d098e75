/** The shared records of src/telemetry/schema.py and src/cache_policies/base.py, as values. */
module Schema {

  datatype Tier = GpuFp16 | GpuQuantized | CpuOffloaded | Evicted

  datatype Decision = KeepGpu | Quantize | OffloadCpu | Evict

  datatype Workload = SingleDocQa | MultiDocQa | Summarization | Dialogue | Code | StructuredData | Unknown

  /** What can be read off a live block at one moment. */
  datatype Block = Block(
    id: int, layer: int, headGroup: int, request: string,
    age: int, lastAccess: int, accessCount: nat,
    avgAttention: real, maxAttention: real,
    prefixReuse: bool, tier: Tier,
    gpuUsed: real, gpuFree: real, importance: real
  )

  function NewBlock(id: int, layer: int, headGroup: int, request: string): Block {
    Block(id, layer, headGroup, request, 0, 0, 0, 0.0, 0.0, false, GpuFp16, 0.0, 0.0, 0.0)
  }

  datatype PolicyDecision = PolicyDecision(block: int, decision: Decision, score: real)

  /** The tier a decision moves its block to. */
  function TierFor(d: Decision): Tier {
    match d
    case KeepGpu => GpuFp16
    case Quantize => GpuQuantized
    case OffloadCpu => CpuOffloaded
    case Evict => Evicted
  }

  /** The part of a telemetry row that the collector and the engine determine. */
  datatype Record = Record(block: Block, decision: Decision, quantized: bool, offloaded: bool, evicted: bool)

  function FromBlockState(b: Block, decision: Decision): Record {
    Record(b, decision, b.tier == GpuQuantized, b.tier == CpuOffloaded, b.tier == Evicted)
  }

  // Functions used as sort keys and identities.

  function BlockId(b: Block): int { b.id }

  function DecisionBlock(d: PolicyDecision): int { d.block }

  function IdKey(b: Block): real { b.id as real }

  function LastAccessKey(b: Block): real { b.lastAccess as real }

  function AttentionKey(b: Block): real { b.avgAttention }

  /** sorted(..., reverse=True) keeps ties in their old order, as sorting by the negated key does. */
  function AttentionDescending(b: Block): real { -b.avgAttention }
}
