/** What memory pressure the engine sees, and what every policy does when it is low. */
module PressureFacts {
  import opened Sequences
  import opened Fractions
  import opened Sorting
  import opened Selection
  import opened Schema
  import opened Policies
  import opened TrackerModel
  import opened TrackerInvariants
  import opened Outcomes

  /** Pressure is a fraction, for any non-negative readings. */
  lemma {:induction false} PressureInUnit(used: real, free: real)
    requires used >= 0.0 && free >= 0.0
    ensures 0.0 <= Pressure(used, free) <= 1.0
  {
    if used + free > 0.0 {
      QuotientInUnit(used, used + free);
    }
  }

  /** It is the used part of the two together; nothing is no pressure. */
  lemma {:induction false} PressureIsUsedPart(used: real, free: real)
    ensures used + free > 0.0 ==> Pressure(used, free) * (used + free) == used
    ensures used + free <= 0.0 ==> Pressure(used, free) == 0.0
  {
  }

  /** Keys and values for every head and position: one byte each as int8, two as fp16; 2^20 bytes are a megabyte. */
  lemma {:induction false} SizesInBytes(numHeads: nat, blockSize: nat, headDim: nat, bytes: nat)
    ensures SizesFor(numHeads, blockSize, headDim).int8 == 2 * numHeads * blockSize * headDim
    ensures SizesFor(numHeads, blockSize, headDim).fp16 == 2 * SizesFor(numHeads, blockSize, headDim).int8
    ensures Megabytes(bytes) * 1048576.0 == bytes as real
  {
  }

  /**
   With the placeholder of no free memory the engine sees full pressure as soon as any byte is on the GPU, else none.
   */
  lemma {:induction false} PlaceholderPressure(z: Sizes, s: State)
    ensures EnginePressure(z, s, 0.0) == if GpuBytes(z, s) > 0 then 1.0 else 0.0
  {
    var bytes := GpuBytes(z, s);
    MegabytesPositive(bytes);
    var used := Megabytes(bytes);
    if bytes > 0 {
      assert used / used == 1.0;
    }
  }

  lemma {:induction false} MegabytesPositive(bytes: nat)
    ensures bytes > 0 ==> Megabytes(bytes) > 0.0
    ensures bytes == 0 ==> Megabytes(bytes) == 0.0
  {
  }

  /** The pressure below which a policy leaves everything alone. */
  function Threshold(kind: Kind, cfg: Config): real {
    if kind.FullCache? then cfg.pressureHigh else cfg.pressureLow
  }

  lemma {:induction false} LowPressureDecisions(kind: Kind, cfg: Config, s: State, m: Metrics, prediction: Prediction)
    requires Pressure(m.used, m.free) < Threshold(kind, cfg)
    ensures Decide(kind, cfg, s, m, prediction) == KeepAll(s)
  {
  }

  /** KEEP_GPU is not "leave as is": at low pressure every block is brought back to full precision. */
  lemma {:induction false} LowPressureRestoresAll(z: Sizes, s: State, kind: Kind, cfg: Config, free: real,
                                                  prediction: Prediction)
    requires Distinct(s, BlockId)
    requires EnginePressure(z, s, free) < Threshold(kind, cfg)
    ensures Cycle(z, s, kind, cfg, free, prediction) == Map(Marked(Keep), s)
  {
    if s != [] {
      LowPressureDecisions(kind, cfg, s, EngineMetrics(z, s, free), prediction);
      ApplyByBlock(s, Keep);
      FilterAll(s, Spared(Keep));
    }
  }

  /** So after such a cycle all memory is on the GPU at full precision, and GPU memory has only grown. */
  lemma {:induction false} RestoredMemory(z: Sizes, s: State, t: State)
    requires z.int8 <= z.fp16 && t == Map(Marked(Keep), s)
    ensures GpuBytes(z, t) == z.fp16 * |s| && CpuBytes(z, t) == 0
    ensures GpuBytes(z, s) <= GpuBytes(z, t)
  {
    RestoredTiers(s, t);
    FullPrecisionMemory(z, s, t);
  }

  lemma {:induction false} RestoredTiers(s: State, t: State)
    requires t == Map(Marked(Keep), s)
    ensures |t| == |s| && forall i :: 0 <= i < |t| ==> t[i].tier == GpuFp16
  {
    forall i | 0 <= i < |t|
      ensures t[i].tier == GpuFp16
    {
      assert Keep(s[i]).decision == KeepGpu;
      assert t[i] == s[i].(tier := TierFor(Keep(s[i]).decision), importance := Keep(s[i]).score);
    }
  }

  lemma {:induction false} FullPrecisionMemory(z: Sizes, s: State, t: State)
    requires |t| == |s| && z.int8 <= z.fp16
    requires forall i :: 0 <= i < |t| ==> t[i].tier == GpuFp16
    ensures GpuBytes(z, t) == z.fp16 * |s| && CpuBytes(z, t) == 0
    ensures GpuBytes(z, s) <= GpuBytes(z, t)
  {
    AllFullPrecision(t);
    TiersPartition(s);
    BytesAtMostAll(z, CountTier(s, GpuFp16), CountTier(s, GpuQuantized), |s|);
  }

  lemma {:induction false} AllFullPrecision(t: State)
    requires forall i :: 0 <= i < |t| ==> t[i].tier == GpuFp16
    ensures CountTier(t, GpuFp16) == |t| && CountTier(t, GpuQuantized) == 0 && CountTier(t, CpuOffloaded) == 0
  {
    if t != [] {
      assert Last(t) == t[|t| - 1];
      AllFullPrecision(Init(t));
    }
  }

  lemma {:induction false} BytesAtMostAll(z: Sizes, f: nat, q: nat, n: nat)
    requires f + q <= n && z.int8 <= z.fp16
    ensures f * z.fp16 + q * z.int8 <= z.fp16 * n
  {
    assert q * z.int8 <= q * z.fp16;
    assert z.fp16 * n == z.fp16 * f + z.fp16 * q + z.fp16 * (n - f - q);
  }
}
