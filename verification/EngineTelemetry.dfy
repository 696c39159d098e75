/** The rows a policy cycle sends to the collector: one for every decision whose block is still tracked afterwards. */
module EngineTelemetry {
  import opened Sequences
  import opened Sorting
  import opened Selection
  import opened Schema
  import opened Effects
  import opened Policies
  import opened DecisionLists
  import opened TrackerModel
  import opened TrackerInvariants

  /** The block with the given id. */
  function Find(s: State, id: int): Option<Block> {
    if s == [] then None else if s[0].id == id then Some(s[0]) else Find(s[1..], id)
  }

  function RecordFor(s: State, d: PolicyDecision): seq<Record> {
    var found := Find(s, d.block);
    if found.None? then [] else [FromBlockState(found.value, d.decision)]
  }

  /** The rows for a list of decisions, looked up in the tracker after they were applied. */
  function Records(s: State, ds: seq<PolicyDecision>): seq<Record> {
    if ds == [] then [] else Records(s, Init(ds)) + RecordFor(s, Last(ds))
  }

  lemma {:induction false} FindIs(s: State, b: Block)
    requires Distinct(s, BlockId) && b in s
    ensures Find(s, b.id) == Some(b)
  {
    if s[0].id == b.id {
      SameId(s, BlockId, s[0], b);
    } else {
      assert b in s[1..];
      assert forall i, j :: 0 <= i < j < |s[1..]| ==> BlockId(s[1..][i]) != BlockId(s[1..][j]);
      FindIs(s[1..], b);
    }
  }

  lemma {:induction false} FindNothing(s: State, id: int)
    ensures Find(s, id).None? <==> id !in Ids(s, BlockId)
    ensures Find(s, id).Some? ==> Find(s, id).value in s && Find(s, id).value.id == id
  {
    if s != [] {
      FindNothing(s[1..], id);
    }
  }

  function LeavesItsBlock(d: PolicyDecision): bool { d.decision != Evict }

  function RowBlock(r: Record): int { r.block.id }

  /** A decision is found again on its block: nothing when it evicts, else the block with the mapped tier and score. */
  lemma {:induction false} FoundAsDecided(s: State, ds: seq<PolicyDecision>, d: PolicyDecision)
    requires Distinct(s, BlockId) && OneVerdictPerBlock(s, ds) && d in ds
    ensures
      var found := Find(ApplyAll(s, ds), d.block);
      && (found.None? <==> d.decision == Evict)
      && (found.Some? ==> found.value.tier == TierFor(d.decision) && found.value.importance == d.score)
  {
    var v, t := VerdictsOf(ds), ApplyAll(s, ds);
    VerdictsFrom(ds, d);
    ApplyIsSettle(s, ds);
    SettleIds(s, v);
    SettleKeepsDistinct(s, v);
    FindNothing(t, d.block);
    InIds(s, BlockId, d.block);
    var b :| b in s && BlockId(b) == d.block;
    if d.decision != Evict {
      var c := b.(tier := TierFor(d.decision), importance := d.score);
      assert c in SettleBlock(v, b);
      SettleMember(s, v, c);
      FindIs(t, c);
    }
  }

  /** The flags of a row are those of its label, and no row is flagged as evicted. */
  ghost predicate Agrees(r: Record) {
    && (r.quantized <==> r.decision == Quantize)
    && (r.offloaded <==> r.decision == OffloadCpu)
    && !r.evicted && r.decision != Evict
  }

  lemma {:induction false} RecordsOfPart(s: State, ds: seq<PolicyDecision>, part: seq<PolicyDecision>)
    requires Distinct(s, BlockId) && OneVerdictPerBlock(s, ds)
    requires forall d :: d in part ==> d in ds
    ensures
      var rs := Records(ApplyAll(s, ds), part);
      && Map(RowBlock, rs) == Map(DecisionBlock, Filter(part, LeavesItsBlock))
      && forall r :: r in rs ==> Agrees(r)
  {
    if part != [] {
      var rest, d := Init(part), Last(part);
      assert d in part;
      forall e | e in rest
        ensures e in ds
      {
        assert e in part;
      }
      RecordsOfPart(s, ds, rest);
      FoundAsDecided(s, ds, d);
      assert part == rest + [d];
      OneMoreRow(ApplyAll(s, ds), rest, d);
    }
  }

  lemma {:induction false} OneMoreRow(t: State, rest: seq<PolicyDecision>, d: PolicyDecision)
    requires Map(RowBlock, Records(t, rest)) == Map(DecisionBlock, Filter(rest, LeavesItsBlock))
    requires Find(t, d.block).None? <==> d.decision == Evict
    ensures Map(RowBlock, Records(t, rest) + RecordFor(t, d)) == Map(DecisionBlock, Filter(rest + [d], LeavesItsBlock))
  {
    var rows, kept := Records(t, rest), Filter(rest, LeavesItsBlock);
    FindNothing(t, d.block);
    FilterAppend(rest, [d], LeavesItsBlock);
    if d.decision == Evict {
      assert Filter(rest + [d], LeavesItsBlock) == kept && rows + RecordFor(t, d) == rows;
    } else {
      var row := FromBlockState(Find(t, d.block).value, d.decision);
      assert Filter(rest + [d], LeavesItsBlock) == kept + [d];
      MapOneMore(rows, row, RowBlock);
      MapOneMore(kept, d, DecisionBlock);
    }
  }

  lemma {:induction false} MapOneMore<S(!new), T(!new)>(s: seq<S>, x: S, f: S -> T)
    ensures Map(f, s + [x]) == Map(f, s) + [f(x)]
  {
  }

  /**
   A cycle emits one row per decision that does not evict, in the order of the decisions, each with flags that agree
   with its label.
   */
  lemma {:induction false} CycleTelemetry(z: Sizes, s: State, kind: Kind, cfg: Config, free: real,
                                          prediction: Prediction)
    requires Distinct(s, BlockId)
    ensures
      var ds := CycleDecisions(z, s, kind, cfg, free, prediction);
      var rs := Records(Cycle(z, s, kind, cfg, free, prediction), ds);
      && Map(RowBlock, rs) == Map(DecisionBlock, Filter(ds, LeavesItsBlock))
      && forall r :: r in rs ==> Agrees(r)
  {
    var ds := CycleDecisions(z, s, kind, cfg, free, prediction);
    CycleOnDistinct(z, s, kind, cfg, free, prediction);
    RecordsOfPart(s, ds, ds);
  }
}
