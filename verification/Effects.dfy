/**
 What a list of decisions does to the tracked blocks (apply_decisions in src/cache_policies/policy_engine.py),
 on the blocks of the tracker in the order its dict holds them.
 */
module Effects {
  import opened Sequences
  import opened Selection
  import opened Schema

  type Verdicts = map<int, PolicyDecision>

  /** A block after its decision: gone, or moved to the tier and score of the decision. */
  function SettleBlock(v: Verdicts, b: Block): seq<Block> {
    if b.id !in v then [b]
    else if v[b.id].decision == Evict then []
    else [b.(tier := TierFor(v[b.id].decision), importance := v[b.id].score)]
  }

  /** All blocks after all verdicts at once. */
  function Settle(s: seq<Block>, v: Verdicts): seq<Block> {
    if s == [] then [] else SettleBlock(v, s[0]) + Settle(s[1..], v)
  }

  /** One pass of the loop body. */
  function ApplyOne(s: seq<Block>, d: PolicyDecision): seq<Block> {
    Settle(s, map[d.block := d])
  }

  /** The decisions carried out one after the other. */
  function ApplyAll(s: seq<Block>, ds: seq<PolicyDecision>): seq<Block> {
    if ds == [] then s else ApplyOne(ApplyAll(s, Init(ds)), Last(ds))
  }

  /** The verdict per block id; a later decision on the same id would replace an earlier one. */
  function VerdictsOf(ds: seq<PolicyDecision>): Verdicts {
    if ds == [] then map[] else VerdictsOf(Init(ds))[Last(ds).block := Last(ds)]
  }

  // ---------- carrying out decisions one by one is settling all at once ----------

  lemma {:induction false} SettleAppend(s: seq<Block>, t: seq<Block>, v: Verdicts)
    ensures Settle(s + t, v) == Settle(s, v) + Settle(t, v)
  {
    if s == [] {
      assert s + t == t;
    } else {
      assert (s + t)[1..] == s[1..] + t;
      SettleAppend(s[1..], t, v);
    }
  }

  lemma {:induction false} SettleNothing(s: seq<Block>)
    ensures Settle(s, map[]) == s
  {
    if s != [] {
      SettleNothing(s[1..]);
    }
  }

  lemma {:induction false} SettleTwice(s: seq<Block>, v: Verdicts, d: PolicyDecision)
    requires d.block !in v
    ensures Settle(Settle(s, v), map[d.block := d]) == Settle(s, v[d.block := d])
  {
    if s != [] {
      SettleTwice(s[1..], v, d);
      var one := map[d.block := d];
      var head := SettleBlock(v, s[0]);
      SettleAppend(head, Settle(s[1..], v), one);
      assert Settle(head, one) == SettleBlock(v[d.block := d], s[0]) by {
        if head != [] {
          assert head[1..] == [];
          assert Settle(head, one) == SettleBlock(one, head[0]);
        }
      }
    }
  }

  lemma {:induction false} VerdictsFrom(ds: seq<PolicyDecision>, d: PolicyDecision)
    requires Distinct(ds, DecisionBlock)
    ensures d in ds <==> d.block in VerdictsOf(ds) && VerdictsOf(ds)[d.block] == d
    ensures d.block in VerdictsOf(ds) <==> exists e :: e in ds && e.block == d.block
  {
    if ds != [] {
      var rest := Init(ds);
      assert ds == rest + [Last(ds)];
      VerdictsFrom(rest, d);
      assert forall i :: 0 <= i < |rest| ==> DecisionBlock(rest[i]) != DecisionBlock(Last(ds));
      if d.block in VerdictsOf(rest) {
        var e :| e in rest && e.block == d.block;
        assert e in ds;
      }
    }
  }

  /** The loop of apply_decisions settles every block by its own verdict. */
  lemma {:induction false} ApplyIsSettle(s: seq<Block>, ds: seq<PolicyDecision>)
    requires Distinct(ds, DecisionBlock)
    ensures ApplyAll(s, ds) == Settle(s, VerdictsOf(ds))
  {
    if ds == [] {
      SettleNothing(s);
    } else {
      var rest, d := Init(ds), Last(ds);
      assert ds == rest + [d];
      DistinctParts(rest, [d], DecisionBlock);
      ApplyIsSettle(s, rest);
      VerdictsFrom(rest, d);
      IdIn([d], DecisionBlock, d);
      forall e | e in rest
        ensures e.block != d.block
      {
        IdIn(rest, DecisionBlock, e);
      }
      SettleTwice(s, VerdictsOf(rest), d);
    }
  }

  /** The order of decisions on distinct blocks does not matter. */
  lemma {:induction false} DecisionOrderIsIrrelevant(s: seq<Block>, ds: seq<PolicyDecision>, es: seq<PolicyDecision>)
    requires Distinct(ds, DecisionBlock) && Distinct(es, DecisionBlock)
    requires multiset(ds) == multiset(es)
    ensures ApplyAll(s, ds) == ApplyAll(s, es)
  {
    ApplyIsSettle(s, ds);
    ApplyIsSettle(s, es);
    var v, w := VerdictsOf(ds), VerdictsOf(es);
    forall id | id in v
      ensures id in w && w[id] == v[id]
    {
      SameVerdict(ds, es, id);
    }
    forall id | id in w
      ensures id in v
    {
      SameVerdict(es, ds, id);
    }
    assert v == w;
  }

  lemma {:induction false} SameVerdict(ds: seq<PolicyDecision>, es: seq<PolicyDecision>, id: int)
    requires Distinct(ds, DecisionBlock) && Distinct(es, DecisionBlock)
    requires multiset(ds) == multiset(es)
    requires id in VerdictsOf(ds)
    ensures id in VerdictsOf(es) && VerdictsOf(es)[id] == VerdictsOf(ds)[id]
  {
    VerdictBlock(ds, id);
    var d := VerdictsOf(ds)[id];
    VerdictsFrom(ds, d);
    assert d in multiset(ds);
    assert d in es;
    VerdictsFrom(es, d);
  }

  lemma {:induction false} VerdictBlock(ds: seq<PolicyDecision>, id: int)
    requires id in VerdictsOf(ds)
    ensures VerdictsOf(ds)[id].block == id
  {
    if id != Last(ds).block {
      VerdictBlock(Init(ds), id);
    }
  }

  // ---------- who survives, and as what ----------

  /** The ids a list of verdicts evicts. */
  function EvictedIds(v: Verdicts): set<int> {
    set id | id in v && v[id].decision == Evict
  }

  lemma {:induction false} SettleIds(s: seq<Block>, v: Verdicts)
    ensures Ids(Settle(s, v), BlockId) == Ids(s, BlockId) - EvictedIds(v)
  {
    if s != [] {
      SettleIds(s[1..], v);
      IdsAppend(SettleBlock(v, s[0]), Settle(s[1..], v), BlockId);
      var head := SettleBlock(v, s[0]);
      if head != [] {
        assert head[1..] == [];
        assert Ids(head, BlockId) == {s[0].id};
      }
    }
  }

  lemma {:induction false} SettleKeepsDistinct(s: seq<Block>, v: Verdicts)
    requires Distinct(s, BlockId)
    ensures Distinct(Settle(s, v), BlockId)
  {
    if s != [] {
      assert s == [s[0]] + s[1..];
      DistinctParts([s[0]], s[1..], BlockId);
      assert Ids([s[0]], BlockId) == {s[0].id};
      SettleKeepsDistinct(s[1..], v);
      SettleIds(s[1..], v);
      var rest := Settle(s[1..], v);
      if SettleBlock(v, s[0]) != [] {
        DistinctCons(SettleBlock(v, s[0])[0], rest, BlockId);
      } else {
        assert Settle(s, v) == rest;
      }
    }
  }

  lemma {:induction false} SettleMember(s: seq<Block>, v: Verdicts, c: Block)
    ensures c in Settle(s, v) <==> exists b :: b in s && c in SettleBlock(v, b)
  {
    if s != [] {
      SettleMember(s[1..], v, c);
      assert s == [s[0]] + s[1..];
      assert s[0] in s;
    }
  }

  /** The survivors of apply_decisions: exactly the blocks not evicted, each with the mapped tier and score. */
  lemma {:induction false} ApplyOutcome(s: seq<Block>, ds: seq<PolicyDecision>, c: Block)
    requires Distinct(ds, DecisionBlock)
    ensures c in ApplyAll(s, ds) <==> exists b :: b in s && c in SettleBlock(VerdictsOf(ds), b)
  {
    ApplyIsSettle(s, ds);
    SettleMember(s, VerdictsOf(ds), c);
  }

  /** The count drops by exactly the number of tracked blocks evicted. */
  lemma {:induction false} ApplyCount(s: seq<Block>, ds: seq<PolicyDecision>)
    requires Distinct(s, BlockId) && Distinct(ds, DecisionBlock)
    ensures |ApplyAll(s, ds)| == |s| - |Ids(s, BlockId) * EvictedIds(VerdictsOf(ds))|
  {
    var v := VerdictsOf(ds);
    ApplyIsSettle(s, ds);
    SettleIds(s, v);
    SettleKeepsDistinct(s, v);
    CountIds(s, BlockId);
    CountIds(Settle(s, v), BlockId);
    var before, gone := Ids(s, BlockId), EvictedIds(v);
    assert before == (before - gone) + before * gone;
  }
}
