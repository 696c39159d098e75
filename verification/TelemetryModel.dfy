/**
 The telemetry buffer of src/telemetry/collector.py as a state machine: events are buffered, full buffers are
 written as one batch, and a write fails as a whole or not at all. Record fields beyond Schema.Record are constants
 of the call and are not carried along.
 */
module TelemetryModel {
  import opened Sequences
  import opened Schema

  datatype Telemetry = Telemetry(stored: seq<Record>, buffer: seq<Record>, total: nat, flushes: nat)

  /** What the collector was configured with; the limit is any integer. */
  datatype Setup = Setup(enabled: bool, maxBuffer: int)

  const EMPTY := Telemetry([], [], 0, 0)

  /** One flush whose write fails or succeeds. */
  function Flushed(t: Telemetry, fails: bool): Telemetry {
    if t.buffer == [] || fails then t
    else Telemetry(t.stored + t.buffer, [], t.total, t.flushes + 1)
  }

  function Recorded(c: Setup, t: Telemetry, r: Record, fails: bool): Telemetry {
    if !c.enabled then t
    else
      var u := t.(buffer := t.buffer + [r], total := t.total + 1);
      if |u.buffer| >= c.maxBuffer then Flushed(u, fails) else u
  }

  /** Manual flushes, the background flush and the flush in stop() are all Flush. */
  datatype Operation = RecordEvent(r: Record, fails: bool) | Flush(fails: bool)

  function Operate(c: Setup, t: Telemetry, op: Operation): Telemetry {
    match op
    case RecordEvent(r, fails) => Recorded(c, t, r, fails)
    case Flush(fails) => Flushed(t, fails)
  }

  function OperateAll(c: Setup, t: Telemetry, ops: seq<Operation>): Telemetry {
    if ops == [] then t else Operate(c, OperateAll(c, t, Init(ops)), Last(ops))
  }

  /** The events of a run in order. */
  function EventsOf(ops: seq<Operation>): seq<Record> {
    if ops == [] then []
    else EventsOf(Init(ops)) + if Last(ops).RecordEvent? then [Last(ops).r] else []
  }

  function FailedRecords(ops: seq<Operation>): nat {
    if ops == [] then 0
    else FailedRecords(Init(ops)) + if Last(ops).RecordEvent? && Last(ops).fails then 1 else 0
  }

  /**
   Nothing is lost, duplicated or reordered, whatever writes fail: the stored records followed by the buffer are
   all events of the run in order, and the counter is their number. A disabled collector keeps nothing.
   */
  lemma {:induction false} NothingIsLost(c: Setup, ops: seq<Operation>)
    ensures
      var t := OperateAll(c, EMPTY, ops);
      && t.stored + t.buffer == (if c.enabled then EventsOf(ops) else [])
      && t.total == |t.stored + t.buffer|
      && t.flushes <= |t.stored|
    decreases |ops|
  {
    if ops != [] {
      NothingIsLost(c, Init(ops));
      StepConserves(c, OperateAll(c, EMPTY, Init(ops)), Last(ops));
    }
  }

  lemma {:induction false} StepConserves(c: Setup, t: Telemetry, op: Operation)
    ensures
      var u := Operate(c, t, op);
      && u.stored + u.buffer == t.stored + t.buffer + (if c.enabled && op.RecordEvent? then [op.r] else [])
      && u.total == t.total + (if c.enabled && op.RecordEvent? then 1 else 0)
      && t.stored <= u.stored
      && (t.flushes <= |t.stored| ==> u.flushes <= |u.stored|)
      && u.flushes == t.flushes + (if u.stored == t.stored then 0 else 1)
  {
    if op.RecordEvent? && c.enabled {
      assert t.stored + (t.buffer + [op.r]) == t.stored + t.buffer + [op.r];
    }
  }

  /**
   The buffer never holds `maxBuffer` records or more than the number of record calls whose own write failed
   allows; without failures it stays below the limit.
   */
  lemma {:induction false} BufferIsBounded(c: Setup, ops: seq<Operation>)
    requires c.maxBuffer >= 1
    ensures |OperateAll(c, EMPTY, ops).buffer| < c.maxBuffer + FailedRecords(ops)
    decreases |ops|
  {
    if ops != [] {
      BufferIsBounded(c, Init(ops));
    }
  }

  /** After a record whose write did not fail the buffer is below the limit, no matter how full it was before. */
  lemma {:induction false} RecordLeavesRoom(c: Setup, t: Telemetry, r: Record)
    requires c.enabled && c.maxBuffer >= 1
    ensures |Recorded(c, t, r, false).buffer| < c.maxBuffer
    ensures Recorded(c, t, r, false).buffer == [] || Recorded(c, t, r, false).buffer == t.buffer + [r]
    ensures Recorded(c, t, r, false).buffer == t.buffer + [r] <==> |t.buffer| + 1 < c.maxBuffer
  {
  }

  /** A run that ends with a flush that works has everything in storage. */
  lemma {:induction false} FinalFlushStoresAll(c: Setup, ops: seq<Operation>)
    requires ops != [] && Last(ops) == Flush(false) && c.enabled
    ensures OperateAll(c, EMPTY, ops).stored == EventsOf(ops)
    ensures OperateAll(c, EMPTY, ops).buffer == []
  {
    NothingIsLost(c, ops);
    var t := OperateAll(c, EMPTY, ops);
    assert t.buffer == [];
    assert t.stored + [] == t.stored;
  }
}
