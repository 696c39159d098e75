/** The collector and its storage as objects; every method takes a step of TelemetryModel. */
module Collector {
  import opened Schema
  import opened TelemetryModel

  class TelemetryStorage {
    var records: seq<Record>

    constructor ()
      ensures records == []
    {
      records := [];
    }

    /** Appends the batch or fails and leaves the storage alone; which of the two is up to the environment. */
    method WriteBatch(batch: seq<Record>) returns (ok: bool)
      modifies this
      ensures records == if ok then old(records) + batch else old(records)
    {
      ok := *;
      if ok {
        records := records + batch;
      }
    }
  }

  class TelemetryCollector {
    const setup: Setup
    const storage: TelemetryStorage
    var buffer: seq<Record>
    var totalRecords: nat
    var totalFlushes: nat

    function State(): Telemetry
      reads this, storage
    {
      Telemetry(storage.records, buffer, totalRecords, totalFlushes)
    }

    constructor (setup: Setup)
      ensures fresh(storage) && this.setup == setup && State() == EMPTY
    {
      this.setup := setup;
      storage := new TelemetryStorage();
      buffer, totalRecords, totalFlushes := [], 0, 0;
    }

    method FlushLocked() returns (failed: bool)
      modifies this, storage
      ensures State() == Flushed(old(State()), failed)
    {
      failed := false;
      if buffer == [] {
        return;
      }
      var batch := buffer;
      buffer := [];
      var ok := storage.WriteBatch(batch);
      if ok {
        totalFlushes := totalFlushes + 1;
      } else {
        buffer := buffer + batch;
        failed := true;
      }
    }

    method RecordBlockEvent(block: Block, decision: Decision) returns (failed: bool)
      modifies this, storage
      ensures State() == Recorded(setup, old(State()), FromBlockState(block, decision), failed)
    {
      failed := false;
      if !setup.enabled {
        return;
      }
      buffer := buffer + [FromBlockState(block, decision)];
      totalRecords := totalRecords + 1;
      if |buffer| >= setup.maxBuffer {
        failed := FlushLocked();
      }
    }

    method Flush() returns (failed: bool)
      modifies this, storage
      ensures State() == Flushed(old(State()), failed)
    {
      failed := FlushLocked();
    }

    /** The background thread has ended by now; what remains is one last flush. */
    method Stop() returns (failed: bool)
      modifies this, storage
      ensures State() == Flushed(old(State()), failed)
    {
      failed := Flush();
    }
  }
}
