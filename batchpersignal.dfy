/**
  The per-signal batch splitter: `SplitTraces` and `SplitLogs` turn one batch
  into a list of batches, one per (resource, scope, trace ID), in order of first
  appearance, each holding one resource with one scope.
*/
module BatchPerSignal {
  import opened Primitives
  import opened BatchSpec
  import opened BatchLemmas

  /** A span, reduced to its name and its trace ID. */
  datatype Span = Span(name: string, traceId: TraceId)

  /** A log record, reduced to its body and its trace ID (the all-zero ID when unset). */
  datatype LogRecord = LogRecord(body: string, traceId: TraceId)

  type Traces = Batch<Span>
  type Logs = Batch<LogRecord>

  function SpanTraceId(s: Span): TraceId { s.traceId }
  function LogTraceId(l: LogRecord): TraceId { l.traceId }

  /** Walks resources and their scopes in order, appending each scope's batches to the result. */
  method Split<R>(batch: Batch<R>, key: R -> TraceId) returns (result: seq<Batch<R>>)
    ensures result == SplitSpec(batch, key)
  {
    result := [];
    var i := 0;
    while i < |batch|
      invariant 0 <= i <= |batch|
      invariant result == SplitSpec(batch[..i], key)
    {
      SplitSpecSnoc(batch, i, key);
      result := SplitResource(result, batch[i], key);
      i := i + 1;
    }
    assert batch[..i] == batch;
  }

  /** The body of the resource loop: the scopes of one resource, in order. */
  method SplitResource<R>(result0: seq<Batch<R>>, rg: ResourceGroup<R>, key: R -> TraceId)
    returns (result: seq<Batch<R>>)
    ensures result == result0 + ScopesBatches(rg.resource, rg.scopes, key)
  {
    result := result0;
    var j := 0;
    while j < |rg.scopes|
      invariant 0 <= j <= |rg.scopes|
      invariant result == result0 + ScopesBatches(rg.resource, rg.scopes[..j], key)
    {
      ScopesBatchesSnoc(rg.resource, rg.scopes, j, key);
      result := SplitScope(result, rg.resource, rg.scopes[j], key);
      j := j + 1;
    }
    assert rg.scopes[..j] == rg.scopes;
  }

  /** The body of the scope loop. A fresh map takes each trace ID of the scope to the
      position of its batch in `result`; the first record of a trace appends a new
      batch (carrying the resource and the scope), and every record is then appended
      to its trace's batch. */
  method SplitScope<R>(result0: seq<Batch<R>>, resource: string, sc: Scope<R>, key: R -> TraceId)
    returns (result: seq<Batch<R>>)
    ensures result == result0 + ScopeBatches(resource, sc, key)
  {
    result := result0;
    var batches: map<TraceId, nat> := map[];
    ScopeInvStart(result0, resource, sc.name, key);
    var k := 0;
    while k < |sc.records|
      invariant 0 <= k <= |sc.records|
      invariant ScopeInv(result0, result, resource, sc.name, sc.records[..k], key, batches)
    {
      var r := sc.records[k];
      assert sc.records[..k + 1] == sc.records[..k] + [r];
      var id := key(r);
      if id !in batches {
        ScopeInvStepNew(result0, result, resource, sc.name, sc.records[..k], r, key, batches);
        result := result + [Single(resource, sc.name, [])];
        batches := batches[id := |result| - 1];
      } else {
        ScopeInvKnown(result0, result, resource, sc.name, sc.records[..k], key, batches, id);
        ScopeInvStepKnown(result0, result, resource, sc.name, sc.records[..k], r, key, batches);
      }
      var at := batches[id];
      result := result[at := AppendRecord(result[at], r)];
      k := k + 1;
    }
    assert sc.records[..k] == sc.records;
    assert result == result0 + ScopeBatches(resource, sc, key);
  }

  /** `SplitTraces`: one batch of spans per (resource, scope, trace ID); every batch
      is one resource with one scope and one trace, and together they hold exactly
      the input spans. */
  method SplitTraces(batch: Traces) returns (out: seq<Traces>)
    ensures out == SplitSpec(batch, SpanTraceId)
    ensures forall b :: b in out ==> OneTrace(b, SpanTraceId)
    ensures multiset(AllRecords(out)) == multiset(RecordsOf(batch))
  {
    out := Split(batch, SpanTraceId);
    SplitOneTrace(batch, SpanTraceId);
    SplitPartition(batch, SpanTraceId);
  }

  /** `SplitLogs`: one batch of log records per (resource, scope, trace ID); every
      batch is one resource with one scope and one trace, and together they hold
      exactly the input log records. */
  method SplitLogs(batch: Logs) returns (out: seq<Logs>)
    ensures out == SplitSpec(batch, LogTraceId)
    ensures forall b :: b in out ==> OneTrace(b, LogTraceId)
    ensures multiset(AllRecords(out)) == multiset(RecordsOf(batch))
  {
    out := Split(batch, LogTraceId);
    SplitOneTrace(batch, LogTraceId);
    SplitPartition(batch, LogTraceId);
  }
}
