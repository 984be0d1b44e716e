/** The scenarios of the splitter's tests, evaluated on the specification. */
module BatchScenarios {
  import opened Primitives
  import opened BatchSpec
  import opened BatchPerSignal

  const Id1234: TraceId := [1, 2, 3, 4] + seq(12, _ => 0)
  const Id2345: TraceId := [2, 3, 4, 5] + seq(12, _ => 0)

  lemma IdsDiffer()
    ensures Id1234 != Id2345 && Id1234 != EmptyTraceId && Id2345 != EmptyTraceId
  {
    assert Id1234[0] != Id2345[0] && Id1234[0] != EmptyTraceId[0] && Id2345[0] != EmptyTraceId[0];
  }

  lemma SplitOneResource<R>(rg: ResourceGroup<R>, key: R -> TraceId)
    ensures SplitSpec([rg], key) == ScopesBatches(rg.resource, rg.scopes, key)
  {
    assert [rg][..0] == [];
  }

  lemma ScopesOne<R>(resource: string, a: Scope<R>, key: R -> TraceId)
    ensures ScopesBatches(resource, [a], key) == ScopeBatches(resource, a, key)
  {
    assert [a][..0] == [];
  }

  lemma ScopesTwo<R>(resource: string, a: Scope<R>, b: Scope<R>, key: R -> TraceId)
    ensures ScopesBatches(resource, [a, b], key) == ScopeBatches(resource, a, key) + ScopeBatches(resource, b, key)
  {
    assert [a, b][..1] == [a];
    ScopesOne(resource, a, key);
  }

  lemma FirstKeysOne<R>(x: R, key: R -> TraceId)
    ensures FirstKeys([x], key) == [key(x)]
  {
    FirstKeysSnoc([], x, key);
    assert [] + [x] == [x];
  }

  lemma FirstKeysTwo<R>(x: R, y: R, key: R -> TraceId)
    ensures FirstKeys([x, y], key) == if key(x) == key(y) then [key(x)] else [key(x), key(y)]
  {
    FirstKeysOne(x, key);
    FirstKeysSnoc([x], y, key);
    assert [x] + [y] == [x, y];
  }

  lemma FilterOne<R>(x: R, key: R -> TraceId, k: TraceId)
    ensures Filter([x], key, k) == if key(x) == k then [x] else []
  {
    assert [x][1..] == [];
  }

  lemma FilterTwo<R>(x: R, y: R, key: R -> TraceId, k: TraceId)
    ensures Filter([x, y], key, k) == (if key(x) == k then [x] else []) + (if key(y) == k then [y] else [])
  {
    assert [x, y][1..] == [y];
    FilterOne(y, key, k);
  }

  lemma FilterThree<R>(x: R, y: R, z: R, key: R -> TraceId, k: TraceId)
    ensures Filter([x, y, z], key, k)
         == (if key(x) == k then [x] else []) + (if key(y) == k then [y] else []) + (if key(z) == k then [z] else [])
  {
    assert [x, y, z][1..] == [y, z];
    FilterTwo(y, z, key, k);
  }

  lemma ScopeOneRecord<R>(resource: string, name: string, x: R, key: R -> TraceId)
    ensures ScopeBatches(resource, Scope(name, [x]), key) == [Single(resource, name, [x])]
  {
    FirstKeysOne(x, key);
    FilterOne(x, key, key(x));
    ScopeBatchesAt(resource, Scope(name, [x]), key, 0);
  }

  lemma ScopeTwoSameTrace<R>(resource: string, name: string, x: R, y: R, key: R -> TraceId)
    requires key(x) == key(y)
    ensures ScopeBatches(resource, Scope(name, [x, y]), key) == [Single(resource, name, [x, y])]
  {
    FirstKeysTwo(x, y, key);
    FilterTwo(x, y, key, key(x));
    var sb := ScopeBatches(resource, Scope(name, [x, y]), key);
    ScopeBatchesAt(resource, Scope(name, [x, y]), key, 0);
    assert FirstKeys([x, y], key) == [key(x)];
    assert Filter([x, y], key, key(x)) == [x, y];
    assert |sb| == 1 && sb[0] == Single(resource, name, [x, y]);
  }

  lemma FilterTwoDistinct<R>(x: R, y: R, key: R -> TraceId)
    requires key(x) != key(y)
    ensures Filter([x, y], key, key(x)) == [x]
    ensures Filter([x, y], key, key(y)) == [y]
  {
    FilterTwo(x, y, key, key(x));
    FilterTwo(x, y, key, key(y));
  }

  lemma ScopeTwoTraces<R>(resource: string, name: string, x: R, y: R, key: R -> TraceId)
    requires key(x) != key(y)
    ensures ScopeBatches(resource, Scope(name, [x, y]), key)
            == [Single(resource, name, [x]), Single(resource, name, [y])]
  {
    var sc := Scope(name, [x, y]);
    var sb := ScopeBatches(resource, sc, key);
    FirstKeysTwo(x, y, key);
    FilterTwoDistinct(x, y, key);
    ScopeBatchesAt(resource, sc, key, 0);
    ScopeBatchesAt(resource, sc, key, 1);
    assert |sb| == 2 && sb[0] == Single(resource, name, [x]) && sb[1] == Single(resource, name, [y]);
  }

  lemma FirstKeysThreeDistinct<R>(x: R, y: R, z: R, key: R -> TraceId)
    requires key(x) != key(y) && key(x) != key(z) && key(y) != key(z)
    ensures FirstKeys([x, y, z], key) == [key(x), key(y), key(z)]
  {
    FirstKeysTwo(x, y, key);
    FirstKeysSnoc([x, y], z, key);
    assert [x, y] + [z] == [x, y, z];
  }

  lemma FilterThreeDistinct<R>(x: R, y: R, z: R, key: R -> TraceId)
    requires key(x) != key(y) && key(x) != key(z) && key(y) != key(z)
    ensures Filter([x, y, z], key, key(x)) == [x]
    ensures Filter([x, y, z], key, key(y)) == [y]
    ensures Filter([x, y, z], key, key(z)) == [z]
  {
    FilterThree(x, y, z, key, key(x));
    FilterThree(x, y, z, key, key(y));
    FilterThree(x, y, z, key, key(z));
  }

  lemma ScopeThreeTraces<R>(resource: string, name: string, x: R, y: R, z: R, key: R -> TraceId)
    requires key(x) != key(y) && key(x) != key(z) && key(y) != key(z)
    ensures ScopeBatches(resource, Scope(name, [x, y, z]), key)
            == [Single(resource, name, [x]), Single(resource, name, [y]), Single(resource, name, [z])]
  {
    var sc := Scope(name, [x, y, z]);
    var sb := ScopeBatches(resource, sc, key);
    FirstKeysThreeDistinct(x, y, z, key);
    FilterThreeDistinct(x, y, z, key);
    ScopeBatchesAt(resource, sc, key, 0);
    ScopeBatchesAt(resource, sc, key, 1);
    ScopeBatchesAt(resource, sc, key, 2);
    assert |sb| == 3 && sb[0] == Single(resource, name, [x]) && sb[1] == Single(resource, name, [y])
        && sb[2] == Single(resource, name, [z]);
  }

  /** One scope with two trace IDs gives two batches, in first-appearance order. */
  lemma SplitDifferentTraces()
    ensures var s1 := Span("first-batch-first-span", Id1234);
            var s2 := Span("first-batch-second-span", Id2345);
            SplitSpec([ResourceGroup("", [Scope("first-library", [s1, s2])])], SpanTraceId)
            == [Single("", "first-library", [s1]), Single("", "first-library", [s2])]
  {
    var s1 := Span("first-batch-first-span", Id1234);
    var s2 := Span("first-batch-second-span", Id2345);
    var sc := Scope("first-library", [s1, s2]);
    IdsDiffer();
    SplitOneResource(ResourceGroup("", [sc]), SpanTraceId);
    ScopesOne("", sc, SpanTraceId);
    ScopeTwoTraces("", sc.name, s1, s2, SpanTraceId);
  }

  /** A single span with the all-zero trace ID gives one batch that keeps the ID. */
  lemma SplitTracesZeroId()
    ensures var s := Span("", EmptyTraceId);
            SplitSpec([ResourceGroup("", [Scope("", [s])])], SpanTraceId) == [Single("", "", [s])]
  {
    var s := Span("", EmptyTraceId);
    var sc := Scope("", [s]);
    SplitOneResource(ResourceGroup("", [sc]), SpanTraceId);
    ScopesOne("", sc, SpanTraceId);
    ScopeOneRecord("", "", s, SpanTraceId);
  }

  /** The same trace ID in two scopes gives two batches, in scope order; spans that
      share a trace ID in one scope share a batch, in input order. */
  lemma SplitSameTraceTwoScopes()
    ensures var s1 := Span("first-batch-first-span", Id1234);
            var s2 := Span("first-batch-second-span", Id1234);
            var s3 := Span("second-batch-first-span", Id1234);
            SplitSpec([ResourceGroup("", [Scope("first-library", [s1, s2]), Scope("second-library", [s3])])], SpanTraceId)
            == [Single("", "first-library", [s1, s2]), Single("", "second-library", [s3])]
  {
    var s1 := Span("first-batch-first-span", Id1234);
    var s2 := Span("first-batch-second-span", Id1234);
    var s3 := Span("second-batch-first-span", Id1234);
    var a, b := Scope("first-library", [s1, s2]), Scope("second-library", [s3]);
    SplitOneResource(ResourceGroup("", [a, b]), SpanTraceId);
    ScopesTwo("", a, b, SpanTraceId);
    ScopeTwoSameTrace("", a.name, s1, s2, SpanTraceId);
    ScopeOneRecord("", b.name, s3, SpanTraceId);
  }

  /** Two logs with distinct trace IDs and one whose trace ID was never set give
      three batches, in first-appearance order. */
  lemma SplitDifferentLogs()
    ensures var l1 := LogRecord("first-batch-first-log", Id1234);
            var l2 := LogRecord("first-batch-second-log", Id2345);
            var l3 := LogRecord("first-batch-third-log", EmptyTraceId);
            SplitSpec([ResourceGroup("", [Scope("first-library", [l1, l2, l3])])], LogTraceId)
            == [Single("", "first-library", [l1]), Single("", "first-library", [l2]),
                Single("", "first-library", [l3])]
  {
    var l1 := LogRecord("first-batch-first-log", Id1234);
    var l2 := LogRecord("first-batch-second-log", Id2345);
    var l3 := LogRecord("first-batch-third-log", EmptyTraceId);
    var sc := Scope("first-library", [l1, l2, l3]);
    IdsDiffer();
    SplitOneResource(ResourceGroup("", [sc]), LogTraceId);
    ScopesOne("", sc, LogTraceId);
    ScopeThreeTraces("", sc.name, l1, l2, l3, LogTraceId);
  }

  /** A single log with the all-zero trace ID gives one batch that keeps the ID. */
  lemma SplitLogsZeroId()
    ensures var l := LogRecord("", EmptyTraceId);
            SplitSpec([ResourceGroup("", [Scope("", [l])])], LogTraceId) == [Single("", "", [l])]
  {
    var l := LogRecord("", EmptyTraceId);
    var sc := Scope("", [l]);
    SplitOneResource(ResourceGroup("", [sc]), LogTraceId);
    ScopesOne("", sc, LogTraceId);
    ScopeOneRecord("", "", l, LogTraceId);
  }

  /** The same trace ID in two scopes gives two batches of logs, in scope order. */
  lemma SplitLogsSameTraceTwoScopes()
    ensures var l1 := LogRecord("first-batch-first-log", Id1234);
            var l2 := LogRecord("first-batch-second-log", Id1234);
            var l3 := LogRecord("second-batch-first-log", Id1234);
            SplitSpec([ResourceGroup("", [Scope("first-library", [l1, l2]), Scope("second-library", [l3])])], LogTraceId)
            == [Single("", "first-library", [l1, l2]), Single("", "second-library", [l3])]
  {
    var l1 := LogRecord("first-batch-first-log", Id1234);
    var l2 := LogRecord("first-batch-second-log", Id1234);
    var l3 := LogRecord("second-batch-first-log", Id1234);
    var a, b := Scope("first-library", [l1, l2]), Scope("second-library", [l3]);
    SplitOneResource(ResourceGroup("", [a, b]), LogTraceId);
    ScopesTwo("", a, b, LogTraceId);
    ScopeTwoSameTrace("", a.name, l1, l2, LogTraceId);
    ScopeOneRecord("", b.name, l3, LogTraceId);
  }
}
