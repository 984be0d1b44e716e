/**
  The data model of a telemetry batch and a declarative specification of how
  the splitter partitions it: for each resource, for each scope, one output
  batch per distinct trace ID of that scope, in order of first appearance,
  holding exactly that scope's records with that trace ID, in input order.
*/
module BatchSpec {
  import opened Primitives

  /** A 16-byte trace identifier. */
  type TraceId = s: seq<Byte> | |s| == 16 witness seq(16, _ => 0)

  /** The all-zero trace ID, which is also what a record carries when its trace ID was never set. */
  const EmptyTraceId: TraceId := seq(16, _ => 0)

  /** An instrumentation scope (its name) with its records, in order. */
  datatype Scope<R> = Scope(name: string, records: seq<R>)

  /** A resource (its attributes, abstracted to a label) with its scopes, in order. */
  datatype ResourceGroup<R> = ResourceGroup(resource: string, scopes: seq<Scope<R>>)

  /** A batch (`ptrace.Traces`, `plog.Logs`): a sequence of resource groups. */
  type Batch<R> = seq<ResourceGroup<R>>

  /** The distinct trace IDs of `rs`, in order of first appearance. */
  function FirstKeys<R>(rs: seq<R>, key: R -> TraceId): seq<TraceId>
    decreases |rs|
  {
    if rs == [] then []
    else
      var ks := FirstKeys(rs[..|rs| - 1], key);
      var k := key(rs[|rs| - 1]);
      if k in ks then ks else ks + [k]
  }

  /** The records of `rs` whose trace ID is `k`, in input order. */
  function Filter<R>(rs: seq<R>, key: R -> TraceId, k: TraceId): seq<R>
    decreases |rs|
  {
    if rs == [] then []
    else (if key(rs[0]) == k then [rs[0]] else []) + Filter(rs[1..], key, k)
  }

  /** An output batch: one resource group with one scope. */
  function Single<R>(resource: string, scopeName: string, records: seq<R>): Batch<R> {
    [ResourceGroup(resource, [Scope(scopeName, records)])]
  }

  /** The record groups of one scope: one per distinct trace ID, in first-appearance order. */
  function Buckets<R>(rs: seq<R>, key: R -> TraceId): seq<seq<R>> {
    var ks := FirstKeys(rs, key);
    seq(|ks|, m requires 0 <= m < |ks| => Filter(rs, key, ks[m]))
  }

  /** The output batches of one scope. */
  function ScopeBatches<R>(resource: string, sc: Scope<R>, key: R -> TraceId): seq<Batch<R>> {
    var bs := Buckets(sc.records, key);
    seq(|bs|, m requires 0 <= m < |bs| => Single(resource, sc.name, bs[m]))
  }

  /** The output batches of a resource's scopes, scope after scope. */
  function ScopesBatches<R>(resource: string, scopes: seq<Scope<R>>, key: R -> TraceId): seq<Batch<R>>
    decreases |scopes|
  {
    if scopes == [] then []
    else ScopesBatches(resource, scopes[..|scopes| - 1], key)
         + ScopeBatches(resource, scopes[|scopes| - 1], key)
  }

  /** The output batches of a whole batch, resource after resource. */
  function SplitSpec<R>(batch: Batch<R>, key: R -> TraceId): seq<Batch<R>>
    decreases |batch|
  {
    if batch == [] then []
    else SplitSpec(batch[..|batch| - 1], key)
         + ScopesBatches(batch[|batch| - 1].resource, batch[|batch| - 1].scopes, key)
  }

  /** The m-th batch of a scope holds the records of its m-th trace ID. */
  lemma ScopeBatchesAt<R>(resource: string, sc: Scope<R>, key: R -> TraceId, m: nat)
    requires m < |FirstKeys(sc.records, key)|
    ensures |ScopeBatches(resource, sc, key)| == |FirstKeys(sc.records, key)|
    ensures ScopeBatches(resource, sc, key)[m]
            == Single(resource, sc.name, Filter(sc.records, key, FirstKeys(sc.records, key)[m]))
  {
  }

  lemma ScopesBatchesSnoc<R>(resource: string, scopes: seq<Scope<R>>, j: nat, key: R -> TraceId)
    requires j < |scopes|
    ensures ScopesBatches(resource, scopes[..j + 1], key)
            == ScopesBatches(resource, scopes[..j], key) + ScopeBatches(resource, scopes[j], key)
  {
    assert scopes[..j + 1][..j] == scopes[..j];
  }

  lemma SplitSpecSnoc<R>(batch: Batch<R>, i: nat, key: R -> TraceId)
    requires i < |batch|
    ensures SplitSpec(batch[..i + 1], key)
            == SplitSpec(batch[..i], key) + ScopesBatches(batch[i].resource, batch[i].scopes, key)
  {
    assert batch[..i + 1][..i] == batch[..i];
  }

  // ---------------------------------------------------------------------------
  // Facts about FirstKeys and Filter on a growing prefix (used by the splitter)
  // ---------------------------------------------------------------------------

  lemma FirstKeysSnoc<R>(p: seq<R>, r: R, key: R -> TraceId)
    ensures FirstKeys(p + [r], key) ==
            if key(r) in FirstKeys(p, key) then FirstKeys(p, key) else FirstKeys(p, key) + [key(r)]
  {
    assert (p + [r])[..|p|] == p;
  }

  lemma {:induction false} FilterSnoc<R>(p: seq<R>, r: R, key: R -> TraceId, k: TraceId)
    ensures Filter(p + [r], key, k) == Filter(p, key, k) + (if key(r) == k then [r] else [])
    decreases |p|
  {
    if p != [] {
      assert (p + [r])[1..] == p[1..] + [r];
      FilterSnoc(p[1..], r, key, k);
    }
  }

  /** A trace ID is listed exactly when some record carries it. */
  lemma {:induction false} FirstKeysCover<R>(rs: seq<R>, key: R -> TraceId, t: TraceId)
    ensures t in FirstKeys(rs, key) <==> exists i :: 0 <= i < |rs| && key(rs[i]) == t
    decreases |rs|
  {
    if rs != [] {
      var p := rs[..|rs| - 1];
      FirstKeysCover(p, key, t);
      assert rs == p + [rs[|rs| - 1]];
      if exists i :: 0 <= i < |rs| && key(rs[i]) == t {
        var i :| 0 <= i < |rs| && key(rs[i]) == t;
        if i < |p| { assert key(p[i]) == t; }
      }
    }
  }

  /** No trace ID is listed twice. */
  lemma {:induction false} FirstKeysDistinct<R>(rs: seq<R>, key: R -> TraceId)
    ensures forall m, n :: 0 <= m < n < |FirstKeys(rs, key)| ==> FirstKeys(rs, key)[m] != FirstKeys(rs, key)[n]
    decreases |rs|
  {
    if rs != [] {
      FirstKeysDistinct(rs[..|rs| - 1], key);
    }
  }

  /** A trace ID that is not listed selects nothing. */
  lemma {:induction false} FilterUnlisted<R>(rs: seq<R>, key: R -> TraceId, t: TraceId)
    requires t !in FirstKeys(rs, key)
    ensures Filter(rs, key, t) == []
    decreases |rs|
  {
    if rs != [] {
      var p, x := rs[..|rs| - 1], rs[|rs| - 1];
      assert rs == p + [x];
      FirstKeysUnlisted(p, x, key, t);
      FilterUnlisted(p, key, t);
      FilterSnoc(p, x, key, t);
    }
  }

  lemma FirstKeysUnlisted<R>(p: seq<R>, x: R, key: R -> TraceId, t: TraceId)
    requires t !in FirstKeys(p + [x], key)
    ensures t !in FirstKeys(p, key) && key(x) != t
  {
    FirstKeysSnoc(p, x, key);
  }

  /** Appending a record whose trace ID is already listed extends that trace's group. */
  lemma BucketsSnocKnown<R>(p: seq<R>, r: R, key: R -> TraceId, m: nat)
    requires m < |FirstKeys(p, key)| && FirstKeys(p, key)[m] == key(r)
    ensures Buckets(p + [r], key) == Buckets(p, key)[m := Buckets(p, key)[m] + [r]]
  {
    FirstKeysSnoc(p, r, key);
    FirstKeysDistinct(p, key);
    var ks := FirstKeys(p, key);
    var bs, bs' := Buckets(p, key), Buckets(p + [r], key);
    assert |bs'| == |ks| == |bs|;
    forall n | 0 <= n < |ks|
      ensures bs'[n] == bs[m := bs[m] + [r]][n]
    {
      FilterSnoc(p, r, key, ks[n]);
    }
  }

  /** Appending a record with a new trace ID opens a new group holding just it. */
  lemma BucketsSnocNew<R>(p: seq<R>, r: R, key: R -> TraceId)
    requires key(r) !in FirstKeys(p, key)
    ensures Buckets(p + [r], key) == Buckets(p, key) + [[r]]
  {
    FirstKeysSnoc(p, r, key);
    var ks := FirstKeys(p, key);
    var bs, bs' := Buckets(p, key), Buckets(p + [r], key);
    assert |bs'| == |ks| + 1;
    forall n | 0 <= n < |ks|
      ensures bs'[n] == bs[n]
    {
      FilterSnoc(p, r, key, ks[n]);
    }
    FilterUnlisted(p, key, key(r));
    FilterSnoc(p, r, key, key(r));
    assert bs'[|ks|] == [r];
  }

  /** Appends a record to the one scope of an output batch. */
  function AppendRecord<R>(b: Batch<R>, r: R): (b': Batch<R>)
    requires |b| > 0 && |b[0].scopes| > 0
    ensures |b| == 1 && |b[0].scopes| == 1 ==>
            b' == Single(b[0].resource, b[0].scopes[0].name, b[0].scopes[0].records + [r])
  {
    var g := b[0];
    var sc := g.scopes[0];
    var b' := b[0 := g.(scopes := g.scopes[0 := sc.(records := sc.records + [r])])];
    assert |b| == 1 && |g.scopes| == 1 ==> b' == [b'[0]] && b'[0].scopes == [b'[0].scopes[0]];
    b'
  }

  /** The splitter's step on a known trace ID: that trace's batch gains the record. */
  lemma ScopeBatchesSnocKnown<R>(resource: string, name: string, p: seq<R>, r: R, key: R -> TraceId, m: nat)
    requires m < |FirstKeys(p, key)| && FirstKeys(p, key)[m] == key(r)
    ensures var sb := ScopeBatches(resource, Scope(name, p), key);
            && m < |sb| && sb[m] == Single(resource, name, sb[m][0].scopes[0].records)
            && ScopeBatches(resource, Scope(name, p + [r]), key) == sb[m := AppendRecord(sb[m], r)]
  {
    BucketsSnocKnown(p, r, key, m);
  }

  /** The splitter's step on a new trace ID: a new, empty batch, which then gains the record. */
  lemma ScopeBatchesSnocNew<R>(resource: string, name: string, p: seq<R>, r: R, key: R -> TraceId)
    requires key(r) !in FirstKeys(p, key)
    ensures var sb := ScopeBatches(resource, Scope(name, p), key) + [Single(resource, name, [])];
            && ScopeBatches(resource, Scope(name, p + [r]), key) == sb[|sb| - 1 := AppendRecord(sb[|sb| - 1], r)]
  {
    BucketsSnocNew(p, r, key);
  }

  /** Updating past a prefix leaves the prefix alone. */
  lemma UpdateAfterPrefix<T>(a: seq<T>, b: seq<T>, m: nat, x: T)
    requires m < |b|
    ensures (a + b)[|a| + m := x] == a + b[m := x]
  {
  }

  // ---------------------------------------------------------------------------
  // The invariant of the splitter's record loop, and its two steps
  // ---------------------------------------------------------------------------

  /** After the records `p` of a scope: `result` is `result0` followed by the
      batches of `p`, and `batches` maps each trace ID met so far to the position
      of its batch in `result`. */
  ghost predicate ScopeInv<R>(result0: seq<Batch<R>>, result: seq<Batch<R>>, resource: string, name: string,
                              p: seq<R>, key: R -> TraceId, batches: map<TraceId, nat>)
  {
    var ks := FirstKeys(p, key);
    && result == result0 + ScopeBatches(resource, Scope(name, p), key)
    && (forall t :: t in batches <==> t in ks)
    && (forall m :: 0 <= m < |ks| ==> batches[ks[m]] == |result0| + m)
  }

  lemma ScopeInvStart<R>(result0: seq<Batch<R>>, resource: string, name: string, key: R -> TraceId)
    ensures ScopeInv(result0, result0, resource, name, [], key, map[])
  {
    assert result0 + [] == result0;
  }

  /** The invariant gives the position of a known trace's batch. */
  lemma ScopeInvKnown<R>(result0: seq<Batch<R>>, result: seq<Batch<R>>, resource: string, name: string,
                         p: seq<R>, key: R -> TraceId, batches: map<TraceId, nat>, id: TraceId)
    requires ScopeInv(result0, result, resource, name, p, key, batches) && id in batches
    ensures |result0| <= batches[id] < |result|
    ensures |result[batches[id]]| == 1 && |result[batches[id]][0].scopes| == 1
  {
    var ks := FirstKeys(p, key);
    var m :| 0 <= m < |ks| && ks[m] == id;
    ScopeBatchesAt(resource, Scope(name, p), key, m);
  }

  /** Step on a record whose trace ID is new: a new batch is appended, the map
      records its position, and the record goes into it. */
  lemma ScopeInvStepNew<R>(result0: seq<Batch<R>>, result: seq<Batch<R>>, resource: string, name: string,
                           p: seq<R>, r: R, key: R -> TraceId, batches: map<TraceId, nat>)
    requires ScopeInv(result0, result, resource, name, p, key, batches) && key(r) !in batches
    ensures var grown := result + [Single(resource, name, [])];
            ScopeInv(result0, grown[|result| := AppendRecord(grown[|result|], r)], resource, name,
                     p + [r], key, batches[key(r) := |result|])
  {
    FirstKeysSnoc(p, r, key);
    ScopeBatchesSnocNew(resource, name, p, r, key);
    var sb := ScopeBatches(resource, Scope(name, p), key) + [Single(resource, name, [])];
    UpdateAfterPrefix(result0, sb, |sb| - 1, AppendRecord(sb[|sb| - 1], r));
    assert result + [Single(resource, name, [])] == result0 + sb;
  }

  /** Step on a record whose trace ID was met before: the record goes into that
      trace's batch and the map is unchanged. */
  lemma ScopeInvStepKnown<R>(result0: seq<Batch<R>>, result: seq<Batch<R>>, resource: string, name: string,
                             p: seq<R>, r: R, key: R -> TraceId, batches: map<TraceId, nat>)
    requires ScopeInv(result0, result, resource, name, p, key, batches) && key(r) in batches
    requires |result0| <= batches[key(r)] < |result|
    requires |result[batches[key(r)]]| > 0 && |result[batches[key(r)]][0].scopes| > 0
    ensures var at := batches[key(r)];
            ScopeInv(result0, result[at := AppendRecord(result[at], r)], resource, name, p + [r], key, batches)
  {
    FirstKeysSnoc(p, r, key);
    var ks := FirstKeys(p, key);
    var m :| 0 <= m < |ks| && ks[m] == key(r);
    ScopeBatchesSnocKnown(resource, name, p, r, key, m);
    var sb := ScopeBatches(resource, Scope(name, p), key);
    UpdateAfterPrefix(result0, sb, m, AppendRecord(sb[m], r));
  }
}
