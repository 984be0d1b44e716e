/**
  What the splitter promises, proved of its specification: the shape of each
  output batch, that every batch holds one trace and one scope, that the output
  is a partition of the input records, and that batches come in order of first
  appearance.
*/
module BatchLemmas {
  import opened Primitives
  import opened BatchSpec

  // ---------------------------------------------------------------------------
  // One scope
  // ---------------------------------------------------------------------------

  /** Every record selected for a trace ID carries that trace ID. */
  lemma {:induction false} FilterKeys<R>(rs: seq<R>, key: R -> TraceId, k: TraceId)
    ensures forall n :: 0 <= n < |Filter(rs, key, k)| ==> key(Filter(rs, key, k)[n]) == k
    decreases |rs|
  {
    if rs != [] {
      FilterKeys(rs[1..], key, k);
    }
  }

  /** A trace ID that some record carries selects at least that record. */
  lemma {:induction false} FilterHas<R>(rs: seq<R>, key: R -> TraceId, i: nat)
    requires i < |rs|
    ensures rs[i] in Filter(rs, key, key(rs[i]))
    decreases |rs|
  {
    if i > 0 {
      FilterHas(rs[1..], key, i - 1);
    }
  }

  /** The batches of one scope: the m-th carries the scope's resource and name and
      the m-th trace ID's records, at least one, all with that trace ID; no two
      batches of the scope share a trace ID, and every trace ID of the scope has one. */
  lemma ScopeBatchesShape<R>(resource: string, sc: Scope<R>, key: R -> TraceId)
    ensures var ks, sb := FirstKeys(sc.records, key), ScopeBatches(resource, sc, key);
      && |sb| == |ks|
      && (forall m :: 0 <= m < |sb| ==>
            && sb[m] == Single(resource, sc.name, Filter(sc.records, key, ks[m]))
            && Filter(sc.records, key, ks[m]) != []
            && (forall x :: x in Filter(sc.records, key, ks[m]) ==> key(x) == ks[m]))
      && (forall m, n :: 0 <= m < n < |ks| ==> ks[m] != ks[n])
      && (forall i :: 0 <= i < |sc.records| ==> key(sc.records[i]) in ks)
  {
    var rs := sc.records;
    var ks := FirstKeys(rs, key);
    FirstKeysDistinct(rs, key);
    forall m | 0 <= m < |ks|
      ensures Filter(rs, key, ks[m]) != []
      ensures forall x :: x in Filter(rs, key, ks[m]) ==> key(x) == ks[m]
    {
      FirstKeysCover(rs, key, ks[m]);
      var i :| 0 <= i < |rs| && key(rs[i]) == ks[m];
      FilterHas(rs, key, i);
      FilterKeys(rs, key, ks[m]);
    }
    forall i | 0 <= i < |rs| ensures key(rs[i]) in ks {
      FirstKeysCover(rs, key, key(rs[i]));
    }
  }

  /** Input order within a trace: the records of a prefix of a scope that carry a
      trace ID come first, in the same order, among that trace ID's records of the
      whole scope. */
  lemma {:induction false} FilterPrefix<R>(rs: seq<R>, key: R -> TraceId, k: TraceId, n: nat)
    requires n <= |rs|
    ensures Filter(rs[..n], key, k) <= Filter(rs, key, k)
    decreases |rs|
  {
    if n > 0 {
      assert rs[..n][1..] == rs[1..][..n - 1];
      FilterPrefix(rs[1..], key, k, n - 1);
    }
  }

  /** Order of first appearance: the trace IDs met in any prefix of a scope are the
      first trace IDs of the whole scope, in the same order. */
  lemma {:induction false} FirstKeysPrefix<R>(rs: seq<R>, key: R -> TraceId, n: nat)
    requires n <= |rs|
    ensures FirstKeys(rs[..n], key) <= FirstKeys(rs, key)
    decreases |rs|
  {
    if n < |rs| {
      var p := rs[..|rs| - 1];
      assert rs[..n] == p[..n];
      FirstKeysPrefix(p, key, n);
    } else {
      assert rs[..n] == rs;
    }
  }

  // ---------------------------------------------------------------------------
  // Partition: every input record lands in exactly one output batch
  // ---------------------------------------------------------------------------

  /** Concatenation of groups. */
  function Flatten<T>(ss: seq<seq<T>>): seq<T>
    decreases |ss|
  {
    if ss == [] then [] else Flatten(ss[..|ss| - 1]) + ss[|ss| - 1]
  }

  /** The records of a list of scopes, scope after scope. */
  function ScopeRecords<R>(scopes: seq<Scope<R>>): seq<R>
    decreases |scopes|
  {
    if scopes == [] then [] else ScopeRecords(scopes[..|scopes| - 1]) + scopes[|scopes| - 1].records
  }

  /** The records of a batch, resource after resource. */
  function RecordsOf<R>(b: Batch<R>): seq<R>
    decreases |b|
  {
    if b == [] then [] else RecordsOf(b[..|b| - 1]) + ScopeRecords(b[|b| - 1].scopes)
  }

  /** The records of a list of batches, batch after batch. */
  function AllRecords<R>(bs: seq<Batch<R>>): seq<R>
    decreases |bs|
  {
    if bs == [] then [] else AllRecords(bs[..|bs| - 1]) + RecordsOf(bs[|bs| - 1])
  }

  lemma {:induction false} AllRecordsAppend<R>(x: seq<Batch<R>>, y: seq<Batch<R>>)
    ensures AllRecords(x + y) == AllRecords(x) + AllRecords(y)
    decreases |y|
  {
    if y != [] {
      assert (x + y)[..|x + y| - 1] == x + y[..|y| - 1];
      assert (x + y)[|x + y| - 1] == y[|y| - 1];
      AllRecordsAppend(x, y[..|y| - 1]);
    } else {
      assert x + y == x;
    }
  }

  lemma RecordsOfSingle<R>(resource: string, name: string, rs: seq<R>)
    ensures RecordsOf(Single(resource, name, rs)) == rs
  {
    var b := Single(resource, name, rs);
    var scopes := b[0].scopes;
    assert scopes[..0] == [];
    assert ScopeRecords(scopes) == ScopeRecords(scopes[..0]) + rs == rs;
    assert b[..0] == [];
    assert RecordsOf(b) == RecordsOf(b[..0]) + ScopeRecords(scopes);
  }

  lemma {:induction false} AllRecordsSingles<R>(resource: string, name: string, bs: seq<seq<R>>)
    ensures AllRecords(seq(|bs|, m requires 0 <= m < |bs| => Single(resource, name, bs[m]))) == Flatten(bs)
    decreases |bs|
  {
    if bs != [] {
      var p := bs[..|bs| - 1];
      var w := seq(|bs|, m requires 0 <= m < |bs| => Single(resource, name, bs[m]));
      assert w[..|w| - 1] == seq(|p|, m requires 0 <= m < |p| => Single(resource, name, p[m]));
      AllRecordsSingles(resource, name, p);
      RecordsOfSingle(resource, name, bs[|bs| - 1]);
    }
  }

  lemma {:induction false} FlattenExtend<R>(bs: seq<seq<R>>, m: nat, r: R)
    requires m < |bs|
    ensures multiset(Flatten(bs[m := bs[m] + [r]])) == multiset(Flatten(bs)) + multiset{r}
    decreases |bs|
  {
    var n := |bs| - 1;
    var bs' := bs[m := bs[m] + [r]];
    if m == n {
      assert bs'[..n] == bs[..n];
    } else {
      assert bs'[..n] == bs[..n][m := bs[m] + [r]];
      FlattenExtend(bs[..n], m, r);
    }
  }

  /** The groups of a scope hold exactly the scope's records. */
  lemma {:induction false} BucketsPartition<R>(rs: seq<R>, key: R -> TraceId)
    ensures multiset(Flatten(Buckets(rs, key))) == multiset(rs)
    decreases |rs|
  {
    if rs != [] {
      var p, r := rs[..|rs| - 1], rs[|rs| - 1];
      assert rs == p + [r];
      BucketsPartition(p, key);
      var ks := FirstKeys(p, key);
      if key(r) in ks {
        var m :| 0 <= m < |ks| && ks[m] == key(r);
        BucketsSnocKnown(p, r, key, m);
        FlattenExtend(Buckets(p, key), m, r);
      } else {
        BucketsSnocNew(p, r, key);
        assert (Buckets(p, key) + [[r]])[..|Buckets(p, key)|] == Buckets(p, key);
      }
    }
  }

  lemma {:induction false} ScopesPartition<R>(resource: string, scopes: seq<Scope<R>>, key: R -> TraceId)
    ensures multiset(AllRecords(ScopesBatches(resource, scopes, key))) == multiset(ScopeRecords(scopes))
    decreases |scopes|
  {
    if scopes != [] {
      var p, sc := scopes[..|scopes| - 1], scopes[|scopes| - 1];
      ScopesPartition(resource, p, key);
      AllRecordsAppend(ScopesBatches(resource, p, key), ScopeBatches(resource, sc, key));
      AllRecordsSingles(resource, sc.name, Buckets(sc.records, key));
      BucketsPartition(sc.records, key);
    }
  }

  /** Partition: the output batches hold exactly the input records, each as often as
      in the input. */
  lemma {:induction false} SplitPartition<R>(batch: Batch<R>, key: R -> TraceId)
    ensures multiset(AllRecords(SplitSpec(batch, key))) == multiset(RecordsOf(batch))
    decreases |batch|
  {
    if batch != [] {
      var p, rg := batch[..|batch| - 1], batch[|batch| - 1];
      SplitPartition(p, key);
      AllRecordsAppend(SplitSpec(p, key), ScopesBatches(rg.resource, rg.scopes, key));
      ScopesPartition(rg.resource, rg.scopes, key);
    }
  }

  // ---------------------------------------------------------------------------
  // Every output batch holds one resource, one scope and one trace
  // ---------------------------------------------------------------------------

  /** An output batch as the splitter makes it. */
  ghost predicate OneTrace<R>(b: Batch<R>, key: R -> TraceId) {
    && |b| == 1 && |b[0].scopes| == 1
    && b[0].scopes[0].records != []
    && forall x :: x in b[0].scopes[0].records ==> key(x) == key(b[0].scopes[0].records[0])
  }

  lemma {:induction false} ScopesOneTrace<R>(resource: string, scopes: seq<Scope<R>>, key: R -> TraceId)
    ensures forall b: Batch<R> :: b in ScopesBatches(resource, scopes, key) ==> OneTrace(b, key) && b[0].resource == resource
    decreases |scopes|
  {
    if scopes != [] {
      ScopesOneTrace(resource, scopes[..|scopes| - 1], key);
      ScopeBatchesShape(resource, scopes[|scopes| - 1], key);
    }
  }

  /** Each output batch is one resource with one scope, holding at least one record,
      all records with the same trace ID. */
  lemma {:induction false} SplitOneTrace<R>(batch: Batch<R>, key: R -> TraceId)
    ensures forall b :: b in SplitSpec(batch, key) ==> OneTrace(b, key)
    decreases |batch|
  {
    if batch != [] {
      SplitOneTrace(batch[..|batch| - 1], key);
      ScopesOneTrace(batch[|batch| - 1].resource, batch[|batch| - 1].scopes, key);
    }
  }
}
