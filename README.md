# Telemetry comparison engine and per-signal batch splitter

This project models two pieces of the OpenTelemetry Collector contrib repository.
The model is written in Dafny, and Dafny proves properties of it.

1. **The telemetry query language comparison engine**, `compare(a, b, op)`. It
   takes two dynamically typed values (bool, int64, float64, string, byte slice,
   nil, or any other Go value) and one of six operators (EQ, NE, LT, LTE, GTE, GT,
   in that enum order). It returns a boolean and never fails.
   - A nil byte slice counts as nil.
   - int64 and float64 values compare with each other by numeric value.
   - Strings compare with strings, byte slices with byte slices and bools with
     bools (false < true).
   - Any other Go value ("non-primitive") can be equal to a value of the same type
     and contents, but is never ordered.
   - Every other pair is incomparable: only NE holds.

   Module `TqlCompare` models the engine as pure functions:
   - `Classify` sorts each operand into a kind;
   - `Resolve` turns the pair into an `Outcome`, which is a three-way `Ordering`
     or a bare equal/unequal verdict;
   - `Dispatch` maps that outcome onto the operator.

   Module `TqlCompareLemmas` proves the laws the engine keeps, and every row of
   the test table `Test_compare`.

2. **The per-signal batch splitter**, `SplitTraces` / `SplitLogs`. It partitions a
   telemetry batch into output batches keyed by resource, scope and trace ID.
   - It walks resources, then scopes, then records.
   - For each scope it keeps a fresh map from trace ID to an index in the output.
   - The first record of a trace appends a new batch carrying the resource and the
     scope. Every record is then appended to its trace's batch.

   Module `BatchSpec` holds the data model and a declarative specification,
   `SplitSpec`, with the invariant the scope loop keeps:
   - Records are generic. The trace ID is read through a key function, so spans
     and log records share one splitter.
   - One output batch is made per distinct trace ID of a scope, in order of first
     appearance.
   - Each batch holds that scope's records with that trace ID, in input order.

   Module `BatchPerSignal` holds the imperative splitter: nested loops, the map
   from trace ID to batch index that is reset per scope, and the result sequence
   updated in place. Each method is proved equal to the specification.

   Module `BatchLemmas` proves what the splitter promises:
   - the shape of each batch;
   - one resource, one scope and one trace per batch;
   - the partition of the input records;
   - the order of first appearance.

   Module `BatchScenarios` evaluates the specification on the six test inputs.

The implementation files (`compare.go`, `batchpersignal.go`) are not part of this
model. The behaviour modelled is the one the two test files state row by row, so
the source cells below cite those tests.

## Model

| member | source | states |
|---|---|---|
| TqlCompare.OpIndex | pkg/telemetryquerylanguage/tql/compare_test.go:113-117 | an operator's enum position is below 6 and indexes that operator in EQ, NE, LT, LTE, GTE, GT, so a row of expected results is read by operator position |
| TqlCompare.Row | pkg/telemetryquerylanguage/tql/compare_test.go:57 | a row has six results, and the result at each operator's enum position is `compare(a, b, op)` |
| TqlCompare.CompareBool | pkg/telemetryquerylanguage/tql/compare_test.go:78-81 | two bools are equal exactly when they are the same, and the first is smaller exactly when it is false and the second true |
| TqlCompare.CompareReal | pkg/telemetryquerylanguage/tql/compare_test.go:98-105 | the numeric outcome is Less, Equal or Greater exactly when the numbers are <, = or > |
| TqlCompare.CompareLex | pkg/telemetryquerylanguage/tql/compare_test.go:65 | two strings or byte slices compare Equal exactly when they are the same sequence |
| TqlCompareLemmas.CompareLexLess | pkg/telemetryquerylanguage/tql/compare_test.go:71 | the byte-wise comparison says Less exactly when the first byte that differs is smaller, or the first operand is a proper prefix of the second (checked against an independent definition) |
| TqlCompareLemmas.CompareLexFlip | pkg/telemetryquerylanguage/tql/compare_test.go:65 | comparing two byte sequences in the other order gives the flipped verdict |
| TqlCompareLemmas.CompareLexTransitive | pkg/telemetryquerylanguage/tql/compare_test.go:65 | the byte-wise Less is transitive |
| TqlCompareLemmas.NotEqualIsComplement | pkg/telemetryquerylanguage/tql/compare_test.go:59-111 | for every pair of values, NE is the negation of EQ |
| TqlCompareLemmas.ResolveFlip | pkg/telemetryquerylanguage/tql/compare_test.go:78-79 | swapping the operands flips an ordered outcome and keeps an equal/unequal verdict |
| TqlCompareLemmas.Mirroring | pkg/telemetryquerylanguage/tql/compare_test.go:78-79 | for every pair, LT(a,b) = GT(b,a) and LTE(a,b) = GTE(b,a), and EQ and NE are symmetric |
| TqlCompareLemmas.Identity | pkg/telemetryquerylanguage/tql/compare_test.go:59-63 | every value compared with itself gives EQ, LTE and GTE true and the rest false; a non-primitive value gives only EQ true |
| TqlCompareLemmas.NumericCoercion | pkg/telemetryquerylanguage/tql/compare_test.go:98-105 | int64 and float64 operands, in any combination, compare as the real-number relation the operator denotes |
| TqlCompareLemmas.NilRule | pkg/telemetryquerylanguage/tql/compare_test.go:89-93 | when either operand is nil or a nil byte slice, two nils give EQ, LTE and GTE, and anything else against nil gives only NE |
| TqlCompareLemmas.OpaqueRule | pkg/telemetryquerylanguage/tql/compare_test.go:107-111 | a non-primitive operand is never ordered, and EQ holds exactly when both operands are the same type with the same contents |
| TqlCompareLemmas.IncomparableRow | pkg/telemetryquerylanguage/tql/compare_test.go:66-69 | a pair has only NE true exactly when its kinds differ (other than int64 against float64) or it is two unequal non-primitive values |
| TqlCompareLemmas.Trichotomy | pkg/telemetryquerylanguage/tql/compare_test.go:65-105 | on two nils, two numbers, or two bools, strings or byte slices, exactly one of LT, EQ, GT holds, with LTE = LT or EQ and GTE = GT or EQ; on any other pair no ordering operator holds |
| TqlCompareLemmas.EqualIsEquivalence | pkg/telemetryquerylanguage/tql/compare_test.go:59-63 | EQ is reflexive, symmetric and transitive on all values |
| TqlCompareLemmas.LessIsStrictOrder | pkg/telemetryquerylanguage/tql/compare_test.go:65-105 | LT is irreflexive and transitive on all values |
| TqlCompareLemmas.LessOrEqualTransitive | pkg/telemetryquerylanguage/tql/compare_test.go:65-105 | LTE is transitive on all values |
| TqlCompareLemmas.TableIdentity | pkg/telemetryquerylanguage/tql/compare_test.go:59-63 | the identity rows give the expected six results |
| TqlCompareLemmas.TableStrings | pkg/telemetryquerylanguage/tql/compare_test.go:65-69 | the string rows give the expected six results |
| TqlCompareLemmas.TableBytes | pkg/telemetryquerylanguage/tql/compare_test.go:71-76 | the byte-slice rows give the expected six results, including non-nil bytes against nil bytes |
| TqlCompareLemmas.TableBools | pkg/telemetryquerylanguage/tql/compare_test.go:78-87 | the bool rows give the expected six results, including the reversed pair with GTE and GT true |
| TqlCompareLemmas.TableNil | pkg/telemetryquerylanguage/tql/compare_test.go:89-93 | the nil rows give the expected six results, with nil equal to a nil byte slice and unequal to the empty string |
| TqlCompareLemmas.TableNumbers | pkg/telemetryquerylanguage/tql/compare_test.go:95-105 | the int64 and float64 rows give the expected six results, including int against float in both directions |
| TqlCompareLemmas.TableOpaque | pkg/telemetryquerylanguage/tql/compare_test.go:107-111 | the non-primitive rows give the expected six results: equal values give EQ alone, and every mismatch gives NE alone |
| BatchPerSignal.Split | pkg/batchpersignal/batchpersignal_test.go:43-56 | walking resources in order and appending each resource's batches yields exactly the specification's batch sequence |
| BatchPerSignal.SplitResource | pkg/batchpersignal/batchpersignal_test.go:107-118 | the scopes of one resource are processed in order, each scope's batches appended after the previous scope's |
| BatchPerSignal.SplitScope | pkg/batchpersignal/batchpersignal_test.go:110-113 | with a map from trace ID to batch index that starts empty, the scope loop appends one batch per new trace ID and each record to its trace's batch, giving the scope's specified batches after what was there |
| BatchPerSignal.SplitTraces | pkg/batchpersignal/batchpersignal_test.go:26-57 | the output equals the specification, every batch is one resource with one scope and a non-empty set of spans of one trace, and the output spans are the input spans as a multiset |
| BatchPerSignal.SplitLogs | pkg/batchpersignal/batchpersignal_test.go:121-161 | the output equals the specification, every batch is one resource with one scope and a non-empty set of log records of one trace, and the output records are the input records as a multiset |
| BatchLemmas.FilterKeys | pkg/batchpersignal/batchpersignal_test.go:110-116 | every record selected for a trace ID carries that trace ID |
| BatchLemmas.FilterHas | pkg/batchpersignal/batchpersignal_test.go:110-113 | every record is selected for its own trace ID |
| BatchLemmas.FilterPrefix | pkg/batchpersignal/batchpersignal_test.go:112-113 | the records of a prefix of a scope that carry a trace ID are a prefix of that trace ID's records in the whole scope, so records keep input order |
| BatchLemmas.ScopeBatchesShape | pkg/batchpersignal/batchpersignal_test.go:49-56 | the m-th batch of a scope carries the scope's resource and name and the non-empty records of the m-th trace ID, all with that ID; no two batches of a scope share a trace ID, and every record's trace ID has a batch |
| BatchLemmas.FirstKeysPrefix | pkg/batchpersignal/batchpersignal_test.go:46-56 | the trace IDs met in any prefix of a scope are the first trace IDs of the whole scope, in order |
| BatchLemmas.BucketsPartition | pkg/batchpersignal/batchpersignal_test.go:107-118 | the per-trace groups of a scope together hold exactly the scope's records, as a multiset |
| BatchLemmas.ScopesPartition | pkg/batchpersignal/batchpersignal_test.go:107-118 | the batches of a resource's scopes together hold exactly those scopes' records, as a multiset |
| BatchLemmas.SplitPartition | pkg/batchpersignal/batchpersignal_test.go:211-222 | the batches of the whole split together hold exactly the input records, each as often as in the input |
| BatchLemmas.ScopesOneTrace | pkg/batchpersignal/batchpersignal_test.go:111-117 | every batch of a resource's scopes is that resource with one scope and a non-empty set of records of one trace |
| BatchLemmas.SplitOneTrace | pkg/batchpersignal/batchpersignal_test.go:214-222 | every output batch is one resource with one scope and a non-empty set of records of one trace |
| BatchScenarios.SplitDifferentTraces | pkg/batchpersignal/batchpersignal_test.go:26-57 | one scope with trace IDs 1234 and 2345 gives exactly two batches, the first-seen trace first, each with the scope's name |
| BatchScenarios.SplitTracesZeroId | pkg/batchpersignal/batchpersignal_test.go:59-73 | a single span with the all-zero trace ID gives exactly one batch holding that span, zero ID kept |
| BatchScenarios.SplitSameTraceTwoScopes | pkg/batchpersignal/batchpersignal_test.go:75-119 | one trace ID in two scopes gives two batches in scope order, the first holding both spans of the first scope in input order |
| BatchScenarios.SplitDifferentLogs | pkg/batchpersignal/batchpersignal_test.go:121-161 | two logs with distinct trace IDs and one with no trace ID set give exactly three batches, in first-appearance order |
| BatchScenarios.SplitLogsZeroId | pkg/batchpersignal/batchpersignal_test.go:163-177 | a single log with the all-zero trace ID gives exactly one batch holding that log, zero ID kept |
| BatchScenarios.SplitLogsSameTraceTwoScopes | pkg/batchpersignal/batchpersignal_test.go:179-223 | one trace ID in two scopes gives two batches of logs in scope order, the first holding both logs of the first scope in input order |

## Left out

- The implementation files of both components are not part of this model. The model follows the behaviour the two test files assert, and the engine's internal structure (`Classify`, `Resolve`, `Dispatch`) is a reconstruction of that behaviour.
- IEEE-754 details are left out: NaN, signed zero, and the rounding of a large int64 when it is converted to float64. float64 values are modelled as reals, and int64 values are coerced to reals exactly. The tests use only 1.0 and 2.0.
- Pointer-to-primitive comparisons are left out. No row of the table asserts their results.
- The benchmarks and the `compareEq` helper are left out. They measure speed and assert nothing.
- Go reflection and interface equality behind the non-primitive case become `Opaque(typeName, payload)`, which is equal exactly when both type and contents match.
- The untyped constant `5` in the last two table rows is a Go `int`, not an `int64`. The engine has no int case, so the model treats it as an opaque value of type `int`.
- Go strings are modelled as their bytes, and compared byte-wise as Go does. Text encoding is not modelled.
- The batch libraries (`ptrace`, `plog`, `pcommon`) are abstracted:
  - a resource's attributes become a label;
  - a scope is its name and its records;
  - a span or log record is its name or body and its trace ID.

  `AppendEmpty`, `EnsureCapacity`, `CopyTo` and the rest of the span and log schemas are not modelled.
- A log record whose trace ID was never set carries the all-zero trace ID, the library's default.
- The test drivers (`testing`, `t.Run`, `assert`) are left out.
