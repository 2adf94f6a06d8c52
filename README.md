# Scan units and source configs of the OpenTSDB 1.x storage plugin, in Dafny

This project models two pieces of OpenTSDB's query path.

**The scan unit (`Tsdb1xScanner`).** A query over 1.x storage is split across several
scan units, coordinated by an owner (`Tsdb1xScanners`). Each unit wraps one storage
cursor. On every `fetchNext` it:

- asks the owner whether another unit has failed (`hasException`) and whether the
  result is full (`isFull`);
- replays any rows it buffered on an earlier call, then pulls batches with `nextRows()`;
- runs each row through the owner's tag-value filter, if one is set;
- decodes the row's columns into `addData` calls on the result sink;
- stops at the owner's sequence end (`sequenceEnd`, forward or reverse) or when the
  owner is full, buffering the unread rows;
- ends in `CONTINUE`, `COMPLETE` or `EXCEPTION`, closing the cursor and reporting
  `scannerDone` or `exception` to the owner.

The unit's source file is not part of this model. Its behaviour is taken from its unit
test, `TestTsdb1xScanner.java`, which the table below cites line by line.

**The source config (`QuerySourceConfig`).** It is the builder-built configuration of a
data source node: the query, the data types, a required metric filter, a filter id or a
local filter, `fetchLast`, and push-down nodes. The model covers:

- its filter choice and its ordering by id;
- its constant answers (`pushDown`, `joins`, `equals`);
- the builder: its setters, the list appenders, `build`'s metric check, and the copy
  builder that drops push-down nodes.

Modules:

- `Wrappers`: `Option` (Java's null) and `Result` (a value, or an illegal argument with
  its message).
- `Codec`: stored rows, columns and points. It holds the pure `decode` dispatch from a
  qualifier to a type code, under the optional data-type filter.
- `ScanSpec`: `fetchNext` as a function over a `World`, a record of everything the call
  reads or changes. That covers the unit's state, buffer, `keepers` and `skips`; the
  cursor's remaining batches and its `nextRows`/`close` counts; the owner's answers and
  its `scannerDone`/`exception` counts; and the sink's answers and the `addData` calls
  it received.
  - What the owner and the sink answer at each checkpoint is a script the call
    consumes, one entry per question. Every interleaving of flag changes a coordinator
    can produce is therefore one choice of scripts.
- `ScanLemmas`: what the test promises, proved of `ScanSpec.FetchNext` for every script.
  - the signals each outcome sends;
  - a peer's error;
  - the unit's own failures;
  - pauses for fullness and at the sequence end;
  - resumption from the buffer, which adds up to exactly the uninterrupted scan's
    `addData` calls;
  - `skip_nsui`.
- `Scanner`: the unit and its collaborators as classes whose methods change fields step
  by step. `Tsdb1xScanner.FetchNext` is proved to leave exactly the world
  `ScanSpec.FetchNext` describes, so every lemma in `ScanLemmas` holds of the objects.
- `SourceConfig`: `QuerySourceConfig` and its `Builder`.

## Model

Source paths are relative to the repository root. `TestTsdb1xScanner.java` stands for
`storage/asynchbase/src/test/java/net/opentsdb/storage/TestTsdb1xScanner.java`. In the
table the path is written out in full.

| member | source | states |
|---|---|---|
| Scanner.Tsdb1xScanner.Create | storage/asynchbase/src/test/java/net/opentsdb/storage/TestTsdb1xScanner.java:81-92 | A null owner or a null cursor is an illegal argument, and only those are. Otherwise a fresh unit bound to both, in state `Initialized`, with an empty buffer and empty `keepers`/`skips`. |
| Scanner.Tsdb1xScanner.FetchNext | storage/asynchbase/src/test/java/net/opentsdb/storage/TestTsdb1xScanner.java:603-641 | The objects' state after the call is exactly the world `ScanSpec.FetchNext` gives from the state before it, including every count of `nextRows`, `close`, `scannerDone`, `exception` and `addData`. |
| Scanner.Tsdb1xScanner.ScanBatches | storage/asynchbase/src/test/java/net/opentsdb/storage/TestTsdb1xScanner.java:626-641 | Pulling batches until a stop leaves exactly the world of `ScanSpec.ScanLoop`. |
| Scanner.Tsdb1xScanner.FetchBatch | storage/asynchbase/src/test/java/net/opentsdb/storage/TestTsdb1xScanner.java:226-252 | One `nextRows()` either ends the call in `ScanLoop`'s final world (exhausted cursor, storage error, or a batch that stops) or leaves a world with fewer batches left that leads to the same outcome. |
| Scanner.Tsdb1xScanner.ReadBatchRows | storage/asynchbase/src/test/java/net/opentsdb/storage/TestTsdb1xScanner.java:735-763 | One batch: without a filter the owner's error flag is checked as the batch arrives, then the rows are run. The result matches `ScanSpec.ReadBatch`. |
| Scanner.Tsdb1xScanner.RunRows | storage/asynchbase/src/test/java/net/opentsdb/storage/TestTsdb1xScanner.java:673-733 | Rows in order, until they run out, one lies beyond the sequence end, the sink throws, or the owner is full after a row. The result matches `ScanSpec.ProcessRows`. |
| Scanner.Tsdb1xScanner.RunRow | storage/asynchbase/src/test/java/net/opentsdb/storage/TestTsdb1xScanner.java:95-129 | The filter's verdict adds the series to `keepers` or `skips` or marks an unresolved id. A kept row's points go to the sink. The result matches `ScanSpec.ProcessRow`. |
| Scanner.Tsdb1xScanner.Push | storage/asynchbase/src/test/java/net/opentsdb/storage/TestTsdb1xScanner.java:644-671 | A row's points go to the sink in order, stopping at the first `addData` that throws. The result matches `ScanSpec.EmitPoints`. |
| Scanner.Tsdb1xScanner.SettleRun | storage/asynchbase/src/test/java/net/opentsdb/storage/TestTsdb1xScanner.java:410-450 | After a run: a throwing sink or an unresolved id fails the call; a pause buffers the unread rows and reports `scannerDone`; with a filter, a drained run checks the owner's error flag. The result matches `ScanSpec.Settle`. |
| Scanner.Tsdb1xScanner.FailScan | storage/asynchbase/src/test/java/net/opentsdb/storage/TestTsdb1xScanner.java:226-252 | State `EXCEPTION`, buffer null, `keepers`/`skips` empty, one more `close` and one more `exception`. |
| Scanner.Tsdb1xScanner.CompleteScan | storage/asynchbase/src/test/java/net/opentsdb/storage/TestTsdb1xScanner.java:603-624 | State `COMPLETE`, buffer null, `keepers`/`skips` empty, one more `close` and one more `scannerDone`. |
| Scanner.Cursor.NextRows | storage/asynchbase/src/test/java/net/opentsdb/storage/TestTsdb1xScanner.java:226-252 | Delivers the next batch or storage error, or null once exhausted, and counts the call. |
| Scanner.Sink.AddData | storage/asynchbase/src/test/java/net/opentsdb/storage/TestTsdb1xScanner.java:297-306 | Records the call, a throwing one included, and answers whether it threw. |
| Scanner.Owner.IsFull | storage/asynchbase/src/test/java/net/opentsdb/storage/TestTsdb1xScanner.java:674-704 | Answers the next scripted fullness reply. |
| Scanner.Owner.HasException | storage/asynchbase/src/test/java/net/opentsdb/storage/TestTsdb1xScanner.java:736-763 | Answers the next scripted peer-error reply. |
| Scanner.Owner.SetSequenceEnd | storage/asynchbase/src/test/java/net/opentsdb/storage/TestTsdb1xScanner.java:1136-1155 | Moves the owner's sequence end between calls, as the tests re-stub `sequenceEnd()`; nothing else changes. |
| ScanLemmas.FetchNextSignals | storage/asynchbase/src/test/java/net/opentsdb/storage/TestTsdb1xScanner.java:603-641 | Every exit sends its signals. On a failure: one `close`, one `exception`, no `scannerDone`, state `EXCEPTION`, buffer null, `keepers`/`skips` empty. On a completion: one `close`, one `scannerDone`, no `exception`, state `COMPLETE`, buffer null. On a pause: no `close`, one `scannerDone`, state `CONTINUE`. A call does nothing exactly when the unit has already finished. |
| ScanLemmas.ScanLoopSignals | storage/asynchbase/src/test/java/net/opentsdb/storage/TestTsdb1xScanner.java:410-450 | The same signals for every exit of the fetch loop, peer errors met mid-scan included. |
| ScanLemmas.PeerErrorAtEntry | storage/asynchbase/src/test/java/net/opentsdb/storage/TestTsdb1xScanner.java:810-826 | A peer error already set completes the unit with no `nextRows` and no `addData`. |
| ScanLemmas.FullAtEntryPausesUntouched | storage/asynchbase/src/test/java/net/opentsdb/storage/TestTsdb1xScanner.java:828-844 | An owner full at entry: no `nextRows`, no `close`, no `addData`, state `CONTINUE`, one `scannerDone`, the buffer kept. |
| ScanLemmas.ScanLoopPause | storage/asynchbase/src/test/java/net/opentsdb/storage/TestTsdb1xScanner.java:673-733 | A pause has issued one `nextRows` per batch consumed and no more. The buffer holds the unread rows of the last batch read, in order. On fullness it is shorter than that batch. |
| ScanLemmas.FetchNextPause | storage/asynchbase/src/test/java/net/opentsdb/storage/TestTsdb1xScanner.java:706-733 | The same for a whole call that starts with no buffer, with the cursor left open and the state `CONTINUE`. |
| ScanLemmas.FullAtRow | storage/asynchbase/src/test/java/net/opentsdb/storage/TestTsdb1xScanner.java:327-369 | A run whose first true `isFull` reply comes after row `j` (no earlier row beyond the sequence end, a sink that never throws) pauses there and buffers exactly the rows after `j`. |
| ScanLemmas.ScanLoopFullAtRow | storage/asynchbase/src/test/java/net/opentsdb/storage/TestTsdb1xScanner.java:674-704 | Fullness after row `j` of the first batch: the call pauses with one `nextRows`, the rows after `j` buffered in order, the cursor open and state `CONTINUE`. When `j` is the batch's last row the buffer is null. |
| ScanLemmas.FetchNextFullAtRow | storage/asynchbase/src/test/java/net/opentsdb/storage/TestTsdb1xScanner.java:706-733 | The same for a whole call with nothing buffered that passes both entry checks: the rows after `j` are buffered, one `nextRows`, no `close`, state `CONTINUE`. |
| ScanLemmas.ReadBatchPause | storage/asynchbase/src/test/java/net/opentsdb/storage/TestTsdb1xScanner.java:327-408 | A batch that pauses buffers a suffix of itself (a proper one on fullness) and never moves the cursor. |
| ScanLemmas.ProcessRowsRest | storage/asynchbase/src/test/java/net/opentsdb/storage/TestTsdb1xScanner.java:327-369 | A paused run's leftover rows are exactly the rows after those it consumed. |
| ScanLemmas.ProcessRowsFullReadsRow | storage/asynchbase/src/test/java/net/opentsdb/storage/TestTsdb1xScanner.java:371-408 | Fullness is asked after a row, so a full pause has consumed at least one row. |
| ScanLemmas.FetchNextWithinBoundary | storage/asynchbase/src/test/java/net/opentsdb/storage/TestTsdb1xScanner.java:765-808 | Every `addData` of a call is for a row at or before the sequence end (at or after it, reversed). A boundary pause buffers first the row that lies beyond it. |
| ScanLemmas.ScanLoopWithin | storage/asynchbase/src/test/java/net/opentsdb/storage/TestTsdb1xScanner.java:488-525 | The same for the fetch loop, in either direction. |
| ScanLemmas.ProcessRowsWithin | storage/asynchbase/src/test/java/net/opentsdb/storage/TestTsdb1xScanner.java:564-601 | The same for one run of rows, a boundary met mid-batch included. |
| ScanLemmas.BufferStopFetchesNothing | storage/asynchbase/src/test/java/net/opentsdb/storage/TestTsdb1xScanner.java:917-987 | When the replayed buffer alone reaches a stop, no `nextRows` is issued. What remains buffered is a suffix of the old buffer, in order. |
| ScanLemmas.UninterruptedScan | storage/asynchbase/src/test/java/net/opentsdb/storage/TestTsdb1xScanner.java:603-641 | No errors, no fullness and no sequence end: the call completes (one `close`, one `scannerDone`). Its `addData` calls are exactly those of every kept row's columns, over the buffer and then every batch, in order. |
| ScanLemmas.FetchNextAdvances | storage/asynchbase/src/test/java/net/opentsdb/storage/TestTsdb1xScanner.java:846-915 | Without errors, every call consumes a prefix of the pending rows (buffer, then unread batches) and emits exactly their points. It keeps that invariant for the next call and never fails. |
| ScanLemmas.ResumedScanMatchesUninterrupted | storage/asynchbase/src/test/java/net/opentsdb/storage/TestTsdb1xScanner.java:1114-1222 | A call paused at a sequence end, followed by a call without one, sends exactly the `addData` calls of one uninterrupted call and ends `COMPLETE`. |
| ScanLemmas.AdvancesToEnd | storage/asynchbase/src/test/java/net/opentsdb/storage/TestTsdb1xScanner.java:1225-1289 | Emitting a consumed prefix, then the rest, adds up to emitting all pending rows. |
| ScanLemmas.ScanLoopCalm | storage/asynchbase/src/test/java/net/opentsdb/storage/TestTsdb1xScanner.java:626-641 | Without errors, the fetch loop advances through the pending rows, emitting exactly their points. It only pauses or exhausts the cursor, and exhausts it when never full and unbounded. |
| ScanLemmas.ProcessRowsCalmEmits | storage/asynchbase/src/test/java/net/opentsdb/storage/TestTsdb1xScanner.java:95-129 | A run with a sink that never throws emits exactly the kept rows' points for the rows it consumed. |
| ScanLemmas.EmissionAppend | storage/asynchbase/src/test/java/net/opentsdb/storage/TestTsdb1xScanner.java:255-283 | The points of two row lists, one after the other, are the points of their concatenation. |
| ScanLemmas.AdvancesTransitive | storage/asynchbase/src/test/java/net/opentsdb/storage/TestTsdb1xScanner.java:255-283 | Advancing through the pending rows composes across calls. |
| ScanLemmas.CalmStepKeepsCalm | storage/asynchbase/src/test/java/net/opentsdb/storage/TestTsdb1xScanner.java:846-915 | The error-free invariant survives every step. |
| ScanLemmas.SkipNsuiNeverFailsOnUnresolved | storage/asynchbase/src/test/java/net/opentsdb/storage/TestTsdb1xScanner.java:197-223 | With `skip_nsui` on, or with no filter, a call never fails for an unresolved id. |
| ScanLemmas.UnresolvedIdFailsRun | storage/asynchbase/src/test/java/net/opentsdb/storage/TestTsdb1xScanner.java:168-195 | With a filter and `skip_nsui` off, a run that read a row with an unresolved id fails the call (`EXCEPTION`, one `close`, one `exception`) once it stops, drained or paused, unless the sink threw first. With a sink that never throws, every kept row the run read has been emitted, those after the unresolved row included. |
| ScanLemmas.ProcessRowsMeetsUnresolved | storage/asynchbase/src/test/java/net/opentsdb/storage/TestTsdb1xScanner.java:1062-1112 | A run that reads an unresolved row marks itself failed, whether it is drained or pauses after that row. |
| ScanLemmas.ProcessRowsKeepsUnresolved | storage/asynchbase/src/test/java/net/opentsdb/storage/TestTsdb1xScanner.java:1062-1112 | Once marked, a run stays marked. |
| ScanLemmas.ScanLoopNeverUnresolved | storage/asynchbase/src/test/java/net/opentsdb/storage/TestTsdb1xScanner.java:990-1060 | With `skip_nsui` on, the fetch loop never fails for an unresolved id. |
| ScanLemmas.EmitAllAccepted | storage/asynchbase/src/test/java/net/opentsdb/storage/TestTsdb1xScanner.java:604-624 | A sink that never throws takes every point. |
| ScanLemmas.ProcessRowCalm | storage/asynchbase/src/test/java/net/opentsdb/storage/TestTsdb1xScanner.java:95-129 | A resolvable row with a sink that never throws emits exactly its kept points. |
| ScanLemmas.ProcessRowsNeverFull | storage/asynchbase/src/test/java/net/opentsdb/storage/TestTsdb1xScanner.java:604-624 | An owner never full and no sequence end: a run never pauses. |
| ScanSpec.EmitPoints | storage/asynchbase/src/test/java/net/opentsdb/storage/TestTsdb1xScanner.java:285-325 | The sink receives a prefix of the points, all of them when no call throws; nothing but the sink changes. |
| ScanLemmas.EmitStopsAtThrow | storage/asynchbase/src/test/java/net/opentsdb/storage/TestTsdb1xScanner.java:285-325 | A push that succeeds had every `addData` accepted. One that fails had every `addData` accepted but its last, which threw, and made no call after it. |
| ScanLemmas.FetchNextSinkStopsAtThrow | storage/asynchbase/src/test/java/net/opentsdb/storage/TestTsdb1xScanner.java:644-671 | Over a whole call, the sink accepted every `addData`, except on a sink failure, where the last `addData` is the one that threw and none follows it. |
| ScanSpec.ProcessRows | storage/asynchbase/src/test/java/net/opentsdb/storage/TestTsdb1xScanner.java:327-369 | A run changes only the filter sets, the owner's fullness replies and the sink. |
| Codec.TypeCode | storage/asynchbase/src/test/java/net/opentsdb/storage/TestTsdb1xScanner.java:1331-1352 | A qualifier shorter than 3 bytes gets type code 0; a longer one gets its leading byte (5 for an append, 8 for type 8). |
| Codec.DecodeOnePointPerColumn | storage/asynchbase/src/test/java/net/opentsdb/storage/TestTsdb1xScanner.java:1377-1414 | Without a type filter a row yields exactly one point per column, in column order, each carrying the row's base time and TSUID and the column's own type code, qualifier and value. |
| Codec.DecodeFilteredIsAdmittedSubsequence | storage/asynchbase/src/test/java/net/opentsdb/storage/TestTsdb1xScanner.java:1543-1582 | Filtering by type only drops points: it is the unfiltered decode thinned to the admitted qualifiers. |
| Codec.DecodeMixedRowUnderFilterOne | storage/asynchbase/src/test/java/net/opentsdb/storage/TestTsdb1xScanner.java:1624-1662 | Under the filter {1}, a 2-byte column and an append are dropped and a type-8 column is still emitted, with its own bytes. |
| Codec.DecodeAppend | storage/asynchbase/src/test/java/net/opentsdb/storage/TestTsdb1xScanner.java:1503-1541 | The points of concatenated columns are the concatenated points. |
| Codec.DecodeStampsRow | storage/asynchbase/src/test/java/net/opentsdb/storage/TestTsdb1xScanner.java:1458-1477 | Every point of a row carries that row's base time and TSUID. |
| Codec.DecodeColumns | storage/asynchbase/src/test/java/net/opentsdb/storage/TestTsdb1xScanner.java:1584-1622 | No more points than columns. |
| SourceConfig.Builder.Build | core/src/main/java/net/opentsdb/query/QuerySourceConfig.java:71-83 | A null metric filter is an illegal argument, and only that. Otherwise a fresh config carries every builder field, push-down nodes included. |
| SourceConfig.NoFilterIdSelectsLocal | core/src/main/java/net/opentsdb/query/QuerySourceConfig.java:119-122 | With a null or empty filter id, the filter is the local one, whatever the query. |
| SourceConfig.FilterIdOverridesLocal | core/src/main/java/net/opentsdb/query/QuerySourceConfig.java:119-127 | With a filter id set, the local filter is ignored. There is a filter exactly when a query exists and registers that id, and it is the query's filter for that id. |
| SourceConfig.NewBuilderFrom | core/src/main/java/net/opentsdb/query/QuerySourceConfig.java:188-199 | A fresh builder with the config's query, types, metric, filter id, filter, `fetchLast` and id, and no push-down nodes. |
| SourceConfig.Builder.AddType | core/src/main/java/net/opentsdb/query/QuerySourceConfig.java:231-237 | Starts the list when there is none, then appends the type after the earlier ones; answers the builder. |
| SourceConfig.Builder.AddPushDownNode | core/src/main/java/net/opentsdb/query/QuerySourceConfig.java:265-271 | The same for push-down nodes. |
| SourceConfig.Builder.SetQuery | core/src/main/java/net/opentsdb/query/QuerySourceConfig.java:221-224 | Sets the query only; answers the builder. |
| SourceConfig.Builder.SetTypes | core/src/main/java/net/opentsdb/query/QuerySourceConfig.java:226-229 | Sets the types only; answers the builder. |
| SourceConfig.Builder.SetMetric | core/src/main/java/net/opentsdb/query/QuerySourceConfig.java:239-242 | Sets the metric filter only; answers the builder. |
| SourceConfig.Builder.SetFilterId | core/src/main/java/net/opentsdb/query/QuerySourceConfig.java:244-247 | Sets the filter id only; answers the builder. |
| SourceConfig.Builder.SetQueryFilter | core/src/main/java/net/opentsdb/query/QuerySourceConfig.java:249-252 | Sets the local filter only; answers the builder. |
| SourceConfig.Builder.SetFetchLast | core/src/main/java/net/opentsdb/query/QuerySourceConfig.java:254-257 | Sets `fetchLast` only; answers the builder. |
| SourceConfig.Builder.SetPushDownNodes | core/src/main/java/net/opentsdb/query/QuerySourceConfig.java:259-263 | Sets the push-down nodes only; answers the builder. |
| SourceConfig.Builder.SetId | core/src/main/java/net/opentsdb/query/QuerySourceConfig.java:197 | Sets the id only; answers the builder. |
| SourceConfig.QuerySourceConfig.SetTimeSeriesQuery | core/src/main/java/net/opentsdb/query/QuerySourceConfig.java:91-93 | Replaces the query. Every other field is a constant. |
| SourceConfig.QuerySourceConfig.PushDown | core/src/main/java/net/opentsdb/query/QuerySourceConfig.java:140-142 | Always false. |
| SourceConfig.QuerySourceConfig.Joins | core/src/main/java/net/opentsdb/query/QuerySourceConfig.java:145-147 | Always false. |
| SourceConfig.QuerySourceConfig.Equals | core/src/main/java/net/opentsdb/query/QuerySourceConfig.java:150-153 | Always false, even for the config itself. |
| SourceConfig.QuerySourceConfig.CompareTo | core/src/main/java/net/opentsdb/query/QuerySourceConfig.java:156-166 | -1 against a node config that is not a source config. Otherwise -1, 0 or 1, zero exactly when the ids are equal, and a null id before any other. |
| SourceConfig.CompareToAntisymmetric | core/src/main/java/net/opentsdb/query/QuerySourceConfig.java:162-165 | Comparing two source configs either way gives opposite signs. |
| SourceConfig.CompareIdsTransitive | core/src/main/java/net/opentsdb/query/QuerySourceConfig.java:163 | The id order (nulls first, then natural) is transitive. |
| SourceConfig.CompareIdsAntisymmetric | core/src/main/java/net/opentsdb/query/QuerySourceConfig.java:163 | The id order is antisymmetric. |
| SourceConfig.StrCompare | core/src/main/java/net/opentsdb/query/QuerySourceConfig.java:163 | Natural string order by sign: zero exactly for equal strings; a proper prefix comes first, and so does a smaller first character. |
| SourceConfig.StrCompareFirstDifference | core/src/main/java/net/opentsdb/query/QuerySourceConfig.java:163 | Two strings that agree up to position `k` and differ there are ordered by their characters at `k`. |
| SourceConfig.StrCompareTransitive | core/src/main/java/net/opentsdb/query/QuerySourceConfig.java:163 | The natural string order is transitive. |
| SourceConfig.StrCompareAntisymmetric | core/src/main/java/net/opentsdb/query/QuerySourceConfig.java:163 | The natural string order is antisymmetric. |

## Left out

- `Tsdb1xScanner.java` is not part of this model. The unit is modelled from its tests, and where the tests are silent the choices are:
  - A call on a unit already `COMPLETE` or `EXCEPTION` does nothing.
  - Without a filter, the owner's error flag is checked as each batch arrives. With a filter, it is checked after a drained run. The `nextRows` counts of the two owner-exception tests (410-450, 736-763) fix this placement.
  - With `skip_nsui` off, an unresolved id fails the call when its run of rows stops, not at the row. The test at 1062-1112 still expects the later rows of that run to be emitted.
- The `Scanner.Tsdb1xScanner.Create` arguments omit the scanner index (the constructor's third argument, unused by any assertion). `skip_nsui` and `data_type_filter` are passed in directly; the source reads them from the configuration.
- Tracing spans, Mockito stubbing and the `UTBase` fixtures are not modelled. Rows are abstract values carrying a TSUID, a base time, columns and the filter's verdict.
- Naming-service resolution (`getName`, `getTSUID`, `baseTimestamp`) and its call counts are not modelled, and neither is regular-expression tag-value matching. The filter contributes only a verdict per row: keep, skip, or unresolved id.
- The HBase scanner, the client and `Deferred` callbacks: `nextRows()` is a script of batches or storage errors, exhausted when empty. Asynchrony is not modelled; a call runs to its end.
- The `keys_to_ids` cache: it is always empty in the tests, and no assertion depends on it.
- An append column produces one `addData` carrying the whole value; the test expects no expansion of its points.
- The length rule for qualifiers (shorter than 3 bytes is a numeric put) is the whole dispatch. Wider numeric qualifiers are not distinguished.
- Codec.Admits: an append column passes the data-type filter when the filter holds 5, its own type code. The tests only show that an append is dropped under the filter {1}; whether the source admits it by 5 or by the numeric type's code is not decided by them.
- `hashCode`/`buildHashCode` and the Jackson annotations of `QuerySourceConfig`: hashing is library behaviour.
- `BaseQueryNodeConfig` is not part of this model. Any check its constructor makes on the id, and its other fields, are not modelled.
- `TimeSeriesQuery` is not part of this model. `query.getFilter(id)` is a lookup in a map of filters by id.
- Builder list aliasing: `setTypes` and `setPushDownNodes` store the caller's list. A later `addType` on the builder therefore changes that list, and a config built from it shares it. Lists are values here, so that sharing is not captured, nor is the fresh copy `newBuilder(config)` makes of the types.
- SourceConfig.StrCompare: compares Unicode scalar values. Java compares UTF-16 code units, so the two orders differ only between strings with characters outside the Basic Multilingual Plane.
