# Taxi trips streaming pipeline: batch delivery and dead-letter replay

A Dafny model of the two delivery components of the taxi trips pipeline,
with proofs of what they promise.

- **Kinesis publisher** (`src/tools/taxi_trip_kinesis_streams.py`).
  - `df_to_kinesis_records` turns trip rows into stream records: NaN becomes
    None, and the partition key is `str()` of the key column. `json.dumps`
    of a kept row holding a `Decimal` raises, and the exception escapes.
  - `chunked` cuts the records into batches of ten.
  - `send_batch_to_kinesis` sends one batch with `put_records`. It retries
    the records whose result carries an `ErrorCode` once, and counts the
    records sent.
  - The loop of `main` sends the start-trip and end-trip streams in
    lockstep.
- **Dead-letter replay job** (`src/glue/taxi_trip_glue_replay.py`).
  - `update_trip_details` enriches an existing trip item in DynamoDB with
    the fields of a failed record.
  - `replay_failed_trips` drains the SQS dead-letter queue. It deletes a
    message only when the table confirmed its update.

Files:

- `rows.dfy` (module `Rows`): the open-schema rows both components work on.
  - A row is an ordered sequence of key/value fields, like a Python dict.
  - Values are a tagged union: None, NaN, bool, int, float (kept as its
    text), `Decimal` (kept as its text) and string.
  - A `Dict` is a row in which no key occurs twice.
  - `Render` is Python's `str()`.
- `kinesis_publisher.dfy` (module `KinesisPublisher`).
  - Chunking, the record mapper, the publisher and the lockstep schedule.
  - The Kinesis client is a `StreamClient` object. It answers its k-th
    request from an oracle and logs every request.
  - `DfToKinesisRecords`, `SendBatchToKinesis`, `SendCycle` and `Simulate`
    are methods with the source's loops. Each is proved against a
    specification function (`RecordsOrRaise`, `Requests`/`SentTotal`,
    `CycleStep`, `CycleRequests`/`Lockstep`).
- `glue_replay.dfy` (module `GlueReplay`).
  - The update fields, the `SET` expression, the update request and the
    decision of `update_trip_details` (`TripUpdate`).
  - The `Table` object holds the items and logs the requests it receives.
    A `Service` oracle says when `get_item` raises and what `update_item`
    returns. boto3's serializer is modelled on top of the oracle: a float
    key or value makes the call raise.
  - The `Dlq` object answers its polls from a given script and logs
    receive and delete requests. A scripted answer is either a list of
    messages or an exception.
  - `HandleMessages` and `ReplayFailedTrips` are the method form of the
    replay loops. They are proved against `HandleBatch` and `Drain`.

## Model

| member | source | states |
|---|---|---|
| Rows.Lookup | src/tools/taxi_trip_kinesis_streams.py:45 | `row.get(k)` finds a value exactly when some field has key `k`, and the field found is in the row |
| Rows.NatToStringRoundTrip | src/tools/taxi_trip_kinesis_streams.py:45 | `str()` of a natural number is its decimal digits: reading them back gives the number |
| Rows.RenderEmptyIff | src/tools/taxi_trip_kinesis_streams.py:45-47 | `str(v)` is empty exactly when `v` is the empty string; None, NaN, numbers and booleans always print something |
| Rows.Render | src/tools/taxi_trip_kinesis_streams.py:45 | no contract; defines Python's `str()` on a value: "None", "nan", "True"/"False", the decimal digits of an int, and the text of a float, a `Decimal` or a string |
| Rows.IsNa | src/tools/taxi_trip_kinesis_streams.py:44 | no contract; defines `pd.isna(v)` on a cell: true for None and NaN only |
| KinesisPublisher.Chunked | src/tools/taxi_trip_kinesis_streams.py:30-33 | a zero size fails (`range` raises ValueError); a negative size gives no chunk. For a positive size the chunks, concatenated in order, are the input; all but the last hold exactly `size` values and the last is non-empty; there is no chunk exactly when the input is empty |
| KinesisPublisher.ChunksShape | src/tools/taxi_trip_kinesis_streams.py:30-33 | every chunk but the last has exactly `size` records; the last is non-empty and has at most `size`; an empty input gives no chunk, and a non-empty one gives some |
| KinesisPublisher.ChunksPrefixConcat | src/tools/taxi_trip_kinesis_streams.py:30-33 | the first `k` chunks, concatenated, are the input up to position `k * size` |
| KinesisPublisher.ChunksConcat | src/tools/taxi_trip_kinesis_streams.py:30-33 | concatenating the chunks in order gives back the input |
| KinesisPublisher.Normalise | src/tools/taxi_trip_kinesis_streams.py:44 | the payload keeps every key in its place; NaN and None become None; every other value is unchanged; no NaN remains |
| KinesisPublisher.LookupNormalise | src/tools/taxi_trip_kinesis_streams.py:44-45 | reading the key column of the normalised row is reading the row, with "no data" read as None |
| KinesisPublisher.PartitionKey | src/tools/taxi_trip_kinesis_streams.py:45 | no contract; defines `str(record.get(partition_key_col))`: `str()` of the key column's value, or "None" when there is none (its properties are `ToStreamRecordSpec` and `MissingKeyIsKept`) |
| KinesisPublisher.ToStreamRecord | src/tools/taxi_trip_kinesis_streams.py:44-54 | no contract; defines one iteration of the loop: the normalised row under `str()` of its key column, or nothing when that text is empty (its properties are `ToStreamRecordSpec`) |
| KinesisPublisher.ToStreamRecordSpec | src/tools/taxi_trip_kinesis_streams.py:44-54 | a row is skipped exactly when its key column holds the empty string; a kept row's payload is the normalised row and its key is the non-empty `str()` of the key column |
| KinesisPublisher.MissingKeyIsKept | src/tools/taxi_trip_kinesis_streams.py:45-49 | a row without the key column is kept, with the partition key "None" |
| KinesisPublisher.Records | src/tools/taxi_trip_kinesis_streams.py:38-56 | no contract; defines the records of `df_to_kinesis_records`: the kept rows' records, in row order (its properties are `RecordsAreKeptRows` and `RecordsSnoc`) |
| KinesisPublisher.RecordsAreKeptRows | src/tools/taxi_trip_kinesis_streams.py:38-56 | the output is one record per kept row, in input order: the kept positions are in range and increasing, cover exactly the rows not skipped, and record `j` is the mapping of kept row `j` |
| KinesisPublisher.RecordsSnoc | src/tools/taxi_trip_kinesis_streams.py:40-54 | one more row appends its record when it is kept, and nothing when it is skipped |
| KinesisPublisher.RecordsBounds | src/tools/taxi_trip_kinesis_streams.py:38-56 | there is at most one record per row, and every record's partition key is non-empty |
| KinesisPublisher.JsonDumpable | src/tools/taxi_trip_kinesis_streams.py:52 | no contract; defines a payload `json.dumps` accepts: no `Decimal` value |
| KinesisPublisher.DumpRaises | src/tools/taxi_trip_kinesis_streams.py:47-52 | no contract; defines a row at which the loop raises: it passes the key check and its payload cannot be dumped |
| KinesisPublisher.AnyRaises | src/tools/taxi_trip_kinesis_streams.py:40-52 | no contract; defines whether the loop, scanning the rows in order, reaches a row at which it raises (its properties are `AnyRaisesIff` and `AnyRaisesPrefix`) |
| KinesisPublisher.AnyRaisesIff | src/tools/taxi_trip_kinesis_streams.py:40-52 | the loop raises exactly when some row raises |
| KinesisPublisher.AnyRaisesPrefix | src/tools/taxi_trip_kinesis_streams.py:40-52 | once a prefix of the rows raises, so does every longer input: later rows cannot undo the exception |
| KinesisPublisher.LoopStep | src/tools/taxi_trip_kinesis_streams.py:40-54 | one more row appends its record exactly when its key text is non-empty, and the loop raises there exactly when the row is kept and its payload cannot be dumped |
| KinesisPublisher.RecordsOrRaise | src/tools/taxi_trip_kinesis_streams.py:38-56 | no contract; defines the call's outcome: the exception when some kept row cannot be dumped, the records otherwise (its properties are `NoDecimalNeverRaises` and `DecimalFareRaises`) |
| KinesisPublisher.NoDecimalNeverRaises | src/tools/taxi_trip_kinesis_streams.py:38-56 | rows without a `Decimal` value never make the mapper raise: it returns all the records |
| KinesisPublisher.DecimalFareRaises | src/tools/taxi_trip_kinesis_streams.py:47-52 | a kept row `{trip_id: "A", fare: Decimal("9.0")}` makes the whole call raise, whatever rows surround it |
| KinesisPublisher.DfToKinesisRecords | src/tools/taxi_trip_kinesis_streams.py:36-56 | the loop ends as `RecordsOrRaise` says: with the specified records, at most one per row and every partition key non-empty, or with the exception of `json.dumps` when a kept row holds a `Decimal` |
| KinesisPublisher.IntendedStreamRecord | src/tools/taxi_trip_kinesis_streams.py:45-49 | the mapper as evidently intended: a row is kept exactly when its key column exists, holds data and is not the empty string, with `str()` of that value as key |
| KinesisPublisher.MissingOrNaNKeyPublishedAsNone | src/tools/taxi_trip_kinesis_streams.py:45-49 | as written, a row without the key column, or with NaN in it, is published under the key "None"; the intended mapper skips both |
| KinesisPublisher.IntendedDiffersOnlyOnMissingKey | src/tools/taxi_trip_kinesis_streams.py:45-49 | the intended mapper and the code differ exactly on rows whose key is missing or holds no data; on every row the intended mapper keeps, both give the same record |
| KinesisPublisher.StreamClient.PutRecords | src/tools/taxi_trip_kinesis_streams.py:84-87 | an empty record list raises before any request, as botocore requires at least one record; otherwise the request is logged after the earlier ones, and the reply is the service's answer to the request with that number |
| KinesisPublisher.FailedCount | src/tools/taxi_trip_kinesis_streams.py:69 | no contract; defines `response.get("FailedRecordCount", 0)` |
| KinesisPublisher.Failed | src/tools/taxi_trip_kinesis_streams.py:77-80 | no contract; defines the `zip` of the batch with the result entries, keeping a record where its entry has an ErrorCode (its properties are `RetryBatchIsErrorSubsequence`) |
| KinesisPublisher.RetryBatch | src/tools/taxi_trip_kinesis_streams.py:77-80 | no contract; defines `failed_records`: the records kept by `Failed`, in order (its properties are `RetryBatchIsErrorSubsequence`) |
| KinesisPublisher.Retries | src/tools/taxi_trip_kinesis_streams.py:76-84 | no contract; defines when the code reaches the retry call: a non-empty batch, a first reply that returned with a positive count, and a result list to read |
| KinesisPublisher.RetrySent | src/tools/taxi_trip_kinesis_streams.py:84-87 | no contract; defines when the retry reaches the service: the code reaches it and the retry batch is not empty (its properties are `RequestsShape`) |
| KinesisPublisher.Requests | src/tools/taxi_trip_kinesis_streams.py:59-87 | no contract; defines the `put_records` calls of `send_batch_to_kinesis` given the first reply (its properties are `RequestsShape` and `RequestsWithinBatch`) |
| KinesisPublisher.SentTotal | src/tools/taxi_trip_kinesis_streams.py:59-100 | no contract; defines the count `send_batch_to_kinesis` returns given both replies (its properties are `SentTotalWithoutException`, `SentTotalOnException` and `ConsistentRetryCount`) |
| KinesisPublisher.RetryBatchIsErrorSubsequence | src/tools/taxi_trip_kinesis_streams.py:77-80 | the retry batch is exactly the in-order subsequence of the batch at the positions (within `zip`'s shorter length) whose result carries an ErrorCode |
| KinesisPublisher.SendBatchToKinesis | src/tools/taxi_trip_kinesis_streams.py:59-100 | the requests made are `Requests` of the first reply, and the count returned is `SentTotal` of the two replies; no exception escapes |
| KinesisPublisher.RequestsShape | src/tools/taxi_trip_kinesis_streams.py:61-87 | an empty batch makes no request and counts 0; otherwise the whole batch is sent first, and at most once more. The second request happens exactly when the first reply returned with FailedRecordCount > 0 and a result list with an ErrorCode entry, and it carries the retry batch, so records failing the retry are never sent again |
| KinesisPublisher.SentTotalWithoutException | src/tools/taxi_trip_kinesis_streams.py:68-95 | with no exception, the count is `len(batch) - F1`, plus `len(failed_records) - F2` when failures were reported and some entry carries an ErrorCode; with no failure reported the result list is never read and need not be there |
| KinesisPublisher.SentTotalOnException | src/tools/taxi_trip_kinesis_streams.py:65-100 | a raising first call counts 0; a raising retry, failures reported without a `Records` list (a KeyError), or an empty `failed_records` (which botocore refuses), keep the first round's `len(batch) - F1` |
| KinesisPublisher.ConsistentRetryCount | src/tools/taxi_trip_kinesis_streams.py:69-91 | when FailedRecordCount agrees with the ErrorCode entries, the retry batch has exactly F1 records, and `m` failures in the retry leave the count at `len(batch) - m` |
| KinesisPublisher.TwentyFiveRecords | src/tools/taxi_trip_kinesis_streams.py:30-100 | 25 records make batches of 10, 10 and 5; two failures in the first batch that both succeed on the retry count all 10 as sent |
| KinesisPublisher.RequestsWithinBatch | src/tools/taxi_trip_kinesis_streams.py:68-87 | every request goes to the given stream and carries only records of the batch |
| KinesisPublisher.Lockstep | src/tools/taxi_trip_kinesis_streams.py:126-144 | one cycle per start chunk; it defines cycle `i` as the `i`-th start chunk with the end slice `[10i : 10i + 10]` |
| KinesisPublisher.Slice | src/tools/taxi_trip_kinesis_streams.py:139 | no contract; defines Python's slice `xs[lo:hi]` for `0 <= lo <= hi`: both ends cut to the length |
| KinesisPublisher.CycleStep | src/tools/taxi_trip_kinesis_streams.py:133-141 | no contract; defines one cycle's requests: those of the start batch, then those of the end batch, each answered from the replies after the earlier requests (its properties are `CycleStepWithin` and `EmptyEndSliceSendsNothing`) |
| KinesisPublisher.CycleRequests | src/tools/taxi_trip_kinesis_streams.py:129-141 | no contract; defines the requests of a run of cycles, each after those before it (its properties are `CycleRequestsStep` and `CycleRequestsWithin`) |
| KinesisPublisher.LockstepAt | src/tools/taxi_trip_kinesis_streams.py:129-139 | cycle `i` pairs the `i`-th start chunk with `end_records[10i : 10i + 10]` |
| KinesisPublisher.LockstepSendsAllStarts | src/tools/taxi_trip_kinesis_streams.py:129-133 | the start batches of the cycles, in order, are the whole start stream |
| KinesisPublisher.LockstepEndPrefix | src/tools/taxi_trip_kinesis_streams.py:139-144 | the end batches of the first `k` cycles, in order, are the end stream up to `10k` |
| KinesisPublisher.EndSlicesConcat | src/tools/taxi_trip_kinesis_streams.py:139-144 | the first `n` ten-record slices of the end stream, concatenated, are the end stream up to `10n` |
| KinesisPublisher.LockstepEndCoverage | src/tools/taxi_trip_kinesis_streams.py:126-144 | the end batches cover the end stream exactly up to `10 × (number of start chunks)`, so later end records are never sent; cycle `i`'s end slice is empty exactly when `10i` is past the end stream |
| KinesisPublisher.EmptyEndSliceSendsNothing | src/tools/taxi_trip_kinesis_streams.py:139-141 | a cycle whose end slice is empty makes only its start batch's requests |
| KinesisPublisher.CycleRequestsStep | src/tools/taxi_trip_kinesis_streams.py:129-144 | each cycle appends its own requests after those of the cycles before it |
| KinesisPublisher.CycleStepWithin | src/tools/taxi_trip_kinesis_streams.py:133-141 | within one cycle, start-stream requests carry start records and end-stream requests carry end records |
| KinesisPublisher.CycleRequestsWithin | src/tools/taxi_trip_kinesis_streams.py:129-144 | the same holds for every request of a run of cycles |
| KinesisPublisher.SimulationSendsWithinSchedule | src/tools/taxi_trip_kinesis_streams.py:126-144 | every request of the simulation goes to one of the two streams. Start-stream requests carry start records only; end-stream requests carry only end records before `10 × (number of start chunks)` |
| KinesisPublisher.SendCycle | src/tools/taxi_trip_kinesis_streams.py:133-141 | one cycle sends the start batch, then the end batch |
| KinesisPublisher.Simulate | src/tools/taxi_trip_kinesis_streams.py:126-144 | the loop makes exactly the requests of the lockstep schedule, in order |
| GlueReplay.UpdateFields | src/glue/taxi_trip_glue_replay.py:31 | a field is an update field exactly when it is a field of the record whose key is not trip_id; values are unchanged |
| GlueReplay.UpdateFieldsAppend | src/glue/taxi_trip_glue_replay.py:31 | the filter keeps the record's key order |
| GlueReplay.NameMap | src/glue/taxi_trip_glue_replay.py:36 | no contract; defines `{f"#{k}": k for k in update_fields}` (its properties are `NameMapSpec`) |
| GlueReplay.Prefixed | src/glue/taxi_trip_glue_replay.py:37 | no contract; defines a dict comprehension keyed by `prefix + k`, later fields overriding earlier ones (its properties are `PrefixedSpec`) |
| GlueReplay.ValueMap | src/glue/taxi_trip_glue_replay.py:37 | no contract; defines `{f":{k}": v for k, v in update_fields.items()}` (its properties are `PrefixedSpec`) |
| GlueReplay.NameMapSpec | src/glue/taxi_trip_glue_replay.py:36 | each update field `k` has the placeholder `#k`, standing for `k`, and there is no other name placeholder |
| GlueReplay.PrefixedSpec | src/glue/taxi_trip_glue_replay.py:37 | each field `k: v` has the entry `:k`, there is no other entry, and for a dict's fields `:k` holds `v` |
| GlueReplay.FieldMapSpec | src/glue/taxi_trip_glue_replay.py:31 | the update fields as a dict have exactly the fields' keys, each holding its field's value |
| GlueReplay.SetClause | src/glue/taxi_trip_glue_replay.py:38 | no contract; defines the clause `f"#{k} = :{k}"` |
| GlueReplay.SetClauses | src/glue/taxi_trip_glue_replay.py:38 | ensures only the length, one clause per update field; defines the `#k = :k` clauses in field order (its properties are `ExpressionReadBack` and `NoTripIdClause`) |
| GlueReplay.UpdateExpression | src/glue/taxi_trip_glue_replay.py:38 | no contract; defines `"SET " + ", ".join(...)` of the `#k = :k` clauses (its properties are `ExpressionReadBack` and `NoTripIdClause`) |
| GlueReplay.SplitJoin | src/glue/taxi_trip_glue_replay.py:38 | splitting a `join` on its separator's first character gives the parts back, when no part contains that character |
| GlueReplay.ExpressionReadBack | src/glue/taxi_trip_glue_replay.py:38 | the expression is "SET " followed by `#k = :k` for each update field, in key order, joined by ", " (read back by splitting on commas, for keys without a comma) |
| GlueReplay.BuildUpdate | src/glue/taxi_trip_glue_replay.py:36-47 | no contract; defines the `update_item` request: key, expression, name and value placeholders, `ReturnValues="UPDATED_NEW"` (its properties are `PlaceholdersMatchRecord` and `AssignedBuildUpdate`) |
| GlueReplay.NoTripIdPlaceholder | src/glue/taxi_trip_glue_replay.py:31-37 | trip_id has neither a `#trip_id` name nor a `:trip_id` value placeholder |
| GlueReplay.NoTripIdClause | src/glue/taxi_trip_glue_replay.py:31-38 | the SET expression has no clause for trip_id |
| GlueReplay.PlaceholdersMatchRecord | src/glue/taxi_trip_glue_replay.py:36-47 | the request's name and value placeholders are exactly those of the record's non-trip_id fields, with the record's values. trip_id has no placeholder and no SET clause, so it appears only in `Key`. `ReturnValues` is UPDATED_NEW |
| GlueReplay.AssignedBuildUpdate | src/glue/taxi_trip_glue_replay.py:36-47 | the attributes the built update sets are exactly the update fields, each set to its value |
| GlueReplay.Confirmed | src/glue/taxi_trip_glue_replay.py:49 | no contract; defines success: the update returned, with an `Attributes` entry that is not empty |
| GlueReplay.Unserializable | src/glue/taxi_trip_glue_replay.py:41-47 | no contract; defines the values boto3 refuses to serialize: floats, NaN and the infinities included |
| GlueReplay.Sendable | src/glue/taxi_trip_glue_replay.py:41-47 | no contract; defines an update request boto3 can serialize: its key and every value placeholder's value are not floats (its properties are `SerializableRecordSendable` and `FloatFieldUnsendable`) |
| GlueReplay.SerializableRecordSendable | src/glue/taxi_trip_glue_replay.py:41-47 | when no value of the record and not the trip_id is a float, boto3 can serialize the built update request |
| GlueReplay.FloatFieldUnsendable | src/glue/taxi_trip_glue_replay.py:31-47 | a float among the update fields makes the update request one boto3 refuses |
| GlueReplay.Applied | src/glue/taxi_trip_glue_replay.py:41-47 | a returned update touches only the item under its key; the other items are kept |
| GlueReplay.TripUpdate | src/glue/taxi_trip_glue_replay.py:16-52 | no trip_id: False, with no table access. Otherwise get_item is called first. The update is issued exactly when the get did not raise, the item exists and there are update fields, and it is the built request. True exactly when that update returned a non-empty Attributes; an exception escapes exactly when the get raised or the update raised (a float key or value always makes boto3 raise); otherwise False. Without an update the items are unchanged; the table's keys never change |
| GlueReplay.TripUpdateSetsRecordFields | src/glue/taxi_trip_glue_replay.py:31-47 | the items change exactly when the update request is sent and the service returns an answer to it: then the trip's item gets every record field but trip_id with the record's value and keeps its other attributes, and every other item is untouched; otherwise the items are as they were |
| GlueReplay.Table.GetItem | src/glue/taxi_trip_glue_replay.py:25-26 | `get_item` is logged and returns the item if present, unless the call raises: the key is a float, or the service fails |
| GlueReplay.Table.UpdateItem | src/glue/taxi_trip_glue_replay.py:41-47 | `update_item` is logged, returns the service's reply, and applies the update when it returns |
| GlueReplay.Table.UpdateTripDetails | src/glue/taxi_trip_glue_replay.py:16-52 | the imperative guards make exactly the decision, requests and item changes of `TripUpdate` |
| GlueReplay.Take | src/glue/taxi_trip_glue_replay.py:57-62 | a poll gets at most `MaxNumberOfMessages` messages, in queue order; it gets none exactly when none are waiting |
| GlueReplay.Receives | src/glue/taxi_trip_glue_replay.py:57-62 | no contract; defines the `receive_message` requests of `n` polls, each with `MaxNumberOfMessages=10` and `WaitTimeSeconds=5` |
| GlueReplay.Dlq.ReceiveMessage | src/glue/taxi_trip_glue_replay.py:57-62 | each poll is logged with its limit and wait and consumes one scripted answer: the messages cut to the limit, or an exception |
| GlueReplay.Dlq.DeleteMessage | src/glue/taxi_trip_glue_replay.py:75 | the delete request is logged with its receipt, and raises for the receipts the service rejects |
| GlueReplay.HandleMessage | src/glue/taxi_trip_glue_replay.py:67-78 | an unreadable body ends the run. Otherwise the message's own receipt is deleted, once, exactly when its record is a dict and the update returned True; no other delete happens, and the table keeps its keys. A body that is not a dict changes nothing; a dict record leaves the items and table requests of `TripUpdate` |
| GlueReplay.HandleBatch | src/glue/taxi_trip_glue_replay.py:67-78 | no contract; defines the `for` loop over one poll's messages, up to the first exception that escapes (its properties are the `Batch…` lemmas below) |
| GlueReplay.Drain | src/glue/taxi_trip_glue_replay.py:55-78 | no contract; defines the `while True` loop: poll, stop on a raising receive, on no message or on an escaping exception, otherwise handle the batch and poll again (its properties are the `Drain…` lemmas below) |
| GlueReplay.HandleBatchAbortSticks | src/glue/taxi_trip_glue_replay.py:67-69 | once a message has ended the run, the later messages of the batch change nothing |
| GlueReplay.HandleBatchStep | src/glue/taxi_trip_glue_replay.py:67-76 | each further message is handled on the state the earlier ones left |
| GlueReplay.BatchAbortsIffUnreadable | src/glue/taxi_trip_glue_replay.py:67-78 | a batch ends the run exactly when one of its message bodies cannot be read; table and delete exceptions never end it |
| GlueReplay.BatchStopsAtFirstUnreadable | src/glue/taxi_trip_glue_replay.py:67-69 | an aborting batch stops at its first unreadable message, with the effects of the messages before it |
| GlueReplay.BatchDeletesOwnReceipts | src/glue/taxi_trip_glue_replay.py:73-75 | a batch adds at most one delete per message, each carrying the receipt of one of its messages, after the earlier deletes |
| GlueReplay.BatchKeepsKeys | src/glue/taxi_trip_glue_replay.py:67-78 | a batch never creates or removes a table item |
| GlueReplay.DrainKeepsKeys | src/glue/taxi_trip_glue_replay.py:55-78 | a whole replay never creates or removes a table item |
| GlueReplay.DrainFollowsSchedule | src/glue/taxi_trip_glue_replay.py:55-78 | the number of polls and how the run ends depend only on the queue's answers, never on the table |
| GlueReplay.ScheduleStopsAtFirstEmptyPoll | src/glue/taxi_trip_glue_replay.py:56-69 | the schedule's polls before the last all brought readable messages; the last one brought none (drained), or raised or brought an unreadable one (aborted), in both directions |
| GlueReplay.DrainStopsAtFirstEmptyPoll | src/glue/taxi_trip_glue_replay.py:56-69 | the replay ends exactly at the first poll that brings no message (drained), or at the first that raises or holds an unreadable body (aborted) |
| GlueReplay.AnsweringConfirms | src/glue/taxi_trip_glue_replay.py:41-52 | against a table that answers normally, an existing trip with a field besides trip_id and no float value is confirmed, and its item gets the record's fields |
| GlueReplay.SkippedMessageKeepsWorld | src/glue/taxi_trip_glue_replay.py:18-34 | a readable dict record without a trip_id, whose trip is not stored, or with no field besides trip_id, does not end the run, changes no item and is not deleted |
| GlueReplay.FloatFieldKeepsMessage | src/glue/taxi_trip_glue_replay.py:41-77 | a record with a float among its update fields never has its message deleted and changes no item, whatever the table answers: boto3 raises, and the `except` swallows it |
| GlueReplay.ConfirmedMessageIsDeleted | src/glue/taxi_trip_glue_replay.py:41-75 | against a table that answers normally, a stored trip with a field besides trip_id and no float value gets those fields, and exactly its message's receipt is deleted |
| GlueReplay.ScenarioRecordC3 | src/glue/taxi_trip_glue_replay.py:31 | the only update field of `{trip_id: "C3", fare: 9.0}` is the float `fare: 9.0` |
| GlueReplay.HandleBatchOfThree | src/glue/taxi_trip_glue_replay.py:67-76 | three readable messages are handled one after another |
| GlueReplay.ThreeMessageBatch | src/glue/taxi_trip_glue_replay.py:67-76 | in one poll of two skipped messages followed by one naming a stored trip with fields and no float, only the third message is deleted and only its trip's item changes |
| GlueReplay.ThreeMessagesKept | src/glue/taxi_trip_glue_replay.py:67-77 | in one poll of two skipped messages followed by one with a float field, no message is deleted and no item changes |
| GlueReplay.DrainOnePoll | src/glue/taxi_trip_glue_replay.py:56-69 | a single non-empty poll whose batch does not end the run is followed by one empty poll, and the run drains with that batch's effects |
| GlueReplay.ReplayScenario | src/glue/taxi_trip_glue_replay.py:55-78 | as the code runs it, a replay whose one poll brings `{trip_id: "A1"}` (A1 stored), `{trip_id: "B2", fare: 12.5}` (B2 not stored) and `{trip_id: "C3", fare: 9.0}` (C3 stored) takes two polls and drains the queue; C3's float fare makes its update raise, so nothing is deleted and no item changes |
| GlueReplay.JsonConstant | src/glue/taxi_trip_glue_replay.py:12-14 | no contract; defines the floats read from the JSON constants `NaN`, `Infinity` and `-Infinity`, which `parse_float` and `parse_int` never see |
| GlueReplay.DecimalValue | src/glue/taxi_trip_glue_replay.py:14 | no contract; defines `parse_decimal_json`'s reading of one value: an int or a float that is not a JSON constant becomes a `Decimal`, anything else is unchanged (its properties are `DecimalRecord`) |
| GlueReplay.DecimalRecord | src/glue/taxi_trip_glue_replay.py:12-14 | reading with `parse_decimal_json` keeps the keys and their order; every int, and every float that is not NaN or an infinity, becomes a `Decimal`, a float keeping its text; every other value, NaN and the infinities included, is unchanged |
| GlueReplay.ReadWithDecimals | src/glue/taxi_trip_glue_replay.py:12-14 | no contract; defines a message whose dict record is read with `parse_decimal_json` (its properties are the `Decimal…` lemmas) |
| GlueReplay.DecimalRecordSerializable | src/glue/taxi_trip_glue_replay.py:12-14 | read with `parse_decimal_json`, a record can be sent to the table exactly when it holds no NaN and no infinity |
| GlueReplay.DecimalReadConfirms | src/glue/taxi_trip_glue_replay.py:12-14 | read with `parse_decimal_json`, a message without NaN or infinity naming a stored trip with a field besides trip_id is confirmed against a table that answers normally: its fields are set and the message deleted |
| GlueReplay.DecimalReadKeepsJsonConstant | src/glue/taxi_trip_glue_replay.py:12-14 | read with `parse_decimal_json`, a record with NaN or an infinity among its update fields still never has its message deleted and changes no item, whatever the table answers |
| GlueReplay.DecimalRecordsA1B2 | src/glue/taxi_trip_glue_replay.py:12-14 | read with decimals, A1's record is unchanged and B2's still names B2 |
| GlueReplay.DecimalRecordC3 | src/glue/taxi_trip_glue_replay.py:12-14 | read with decimals, C3's only update field is the `Decimal` fare 9.0, and the record can be sent |
| GlueReplay.DecimalReplayScenario | src/glue/taxi_trip_glue_replay.py:55-78 | with the bodies read by `parse_decimal_json`, the same replay deletes only C3's message and sets C3's fare to `Decimal("9.0")`, keeping every other item |
| GlueReplay.HandleMessages | src/glue/taxi_trip_glue_replay.py:67-78 | the `for` loop has exactly the effect of `HandleBatch`: the same items, table requests and deletes, and it aborts exactly when `HandleBatch` does |
| GlueReplay.ReplayFailedTrips | src/glue/taxi_trip_glue_replay.py:55-78 | the `while True` loop ends as `Drain` says, with the same items, table requests and deletes; it makes one receive request of at most 10 messages and a 5-second wait per poll, and consumes one scripted answer per poll |

## Left out

- I/O and pacing:
  - Reading the parquet files and `iterrows`/`to_dict`: the rows are given as a sequence.
  - The `print` calls, logging, timestamps, `time.sleep` and `random.uniform`.
  - The boto3 clients themselves. The services are oracles: an answer per Kinesis request number, and a `Service` for the table. The queue answers from a finite poll script.
- Encodings:
  - `json.dumps(...).encode("utf-8")` is modelled only for its refusal of `Decimal` values: a record's payload is the normalised row itself. Other values `json.dumps` refuses (timestamps, numpy scalars) are not values of the model.
  - A `Decimal` NaN, which `pd.isna` treats as missing, is not modelled: a `Decimal`'s text is a number.
  - Reading a message body with `json.loads(msg['Body'])['record']` is reduced to its three outcomes: unreadable, not a dict, or a dict record.
  - Nested JSON values are not modelled.
  - Floats are kept as their `str()` text and `Decimal`s as their digits; floating-point and decimal arithmetic are not modelled.
  - The JSON text of a number is not modelled: the `Decimal` that `parse_decimal_json` would make of a float is given the float's `str()` text.
  - A JSON number too large for a float (`1e400`) is read by `json.loads` as an infinity but by `parse_decimal_json` as a finite `Decimal`. Since a float is kept as its `str()` text, the model cannot tell it from the constant `Infinity`, and `DecimalValue` keeps every infinite float a float.
- `Service`: an answer is a function of the request, so the same `get_item` or `update_item` always gets the same answer within a run. A transient failure that a later call of the same request would survive is not expressed.
- boto3's serializer is modelled only for its refusal of floats, NaN included, as the `trip_id` key or as an attribute value. Its other refusals (sets, nested floats, empty key strings) are left to the `Service` oracle.
- SQS visibility timeout and redelivery:
  - The queue is a finite script of poll answers.
  - An exhausted script answers with no message, so a run always ends.
  - Redelivery after the visibility timeout is not modelled: the poll script is fixed in advance and does not depend on the deletes. A script may repeat a message that was not deleted, but nothing makes it do so.
- A Kinesis `Records` value of a wrong type, and a `FailedRecordCount` that is not an integer, are not modelled: the count is an optional integer and the result list an optional list of entries.
- The `__main__` blocks are not modelled. The replay one is CLI plumbing, and it is broken: it assigns `sql_url` but passes the undefined `sqs_url`, and it passes the table name, a string, as the table.
- Behaviour of the code that the model keeps:
  - `json.loads(msg['Body'])['record']` runs before the `try` (src/glue/taxi_trip_glue_replay.py:68-70), so an unreadable body ends the run. `receive_message` (src/glue/taxi_trip_glue_replay.py:57) is outside every `try` too, so a raising poll ends the run.
  - The body is read with `json.loads`, not with `parse_decimal_json` (src/glue/taxi_trip_glue_replay.py:12-14, 68), so fares arrive as floats (see Findings). The `Decimal` reading is modelled beside it, as the corrected behaviour.
  - When the retry `put_records` raises, the count keeps the first round's successes (src/tools/taxi_trip_kinesis_streams.py:72, 97-100).
  - A missing key column is published under "None" (src/tools/taxi_trip_kinesis_streams.py:45-49, see Findings).
  - `update_item` has no condition (src/glue/taxi_trip_glue_replay.py:41-47). `Applied` would create an absent item; `TripUpdate` only updates after `get_item` found the item, so no item is ever created (`DrainKeepsKeys`). This holds because the model has no other writer: an item deleted by someone else between `get_item` (src/glue/taxi_trip_glue_replay.py:25) and the unconditional `update_item` (line 41) would be re-created.
  - `send_batch_to_kinesis` returns only the count (src/tools/taxi_trip_kinesis_streams.py:100).
- Table keys: a `trip_id` is any value, and the table is keyed by that value itself rather than by the `{"trip_id": …}` dict.

## Findings

| source | as written | input that shows it | evidently intended | confidence | as-written member | corrected member |
|---|---|---|---|---|---|---|
| src/tools/taxi_trip_kinesis_streams.py:45-49 | `str(record.get(partition_key_col))` is "None" when the key column is missing or holds NaN/None, so `if not partition_key` skips only a key holding the empty string | a row without a `trip_id` column, or with NaN in it: published with partition key "None" | skip the row, as the log message "Skipping row with missing partition key" says | high, not executed | KinesisPublisher.MissingOrNaNKeyPublishedAsNone | KinesisPublisher.IntendedStreamRecord |
| src/glue/taxi_trip_glue_replay.py:68 | the body is read with `json.loads`, so a number with a fraction is a Python float; boto3 refuses floats in `update_item` with a TypeError, the `except` at line 77 swallows it, and the message is never deleted | `{"record": {"trip_id": "C3", "fare": 9.0}}` with C3 in the table: no item changes and the message stays in the queue, on every replay | read the body with the unused `parse_decimal_json` (lines 12-14), so numbers are `Decimal` and the update goes through | high, not executed | GlueReplay.FloatFieldKeepsMessage | GlueReplay.DecimalReadConfirms |
