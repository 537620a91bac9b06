/**
 * KinesisPublisher: the batch publisher of `src/tools/taxi_trip_kinesis_streams.py`.
 *
 * Rows become stream records (a payload row and a partition key), records
 * are cut into batches of ten, each batch is sent with one `put_records`
 * request and its failed subset retried once, and the driver sends the
 * "start" and "end" record streams in lockstep.
 *
 * The Kinesis service is a `StreamClient` whose answer to its k-th request
 * is fixed by an oracle; the client logs every request it receives.
 */
module KinesisPublisher {
  import opened Rows

  const MaxRecordsPerBatch: nat := 10
  const DefaultPartitionKeyColumn := "trip_id"
  const StartTripStream := "start-trip-stream"
  const EndTripStream := "end-trip-stream"

  function Min(a: int, b: int): int {
    if a <= b then a else b
  }

  /** The concatenation of a sequence of sequences, in order. */
  function Concat<T>(ss: seq<seq<T>>): seq<T> {
    if ss == [] then [] else Concat(ss[..|ss| - 1]) + ss[|ss| - 1]
  }

  lemma AppendAssoc<T>(a: seq<T>, b: seq<T>, c: seq<T>)
    ensures a + b + c == a + (b + c)
  {
  }

  lemma {:induction false} ConcatAppend<T>(ss: seq<seq<T>>, s: seq<T>)
    ensures Concat(ss + [s]) == Concat(ss) + s
  {
    assert (ss + [s])[..|ss|] == ss;
  }

  // =====================================================================
  // chunked
  // =====================================================================

  /** The number of values `range(0, n, size)` produces. */
  function NumChunks(n: nat, size: nat): nat
    requires size > 0
  {
    (n + size - 1) / size
  }

  lemma MulMonotone(a: nat, b: nat, c: nat)
    requires a <= b
    ensures a * c <= b * c
  {
    assert b * c == a * c + (b - a) * c;
  }

  /** The `i`-th value of `range(0, n, size)` exists exactly when `i * size < n`. */
  lemma ChunkStartBounds(n: nat, size: nat, i: nat)
    requires size > 0
    ensures i < NumChunks(n, size) <==> i * size < n
  {
    var q := NumChunks(n, size);
    var r := (n + size - 1) % size;
    assert n + size - 1 == q * size + r && 0 <= r < size;
    if i < q {
      MulMonotone(i, q - 1, size);
      assert (q - 1) * size == q * size - size;
    } else {
      MulMonotone(q, i, size);
    }
  }

  /** `iterable[i * size : i * size + size]`, the chunk starting at the `i`-th value of the range. */
  function Chunk<T>(xs: seq<T>, size: nat, i: nat): seq<T>
    requires size > 0 && i < NumChunks(|xs|, size)
  {
    ChunkStartBounds(|xs|, size, i);
    xs[i * size .. Min(i * size + size, |xs|)]
  }

  /** `list(chunked(xs, size))` for a positive size. */
  function Chunks<T>(xs: seq<T>, size: nat): (r: seq<seq<T>>)
    requires size > 0
    ensures |r| == NumChunks(|xs|, size)
  {
    seq(NumChunks(|xs|, size), i requires 0 <= i < NumChunks(|xs|, size) => Chunk(xs, size, i))
  }

  /**
   * `chunked(xs, size)` for any integer size: a zero step makes `range`
   * raise ValueError (None here), a negative step gives an empty range. For
   * a positive size the chunks, in order, are the input: all but the last
   * hold exactly `size` values, the last is non-empty, and there is no
   * chunk exactly when the input is empty.
   */
  function Chunked<T>(xs: seq<T>, size: int): (r: Option<seq<seq<T>>>)
    ensures r.None? <==> size == 0
    ensures size < 0 ==> r == Some([])
    ensures size > 0 ==> r == Some(Chunks(xs, size))
    ensures size > 0 ==> r.Some? && Concat(r.value) == xs
    ensures size > 0 ==> r.Some? && (r.value == [] <==> xs == [])
    ensures size > 0 ==> r.Some? && forall i :: 0 <= i < |r.value| - 1 ==> |r.value[i]| == size
    ensures size > 0 ==> r.Some? && (r.value != [] ==> 0 < |r.value[|r.value| - 1]| <= size)
  {
    if size == 0 then None
    else if size < 0 then Some([])
    else
      ChunksConcat(xs, size);
      ChunksShape(xs, size);
      Some(Chunks(xs, size))
  }

  /**
   * Every chunk but the last holds exactly `size` values, the last one is
   * non-empty and holds at most `size`, and an empty input has no chunk.
   */
  lemma ChunksShape<T>(xs: seq<T>, size: nat)
    requires size > 0
    ensures xs == [] <==> Chunks(xs, size) == []
    ensures forall i :: 0 <= i < |Chunks(xs, size)| - 1 ==> |Chunks(xs, size)[i]| == size
    ensures Chunks(xs, size) != [] ==> 0 < |Chunks(xs, size)[|Chunks(xs, size)| - 1]| <= size
  {
    var cs := Chunks(xs, size);
    assert xs == [] <==> cs == [] by {
      ChunkStartBounds(|xs|, size, 0);
    }
    forall i | 0 <= i < |cs| - 1
      ensures |cs[i]| == size
    {
      ChunkStartBounds(|xs|, size, i + 1);
      assert (i + 1) * size == i * size + size;
    }
    assert cs != [] ==> 0 < |cs[|cs| - 1]| <= size by {
      if cs != [] {
        ChunkStartBounds(|xs|, size, |cs| - 1);
      }
    }
  }

  /** The first `k` chunks, concatenated, are the input up to position `k * size`. */
  lemma {:induction false} ChunksPrefixConcat<T>(xs: seq<T>, size: nat, k: nat)
    requires size > 0 && k <= NumChunks(|xs|, size)
    ensures Concat(Chunks(xs, size)[..k]) == xs[..Min(k * size, |xs|)]
  {
    var cs := Chunks(xs, size);
    if k == 0 {
      assert cs[..0] == [];
    } else {
      ChunksPrefixConcat(xs, size, k - 1);
      ChunkStartBounds(|xs|, size, k - 1);
      assert cs[..k] == cs[..k - 1] + [cs[k - 1]];
      ConcatAppend(cs[..k - 1], cs[k - 1]);
      assert (k - 1) * size + size == k * size;
      assert xs[..Min(k * size, |xs|)] == xs[..(k - 1) * size] + xs[(k - 1) * size .. Min(k * size, |xs|)];
    }
  }

  /** Concatenating the chunks in order gives back the input. */
  lemma ChunksConcat<T>(xs: seq<T>, size: nat)
    requires size > 0
    ensures Concat(Chunks(xs, size)) == xs
  {
    var cs := Chunks(xs, size);
    ChunksPrefixConcat(xs, size, |cs|);
    assert cs[..|cs|] == cs;
    if |cs| > 0 {
      ChunkStartBounds(|xs|, size, |cs|);
    } else {
      ChunkStartBounds(|xs|, size, 0);
    }
  }

  // =====================================================================
  // df_to_kinesis_records
  // =====================================================================

  /**
   * A stream record: the payload row (which the source serialises with
   * `json.dumps(...).encode("utf-8")`, left abstract here) and its key.
   */
  datatype StreamRecord = StreamRecord(data: Row, partitionKey: string)

  /** `{k: (None if pd.isna(v) else v) for k, v in record.items()}`. */
  function Normalise(row: Row): (r: Row)
    ensures |r| == |row|
    ensures forall i :: 0 <= i < |r| ==> r[i].key == row[i].key && !r[i].val.NaN?
    ensures forall i :: 0 <= i < |r| ==> r[i].val == if IsNa(row[i].val) then Null else row[i].val
  {
    seq(|row|, i requires 0 <= i < |row| => Field(row[i].key, if IsNa(row[i].val) then Null else row[i].val))
  }

  /** A lookup in the normalised row is the lookup in the row, with "no data" turned into None. */
  lemma {:induction false} LookupNormalise(row: Row, k: string)
    ensures Lookup(Normalise(row), k) == match Lookup(row, k)
                                         case None => None
                                         case Some(v) => Some(if IsNa(v) then Null else v)
  {
    if row != [] {
      assert Normalise(row)[1..] == Normalise(row[1..]);
      LookupNormalise(row[1..], k);
    }
  }

  /** `str(record.get(partition_key_col))`: a missing column reads as None. */
  function PartitionKey(record: Row, col: string): string {
    Render(Lookup(record, col).GetOr(Null))
  }

  /** One loop iteration: the record built from a row, or None when the row is skipped. */
  function ToStreamRecord(row: Row, col: string): Option<StreamRecord> {
    var record := Normalise(row);
    var key := PartitionKey(record, col);
    if key == "" then None else Some(StreamRecord(record, key))
  }

  /** The values present in `xs`, in order. */
  function Present<T>(xs: seq<Option<T>>): seq<T> {
    if xs == [] then []
    else
      Present(xs[..|xs| - 1]) +
      match xs[|xs| - 1]
      case None => []
      case Some(x) => [x]
  }

  /** The positions of `xs` holding a value, in increasing order. */
  function PresentAt<T>(xs: seq<Option<T>>): seq<nat> {
    if xs == [] then []
    else PresentAt(xs[..|xs| - 1]) + if xs[|xs| - 1].Some? then [|xs| - 1] else []
  }

  /**
   * `Present` picks the values at exactly the positions `PresentAt` lists:
   * those are in range, strictly increasing, and cover every present value.
   */
  lemma {:induction false} PresentSpec<T>(xs: seq<Option<T>>)
    ensures var at := PresentAt(xs);
      && |Present(xs)| == |at|
      && (forall j :: 0 <= j < |at| ==> at[j] < |xs|)
      && (forall j, j' :: 0 <= j < j' < |at| ==> at[j] < at[j'])
      && (forall i :: 0 <= i < |xs| ==> (i in at <==> xs[i].Some?))
      && (forall j :: 0 <= j < |at| ==> Some(Present(xs)[j]) == xs[at[j]])
  {
    if xs != [] {
      var n := |xs| - 1;
      var init := xs[..n];
      PresentSpec(init);
      var at0, vs0 := PresentAt(init), Present(init);
      var at, vs := PresentAt(xs), Present(xs);
      if xs[n].Some? {
        assert at == at0 + [n];
        assert vs == vs0 + [xs[n].value];
      } else {
        assert at == at0;
        assert vs == vs0;
      }
      assert n !in at0;
      forall i | 0 <= i < n
        ensures i in at <==> xs[i].Some?
      {
        assert init[i] == xs[i];
      }
      forall j | 0 <= j < |at0|
        ensures Some(vs[j]) == xs[at[j]]
      {
        assert init[at0[j]] == xs[at0[j]];
      }
    }
  }

  /** Where the values are depends only on which positions hold one. */
  lemma {:induction false} PresentAtShape<T, U>(xs: seq<Option<T>>, ys: seq<Option<U>>)
    requires |xs| == |ys|
    requires forall i :: 0 <= i < |xs| ==> (xs[i].Some? <==> ys[i].Some?)
    ensures PresentAt(xs) == PresentAt(ys)
  {
    if xs != [] {
      var n := |xs| - 1;
      PresentAtShape(xs[..n], ys[..n]);
    }
  }

  /** The loop's iteration results, one per row. */
  function Mapped(rows: seq<Dict>, col: string): seq<Option<StreamRecord>> {
    seq(|rows|, i requires 0 <= i < |rows| => ToStreamRecord(rows[i], col))
  }

  /** What `df_to_kinesis_records` returns for the rows in order. */
  function Records(rows: seq<Dict>, col: string): seq<StreamRecord> {
    Present(Mapped(rows, col))
  }

  /** The positions of the rows that are not skipped, in increasing order. */
  function KeptRows(rows: seq<Dict>, col: string): seq<nat> {
    PresentAt(Mapped(rows, col))
  }

  /** The records are the kept rows, in input order, each mapped by `ToStreamRecord`. */
  lemma RecordsAreKeptRows(rows: seq<Dict>, col: string)
    ensures var kept := KeptRows(rows, col);
      && |Records(rows, col)| == |kept|
      && (forall j :: 0 <= j < |kept| ==> kept[j] < |rows|)
      && (forall j, j' :: 0 <= j < j' < |kept| ==> kept[j] < kept[j'])
      && (forall i :: 0 <= i < |rows| ==> (i in kept <==> ToStreamRecord(rows[i], col).Some?))
      && (forall j :: 0 <= j < |kept| ==> Some(Records(rows, col)[j]) == ToStreamRecord(rows[kept[j]], col))
  {
    PresentSpec(Mapped(rows, col));
  }

  /** Processing one more row appends its record, if it is kept. */
  lemma RecordsSnoc(rows: seq<Dict>, n: nat, col: string)
    requires n < |rows|
    ensures Records(rows[..n + 1], col) == Records(rows[..n], col) +
      match ToStreamRecord(rows[n], col)
      case None => []
      case Some(r) => [r]
  {
    assert Mapped(rows[..n + 1], col)[..n] == Mapped(rows[..n], col);
  }

  /**
   * A row is skipped exactly when its partition-key text is empty, which
   * happens only when the key column holds the empty string; a kept row's
   * payload is the row with "no data" values replaced by None.
   */
  lemma ToStreamRecordSpec(row: Row, col: string)
    ensures ToStreamRecord(row, col).None? <==> Lookup(row, col) == Some(Text(""))
    ensures ToStreamRecord(row, col).Some? ==>
      && ToStreamRecord(row, col).value.data == Normalise(row)
      && ToStreamRecord(row, col).value.partitionKey != ""
      && ToStreamRecord(row, col).value.partitionKey == Render(Lookup(Normalise(row), col).GetOr(Null))
  {
    LookupNormalise(row, col);
    RenderEmptyIff(Lookup(Normalise(row), col).GetOr(Null));
  }

  /** A row without the key column is kept, under the partition key "None". */
  lemma MissingKeyIsKept(row: Row, col: string)
    requires Lookup(row, col).None?
    ensures ToStreamRecord(row, col) == Some(StreamRecord(Normalise(row), "None"))
  {
    LookupNormalise(row, col);
  }

  /** There is at most one record per row, and every record has a non-empty partition key. */
  lemma {:induction false} RecordsBounds(rows: seq<Dict>, col: string)
    ensures |Records(rows, col)| <= |rows|
    ensures forall j :: 0 <= j < |Records(rows, col)| ==> Records(rows, col)[j].partitionKey != ""
  {
    if rows != [] {
      var n := |rows| - 1;
      RecordsBounds(rows[..n], col);
      RecordsSnoc(rows, n, col);
      assert rows[..n + 1] == rows;
    }
  }

  /**
   * Whether `json.dumps` accepts the payload. It raises TypeError on a
   * `decimal.Decimal` value; every other modelled value has a JSON form.
   */
  predicate JsonDumpable(row: Row) {
    forall f :: f in row ==> !f.val.Decimal?
  }

  /**
   * Whether the loop raises at this row: the key check comes first, so only
   * a kept row is dumped, and it raises when its payload holds a `Decimal`.
   */
  predicate DumpRaises(row: Row, col: string) {
    ToStreamRecord(row, col).Some? && !JsonDumpable(ToStreamRecord(row, col).value.data)
  }

  /** Whether some element of `xs` satisfies `p`, scanning `xs` in order. */
  predicate Any<T>(xs: seq<T>, p: T -> bool) {
    xs != [] && (Any(xs[..|xs| - 1], p) || p(xs[|xs| - 1]))
  }

  /** The scan finds an element exactly when one exists. */
  lemma {:induction false} AnyIff<T>(xs: seq<T>, p: T -> bool)
    ensures Any(xs, p) <==> exists i :: 0 <= i < |xs| && p(xs[i])
  {
    if xs != [] {
      var init := xs[..|xs| - 1];
      AnyIff(init, p);
      if exists i :: 0 <= i < |xs| && p(xs[i]) {
        var i :| 0 <= i < |xs| && p(xs[i]);
        if i < |xs| - 1 {
          assert init[i] == xs[i];
        }
      }
      if exists i :: 0 <= i < |init| && p(init[i]) {
        var i :| 0 <= i < |init| && p(init[i]);
        assert xs[i] == init[i];
      }
    }
  }

  /** Whether the loop raises at some row. */
  predicate AnyRaises(rows: seq<Dict>, col: string) {
    Any(rows, row => DumpRaises(row, col))
  }

  /** The loop raises exactly when some row raises. */
  lemma AnyRaisesIff(rows: seq<Dict>, col: string)
    ensures AnyRaises(rows, col) <==> exists i :: 0 <= i < |rows| && DumpRaises(rows[i], col)
  {
    AnyIff(rows, row => DumpRaises(row, col));
  }

  /** A row that raises makes every longer run of rows raise. */
  lemma AnyRaisesPrefix(rows: seq<Dict>, n: nat, col: string)
    requires n <= |rows| && AnyRaises(rows[..n], col)
    ensures AnyRaises(rows, col)
  {
    AnyRaisesIff(rows[..n], col);
    var i :| 0 <= i < n && DumpRaises(rows[..n][i], col);
    assert rows[i] == rows[..n][i];
    AnyRaisesIff(rows, col);
  }

  /**
   * One more row: its record is appended when it is kept, and the loop
   * raises there when it is kept and its payload cannot be dumped.
   */
  lemma LoopStep(rows: seq<Dict>, n: nat, col: string)
    requires n < |rows|
    ensures var record := Normalise(rows[n]);
      var key := PartitionKey(record, col);
      && Records(rows[..n + 1], col) == Records(rows[..n], col) + (if key == "" then [] else [StreamRecord(record, key)])
      && (AnyRaises(rows[..n + 1], col) <==> AnyRaises(rows[..n], col) || (key != "" && !JsonDumpable(record)))
  {
    RecordsSnoc(rows, n, col);
    assert rows[..n + 1][..n] == rows[..n];
  }

  /**
   * What a call of `df_to_kinesis_records` ends with: the records, or None
   * when the TypeError of `json.dumps` escapes from some kept row.
   */
  function RecordsOrRaise(rows: seq<Dict>, col: string): Option<seq<StreamRecord>> {
    if AnyRaises(rows, col) then None else Some(Records(rows, col))
  }

  /** Rows without a `Decimal` value never make the mapper raise: it returns all the records. */
  lemma NoDecimalNeverRaises(rows: seq<Dict>, col: string)
    requires forall i :: 0 <= i < |rows| ==> JsonDumpable(rows[i])
    ensures RecordsOrRaise(rows, col) == Some(Records(rows, col))
  {
    AnyRaisesIff(rows, col);
    forall i | 0 <= i < |rows|
      ensures !DumpRaises(rows[i], col)
    {
      var data := Normalise(rows[i]);
      forall f | f in data
        ensures !f.val.Decimal?
      {
        var j :| 0 <= j < |data| && data[j] == f;
        assert rows[i][j] in rows[i];
      }
    }
  }

  /** A kept row with a `Decimal` fare makes the whole call raise, whatever rows come before or after it. */
  lemma DecimalFareRaises(before: seq<Dict>, after: seq<Dict>)
    ensures RecordsOrRaise(before + [[Field("trip_id", Text("A")), Field("fare", Decimal("9.0"))]] + after, "trip_id").None?
  {
    var row: Dict := [Field("trip_id", Text("A")), Field("fare", Decimal("9.0"))];
    var rows := before + [row] + after;
    var data := Normalise(row);
    assert Lookup(data, "trip_id") == Some(Text("A"));
    assert data[1] == Field("fare", Decimal("9.0")) && data[1] in data;
    assert rows[|before|] == row && DumpRaises(row, "trip_id");
    AnyRaisesIff(rows, "trip_id");
  }

  /**
   * The input rows are `df.iterrows()`; the loop appends one record per kept
   * row and stops with the exception of `json.dumps` at the first kept row
   * it cannot encode (None).
   */
  method DfToKinesisRecords(rows: seq<Dict>, col: string) returns (result: Option<seq<StreamRecord>>)
    ensures result == RecordsOrRaise(rows, col)
    ensures result.Some? ==> |result.value| <= |rows|
    ensures result.Some? ==> forall j :: 0 <= j < |result.value| ==> result.value[j].partitionKey != ""
  {
    var records := [];
    for n := 0 to |rows|
      invariant records == Records(rows[..n], col)
      invariant !AnyRaises(rows[..n], col)
    {
      var record := Normalise(rows[n]);
      var partitionKey := PartitionKey(record, col);
      LoopStep(rows, n, col);
      if partitionKey == "" {
        continue;
      }
      if !JsonDumpable(record) {
        AnyRaisesPrefix(rows, n + 1, col);
        return None;
      }
      records := records + [StreamRecord(record, partitionKey)];
      assert records == Records(rows[..n + 1], col);
    }
    assert rows[..|rows|] == rows;
    RecordsBounds(rows, col);
    return Some(records);
  }

  /**
   * The skip the code evidently means ("Skipping row with missing partition
   * key"): a row is dropped when its key column is missing or holds no data,
   * as well as when it holds the empty string.
   */
  function IntendedStreamRecord(row: Row, col: string): (r: Option<StreamRecord>)
    ensures r.Some? <==> Lookup(row, col).Some? && !IsNa(Lookup(row, col).value) && Lookup(row, col).value != Text("")
    ensures r.Some? ==> r.value.data == Normalise(row) && r.value.partitionKey == Render(Lookup(row, col).value) != ""
  {
    LookupNormalise(row, col);
    var record := Normalise(row);
    match Lookup(record, col)
    case None => None
    case Some(v) =>
      RenderEmptyIff(v);
      if v.Null? || Render(v) == "" then None else Some(StreamRecord(record, Render(v)))
  }

  /**
   * As written, a row whose key is missing, or holds NaN, is published under
   * the partition key "None"; the intended mapper skips both.
   */
  lemma MissingOrNaNKeyPublishedAsNone()
    ensures ToStreamRecord([], DefaultPartitionKeyColumn) == Some(StreamRecord([], "None"))
    ensures ToStreamRecord([Field(DefaultPartitionKeyColumn, NaN)], DefaultPartitionKeyColumn)
         == Some(StreamRecord([Field(DefaultPartitionKeyColumn, Null)], "None"))
    ensures IntendedStreamRecord([], DefaultPartitionKeyColumn).None?
    ensures IntendedStreamRecord([Field(DefaultPartitionKeyColumn, NaN)], DefaultPartitionKeyColumn).None?
  {
    var row := [Field(DefaultPartitionKeyColumn, NaN)];
    assert Normalise(row) == [Field(DefaultPartitionKeyColumn, Null)];
  }

  /**
   * The intended mapper agrees with the code on every row whose key column
   * holds data, and differs exactly on the rows whose key is missing or
   * holds no data, which the code publishes under "None".
   */
  lemma IntendedDiffersOnlyOnMissingKey(row: Row, col: string)
    ensures IntendedStreamRecord(row, col) != ToStreamRecord(row, col) <==>
      Lookup(row, col).None? || IsNa(Lookup(row, col).value)
    ensures IntendedStreamRecord(row, col).Some? ==> ToStreamRecord(row, col) == IntendedStreamRecord(row, col)
  {
    LookupNormalise(row, col);
    ToStreamRecordSpec(row, col);
  }

  // =====================================================================
  // send_batch_to_kinesis
  // =====================================================================

  /** One entry of the per-record result list; `errorCode` is its "ErrorCode" key, if present. */
  datatype PutResultEntry = PutResultEntry(errorCode: Option<string>)

  /**
   * What a `put_records` call does: raise, or return a response whose
   * "FailedRecordCount" and "Records" keys may each be absent.
   */
  datatype PutReply =
    | PutRaised
    | PutReturned(failedRecordCount: Option<int>, records: Option<seq<PutResultEntry>>)

  /** `response.get("FailedRecordCount", 0)`. */
  function FailedCount(reply: PutReply): int
    requires reply.PutReturned?
  {
    reply.failedRecordCount.GetOr(0)
  }

  /** A `put_records` request as the service receives it. */
  datatype PutCall = PutCall(stream: string, records: seq<StreamRecord>)

  /** The Kinesis client: it answers its k-th request with `replyTo(k)` and logs every request. */
  class StreamClient {
    const replyTo: nat -> PutReply
    var calls: seq<PutCall>

    constructor (replyTo: nat -> PutReply)
      ensures this.replyTo == replyTo && calls == []
    {
      this.replyTo := replyTo;
      calls := [];
    }

    /**
     * `put_records(StreamName=stream, Records=records)`. An empty list is
     * refused by botocore's parameter validation (at least one record is
     * required) and never reaches the service.
     */
    method PutRecords(stream: string, records: seq<StreamRecord>) returns (reply: PutReply)
      modifies this
      ensures records == [] ==> calls == old(calls) && reply == PutRaised
      ensures records != [] ==> calls == old(calls) + [PutCall(stream, records)] && reply == replyTo(|old(calls)|)
    {
      if records == [] {
        return PutRaised;
      }
      reply := replyTo(|calls|);
      calls := calls + [PutCall(stream, records)];
    }
  }

  /**
   * `zip(xs, entries)` with each pair kept as `Some(x)` when its entry
   * carries an ErrorCode and `None` otherwise; `zip` stops at the shorter list.
   */
  function Failed<T>(xs: seq<T>, entries: seq<PutResultEntry>): seq<Option<T>> {
    seq(Min(|xs|, |entries|), i requires 0 <= i < Min(|xs|, |entries|) =>
      if entries[i].errorCode.Some? then Some(xs[i]) else None)
  }

  /** The records collected for the retry, in batch order. */
  function RetryBatch(batch: seq<StreamRecord>, entries: seq<PutResultEntry>): seq<StreamRecord> {
    Present(Failed(batch, entries))
  }

  /**
   * The retry batch is exactly the in-order subsequence of the batch at the
   * positions, aligned with the result list, that carry an ErrorCode.
   */
  lemma RetryBatchIsErrorSubsequence(batch: seq<StreamRecord>, entries: seq<PutResultEntry>)
    ensures var pos := PresentAt(Failed(batch, entries));
      && |RetryBatch(batch, entries)| == |pos|
      && (forall j :: 0 <= j < |pos| ==> pos[j] < Min(|batch|, |entries|) && RetryBatch(batch, entries)[j] == batch[pos[j]])
      && (forall j, j' :: 0 <= j < j' < |pos| ==> pos[j] < pos[j'])
      && (forall i :: 0 <= i < Min(|batch|, |entries|) ==> (i in pos <==> entries[i].errorCode.Some?))
  {
    PresentSpec(Failed(batch, entries));
  }

  /** Whether the code reaches the retry `put_records` call, given the first reply. */
  predicate Retries(batch: seq<StreamRecord>, first: PutReply) {
    batch != [] && first.PutReturned? && FailedCount(first) > 0 && first.records.Some?
  }

  /**
   * Whether the retry reaches the service: an empty retry batch is refused
   * before it is sent, which happens when failures are counted but no result
   * entry carries an ErrorCode.
   */
  predicate RetrySent(batch: seq<StreamRecord>, first: PutReply) {
    Retries(batch, first) && RetryBatch(batch, first.records.value) != []
  }

  /** The requests `send_batch_to_kinesis` issues, given the first reply. */
  function Requests(stream: string, batch: seq<StreamRecord>, first: PutReply): seq<PutCall> {
    if batch == [] then []
    else if RetrySent(batch, first) then
      [PutCall(stream, batch), PutCall(stream, RetryBatch(batch, first.records.value))]
    else [PutCall(stream, batch)]
  }

  /**
   * The count `send_batch_to_kinesis` returns: the first round's
   * `len(batch) - FailedRecordCount`, plus the retry's
   * `len(failed_records) - FailedRecordCount` when the retry returns; an
   * exception keeps whatever was counted before it.
   */
  function SentTotal(batch: seq<StreamRecord>, first: PutReply, retry: PutReply): int {
    if batch == [] || first.PutRaised? then 0
    else
      var firstRound := |batch| - FailedCount(first);
      if !RetrySent(batch, first) || retry.PutRaised? then firstRound
      else firstRound + (|RetryBatch(batch, first.records.value)| - FailedCount(retry))
  }

  method SendBatchToKinesis(client: StreamClient, batch: seq<StreamRecord>, stream: string) returns (totalSent: int)
    modifies client
    ensures client.calls == old(client.calls) + Requests(stream, batch, client.replyTo(|old(client.calls)|))
    ensures totalSent == SentTotal(batch, client.replyTo(|old(client.calls)|), client.replyTo(|old(client.calls)| + 1))
  {
    if batch == [] {
      return 0;
    }
    totalSent := 0;
    var response := client.PutRecords(stream, batch);
    if response.PutRaised? {
      return;
    }
    var failedCount := FailedCount(response);
    var successCount := |batch| - failedCount;
    totalSent := totalSent + successCount;
    if failedCount > 0 {
      if response.records.None? {
        // response["Records"] raises KeyError, caught below the retry
        return;
      }
      var results := response.records.value;
      var failedRecords := [];
      var i := 0;
      ghost var failed := Failed(batch, results);
      while i < |batch| && i < |results|
        invariant 0 <= i <= Min(|batch|, |results|)
        invariant failedRecords == Present(failed[..i])
      {
        assert failed[..i + 1][..i] == failed[..i];
        if results[i].errorCode.Some? {
          failedRecords := failedRecords + [batch[i]];
        }
        i := i + 1;
      }
      assert failed[..i] == failed;
      var retryResponse := client.PutRecords(stream, failedRecords);
      if retryResponse.PutRaised? {
        return;
      }
      var retryFailures := FailedCount(retryResponse);
      var retrySuccess := |failedRecords| - retryFailures;
      totalSent := totalSent + retrySuccess;
    }
  }

  /**
   * At most two requests: the whole batch first, then, only when the first
   * reply counted failures and carried a result list with an ErrorCode
   * entry, the retry batch. An empty batch makes no request and counts 0.
   */
  lemma RequestsShape(stream: string, batch: seq<StreamRecord>, first: PutReply, retry: PutReply)
    ensures batch == [] ==> Requests(stream, batch, first) == [] && SentTotal(batch, first, retry) == 0
    ensures batch != [] ==> 1 <= |Requests(stream, batch, first)| <= 2 && Requests(stream, batch, first)[0] == PutCall(stream, batch)
    ensures |Requests(stream, batch, first)| == 2 <==>
      batch != [] && first.PutReturned? && FailedCount(first) > 0 && first.records.Some? && RetryBatch(batch, first.records.value) != []
    ensures |Requests(stream, batch, first)| == 2 ==>
      Requests(stream, batch, first)[1] == PutCall(stream, RetryBatch(batch, first.records.value))
  {
  }

  /** With no exception, the count is the first round's successes plus, after a retry, the retry's. */
  lemma SentTotalWithoutException(batch: seq<StreamRecord>, first: PutReply, retry: PutReply)
    requires batch != [] && first.PutReturned?
    requires FailedCount(first) > 0 ==> first.records.Some? && retry.PutReturned?
    ensures SentTotal(batch, first, retry) ==
      (|batch| - FailedCount(first)) +
      (if FailedCount(first) > 0 && RetryBatch(batch, first.records.value) != []
       then |RetryBatch(batch, first.records.value)| - FailedCount(retry) else 0)
  {
  }

  /**
   * Exceptions never escape: a raising first call counts 0; a raising retry,
   * failures reported without a result list to collect them from, or an
   * empty retry batch, which botocore refuses, keep the first round's count.
   */
  lemma SentTotalOnException(batch: seq<StreamRecord>, first: PutReply, retry: PutReply)
    ensures first.PutRaised? ==> SentTotal(batch, first, retry) == 0
    ensures batch != [] && first.PutReturned? && retry.PutRaised? ==> SentTotal(batch, first, retry) == |batch| - FailedCount(first)
    ensures batch != [] && first.PutReturned? && FailedCount(first) > 0 && first.records.None? ==>
      SentTotal(batch, first, retry) == |batch| - FailedCount(first)
    ensures batch != [] && first.PutReturned? && FailedCount(first) > 0 && first.records.Some? && RetryBatch(batch, first.records.value) == [] ==>
      SentTotal(batch, first, retry) == |batch| - FailedCount(first)
  {
  }

  /** The number of result entries carrying an ErrorCode. */
  function ErrorCount(entries: seq<PutResultEntry>): nat {
    |Present(Failed(entries, entries))|
  }

  /**
   * When the service's first reply is consistent (one entry per record and
   * FailedRecordCount equal to the entries carrying an ErrorCode), the retry
   * resends exactly the failed records, and a retry in which `stillFailing`
   * of them fail again leaves the count at `len(batch) - stillFailing`.
   */
  lemma ConsistentRetryCount(batch: seq<StreamRecord>, first: PutReply, retry: PutReply, stillFailing: nat)
    requires batch != [] && first.PutReturned? && first.records.Some?
    requires |first.records.value| == |batch| && FailedCount(first) == ErrorCount(first.records.value)
    requires retry.PutReturned? && FailedCount(retry) == stillFailing
    ensures |RetryBatch(batch, first.records.value)| == FailedCount(first)
    ensures SentTotal(batch, first, retry) == if FailedCount(first) > 0 then |batch| - stillFailing else |batch|
  {
    var entries := first.records.value;
    PresentSpec(Failed(batch, entries));
    PresentSpec(Failed(entries, entries));
    PresentAtShape(Failed(batch, entries), Failed(entries, entries));
  }

  /**
   * Twenty-five records make three batches of 10, 10 and 5; when the service
   * reports two failures in the first batch and both succeed on the retry,
   * that batch counts all ten records as sent.
   */
  lemma TwentyFiveRecords(records: seq<StreamRecord>, first: PutReply, retry: PutReply)
    requires |records| == 25
    requires first.PutReturned? && first.records.Some? && |first.records.value| == 10
    requires FailedCount(first) == 2 && ErrorCount(first.records.value) == 2
    requires retry.PutReturned? && FailedCount(retry) == 0
    ensures var batches := Chunks(records, MaxRecordsPerBatch);
      && |batches| == 3
      && batches[0] == records[..10] && batches[1] == records[10..20] && batches[2] == records[20..]
      && SentTotal(batches[0], first, retry) == 10
  {
    var batches := Chunks(records, MaxRecordsPerBatch);
    assert batches[0] == Chunk(records, MaxRecordsPerBatch, 0);
    assert batches[2] == Chunk(records, MaxRecordsPerBatch, 2);
    ConsistentRetryCount(records[..10], first, retry, 0);
  }

  /** Every request goes to the given stream and carries only records of the batch. */
  lemma {:induction false} RequestsWithinBatch(stream: string, batch: seq<StreamRecord>, first: PutReply)
    ensures forall c :: c in Requests(stream, batch, first) ==> c.stream == stream && forall x :: x in c.records ==> x in batch
  {
    if Retries(batch, first) {
      var entries := first.records.value;
      RetryBatchIsErrorSubsequence(batch, entries);
      forall x | x in RetryBatch(batch, entries)
        ensures x in batch
      {
        var j :| 0 <= j < |RetryBatch(batch, entries)| && RetryBatch(batch, entries)[j] == x;
      }
    }
  }

  // =====================================================================
  // main: the lockstep dual-stream loop
  // =====================================================================

  /** `xs[lo:hi]` for bounds `0 <= lo <= hi`, clipped to the sequence as Python does. */
  function Slice<T>(xs: seq<T>, lo: nat, hi: nat): (r: seq<T>)
    requires lo <= hi
  {
    xs[Min(lo, |xs|) .. Min(hi, |xs|)]
  }

  /** One cycle of the loop: the start batch sent, then the end batch sent. */
  datatype Cycle = Cycle(startBatch: seq<StreamRecord>, endBatch: seq<StreamRecord>)

  /**
   * The schedule of the loop: cycle `i` pairs the `i`-th start chunk with
   * `end_records[idx_batch : idx_batch + 10]`, where `idx_batch` is `10 * i`.
   */
  function Lockstep(start: seq<StreamRecord>, end: seq<StreamRecord>): (r: seq<Cycle>)
    ensures |r| == NumChunks(|start|, MaxRecordsPerBatch)
  {
    var chunks := Chunks(start, MaxRecordsPerBatch);
    seq(|chunks|, i requires 0 <= i < |chunks| =>
      Cycle(chunks[i], Slice(end, MaxRecordsPerBatch * i, MaxRecordsPerBatch * i + MaxRecordsPerBatch)))
  }

  lemma LockstepAt(start: seq<StreamRecord>, end: seq<StreamRecord>, i: nat)
    requires i < NumChunks(|start|, MaxRecordsPerBatch)
    ensures Lockstep(start, end)[i] ==
      Cycle(Chunks(start, MaxRecordsPerBatch)[i], Slice(end, MaxRecordsPerBatch * i, MaxRecordsPerBatch * i + MaxRecordsPerBatch))
  {
  }

  function StartBatches(cycles: seq<Cycle>): seq<seq<StreamRecord>> {
    seq(|cycles|, i requires 0 <= i < |cycles| => cycles[i].startBatch)
  }

  function EndBatches(cycles: seq<Cycle>): seq<seq<StreamRecord>> {
    seq(|cycles|, i requires 0 <= i < |cycles| => cycles[i].endBatch)
  }

  /** The start batches of the schedule, in order, are the whole start stream. */
  lemma LockstepSendsAllStarts(start: seq<StreamRecord>, end: seq<StreamRecord>)
    ensures Concat(StartBatches(Lockstep(start, end))) == start
  {
    assert StartBatches(Lockstep(start, end)) == Chunks(start, MaxRecordsPerBatch);
    ChunksConcat(start, MaxRecordsPerBatch);
  }

  /** The first `n` end slices of the loop, `end_records[10i : 10i + 10]` for `i < n`. */
  function EndSlices(end: seq<StreamRecord>, n: nat): (r: seq<seq<StreamRecord>>)
    ensures |r| == n
  {
    seq(n, i requires 0 <= i < n => Slice(end, MaxRecordsPerBatch * i, MaxRecordsPerBatch * i + MaxRecordsPerBatch))
  }

  /** The first `n` end slices, in order, are the end stream up to `10n`. */
  lemma {:induction false} EndSlicesConcat(end: seq<StreamRecord>, n: nat)
    ensures Concat(EndSlices(end, n)) == end[..Min(MaxRecordsPerBatch * n, |end|)]
  {
    var e := EndSlices(end, n);
    if n == 0 {
      assert end[..0] == [];
    } else {
      EndSlicesConcat(end, n - 1);
      assert e == e[..n - 1] + [e[n - 1]];
      assert e[..n - 1] == EndSlices(end, n - 1);
      ConcatAppend(e[..n - 1], e[n - 1]);
      var lo := Min(MaxRecordsPerBatch * (n - 1), |end|);
      var hi := Min(MaxRecordsPerBatch * n, |end|);
      assert e[n - 1] == end[lo..hi];
      assert end[..hi] == end[..lo] + end[lo..hi];
    }
  }

  /** The end batches of the first `k` cycles, in order, are the end stream up to `10 * k`. */
  lemma LockstepEndPrefix(start: seq<StreamRecord>, end: seq<StreamRecord>, k: nat)
    requires k <= |Lockstep(start, end)|
    ensures Concat(EndBatches(Lockstep(start, end))[..k]) == end[..Min(MaxRecordsPerBatch * k, |end|)]
  {
    var ends := EndBatches(Lockstep(start, end));
    assert ends[..k] == EndSlices(end, k) by {
      forall i | 0 <= i < k
        ensures ends[..k][i] == EndSlices(end, k)[i]
      {
        LockstepAt(start, end, i);
      }
    }
    EndSlicesConcat(end, k);
  }

  /**
   * The end batches of the whole schedule cover the end stream exactly up to
   * `10 * (number of start chunks)`: end records past it are never sent.
   * Cycle `i` has an empty end batch exactly when `10 * i` is past the end stream.
   */
  lemma LockstepEndCoverage(start: seq<StreamRecord>, end: seq<StreamRecord>)
    ensures Concat(EndBatches(Lockstep(start, end))) ==
            end[..Min(MaxRecordsPerBatch * NumChunks(|start|, MaxRecordsPerBatch), |end|)]
    ensures forall i :: 0 <= i < |Lockstep(start, end)| ==>
      (Lockstep(start, end)[i].endBatch == [] <==> MaxRecordsPerBatch * i >= |end|)
  {
    var ends := EndBatches(Lockstep(start, end));
    LockstepEndPrefix(start, end, |ends|);
    assert ends[..|ends|] == ends;
  }

  /** A cycle whose end slice is empty makes only the start batch's requests: the empty end batch causes no call. */
  lemma EmptyEndSliceSendsNothing(start: seq<StreamRecord>, end: seq<StreamRecord>, replyTo: nat -> PutReply, k: nat, i: nat)
    requires i < |Lockstep(start, end)| && MaxRecordsPerBatch * i >= |end|
    ensures CycleStep(Lockstep(start, end)[i], replyTo, k) ==
      Requests(StartTripStream, Lockstep(start, end)[i].startBatch, replyTo(k))
  {
    LockstepEndCoverage(start, end);
  }

  /** The requests one cycle issues: the start batch's, then the end batch's. */
  function CycleStep(c: Cycle, replyTo: nat -> PutReply, k: nat): seq<PutCall> {
    var s := Requests(StartTripStream, c.startBatch, replyTo(k));
    s + Requests(EndTripStream, c.endBatch, replyTo(k + |s|))
  }

  /** The requests the loop issues for the given cycles, when the client has already answered `k` requests. */
  function CycleRequests(cycles: seq<Cycle>, replyTo: nat -> PutReply, k: nat): seq<PutCall> {
    if cycles == [] then []
    else
      var before := CycleRequests(cycles[..|cycles| - 1], replyTo, k);
      before + CycleStep(cycles[|cycles| - 1], replyTo, k + |before|)
  }

  /** One more cycle of the loop appends that cycle's requests. */
  lemma CycleRequestsStep(cycles: seq<Cycle>, i: nat, replyTo: nat -> PutReply, k: nat,
                          sent: seq<PutCall>, step: seq<PutCall>)
    requires i < |cycles|
    requires sent == CycleRequests(cycles[..i], replyTo, k)
    requires step == CycleStep(cycles[i], replyTo, k + |sent|)
    ensures CycleRequests(cycles[..i + 1], replyTo, k) == sent + step
  {
    assert cycles[..i + 1][..i] == cycles[..i];
  }

  /** A request to the start stream carrying only `starts` records, or to the end stream carrying only `ends` records. */
  predicate StaysWithin(r: PutCall, starts: seq<StreamRecord>, ends: seq<StreamRecord>) {
    || (r.stream == StartTripStream && forall x :: x in r.records ==> x in starts)
    || (r.stream == EndTripStream && forall x :: x in r.records ==> x in ends)
  }

  /** A cycle whose batches come from `starts` and `ends` sends start records to the start stream and end records to the end stream. */
  lemma CycleStepWithin(c: Cycle, replyTo: nat -> PutReply, k: nat, starts: seq<StreamRecord>, ends: seq<StreamRecord>)
    requires forall x :: x in c.startBatch ==> x in starts
    requires forall x :: x in c.endBatch ==> x in ends
    ensures forall r :: r in CycleStep(c, replyTo, k) ==>
      StaysWithin(r, starts, ends)
  {
    var s := Requests(StartTripStream, c.startBatch, replyTo(k));
    RequestsWithinBatch(StartTripStream, c.startBatch, replyTo(k));
    RequestsWithinBatch(EndTripStream, c.endBatch, replyTo(k + |s|));
  }

  /** If every cycle draws its batches from `starts` and `ends`, so does every request, stream by stream. */
  lemma {:induction false} CycleRequestsWithin(cycles: seq<Cycle>, replyTo: nat -> PutReply, k: nat,
                                               starts: seq<StreamRecord>, ends: seq<StreamRecord>)
    requires forall i, x :: 0 <= i < |cycles| && x in cycles[i].startBatch ==> x in starts
    requires forall i, x :: 0 <= i < |cycles| && x in cycles[i].endBatch ==> x in ends
    ensures forall r :: r in CycleRequests(cycles, replyTo, k) ==>
      StaysWithin(r, starts, ends)
  {
    if cycles != [] {
      var init := cycles[..|cycles| - 1];
      CycleRequestsWithin(init, replyTo, k, starts, ends);
      var before := CycleRequests(init, replyTo, k);
      var last := cycles[|cycles| - 1];
      var step := CycleStep(last, replyTo, k + |before|);
      CycleStepWithin(last, replyTo, k + |before|, starts, ends);
      assert CycleRequests(cycles, replyTo, k) == before + step;
      forall r: PutCall | r in before + step
        ensures StaysWithin(r, starts, ends)
      {
        if r !in before {
          assert r in step;
        }
      }
    }
  }

  /**
   * Every request the loop makes goes to one of the two streams; start-stream
   * requests carry start records only, and end-stream requests carry only end
   * records placed before `10 * (number of start chunks)`.
   */
  lemma SimulationSendsWithinSchedule(start: seq<StreamRecord>, end: seq<StreamRecord>, replyTo: nat -> PutReply, k: nat)
    ensures var bound := Min(MaxRecordsPerBatch * NumChunks(|start|, MaxRecordsPerBatch), |end|);
      forall c :: c in CycleRequests(Lockstep(start, end), replyTo, k) ==> StaysWithin(c, start, end[..bound])
  {
    var cycles := Lockstep(start, end);
    var bound := Min(MaxRecordsPerBatch * NumChunks(|start|, MaxRecordsPerBatch), |end|);
    forall i, x | 0 <= i < |cycles| && x in cycles[i].startBatch
      ensures x in start
    {
      ChunkStartBounds(|start|, MaxRecordsPerBatch, i);
    }
    forall i, x | 0 <= i < |cycles| && x in cycles[i].endBatch
      ensures x in end[..bound]
    {
      ChunkStartBounds(|start|, MaxRecordsPerBatch, i);
      assert MaxRecordsPerBatch * i + MaxRecordsPerBatch <= MaxRecordsPerBatch * NumChunks(|start|, MaxRecordsPerBatch);
    }
    CycleRequestsWithin(cycles, replyTo, k, start, end[..bound]);
  }

  /**
   * The body of one cycle of `main`'s loop: send the start batch, then the
   * end batch (the randomised pause between them is left out).
   */
  method SendCycle(client: StreamClient, startBatch: seq<StreamRecord>, endBatch: seq<StreamRecord>)
    modifies client
    ensures client.calls == old(client.calls) + CycleStep(Cycle(startBatch, endBatch), client.replyTo, |old(client.calls)|)
  {
    var sentStartTripCount := SendBatchToKinesis(client, startBatch, StartTripStream);
    ghost var middle := client.calls;
    var sentEndTripCount := SendBatchToKinesis(client, endBatch, EndTripStream);
    AppendAssoc(old(client.calls), middle[|old(client.calls)|..], client.calls[|middle|..]);
  }

  /** The event simulation of `main`, from the records it builds on; pauses and logging are left out. */
  method Simulate(client: StreamClient, startRecords: seq<StreamRecord>, endRecords: seq<StreamRecord>)
    modifies client
    ensures client.calls == old(client.calls) + CycleRequests(Lockstep(startRecords, endRecords), client.replyTo, |old(client.calls)|)
  {
    ghost var cycles := Lockstep(startRecords, endRecords);
    ghost var k := |client.calls|;
    var countBatch := 0;
    var idxBatch := 0;
    var chunks := Chunks(startRecords, MaxRecordsPerBatch);
    ghost var sent: seq<PutCall> := [];
    for i := 0 to |chunks|
      invariant countBatch == i && idxBatch == MaxRecordsPerBatch * i
      invariant sent == CycleRequests(cycles[..i], client.replyTo, k)
      invariant client.calls == old(client.calls) + sent
    {
      var startBatch := chunks[i];
      countBatch := countBatch + 1;
      var endBatch := Slice(endRecords, idxBatch, idxBatch + MaxRecordsPerBatch);
      LockstepAt(startRecords, endRecords, i);
      ghost var before := client.calls;
      SendCycle(client, startBatch, endBatch);
      ghost var step := CycleStep(Cycle(startBatch, endBatch), client.replyTo, |before|);
      idxBatch := idxBatch + MaxRecordsPerBatch;
      assert |before| == k + |sent|;
      CycleRequestsStep(cycles, i, client.replyTo, k, sent, step);
      AppendAssoc(old(client.calls), sent, step);
      sent := sent + step;
    }
    assert cycles[..|chunks|] == cycles;
  }
}
