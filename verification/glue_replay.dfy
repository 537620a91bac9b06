/**
 * GlueReplay: the dead-letter replay job of `src/glue/taxi_trip_glue_replay.py`.
 *
 * Failed trip records wait in a dead-letter queue. The job polls the queue,
 * and for each message tries to enrich the existing trip row in the trips
 * table with the record's fields; a message is deleted only when the table
 * confirms the update.
 *
 * The table is a `Table` object holding its items and a log of the requests
 * it received; whether a request raises, and what an update returns, is
 * fixed by a `Service` oracle. The queue is a `Dlq` object that answers its
 * polls from a given script and logs the receive and delete requests.
 */
module GlueReplay {
  import opened Rows

  const TripIdKey := "trip_id"
  const ReturnUpdatedNew := "UPDATED_NEW"
  const MaxNumberOfMessages: nat := 10
  const WaitTimeSeconds: nat := 5

  // =====================================================================
  // update_trip_details: the update fields and the SET expression
  // =====================================================================

  /** `{k: v for k, v in data_item.items() if k != "trip_id"}`, in the record's key order. */
  function UpdateFields(record: Row): (r: Row)
    ensures forall f :: f in r <==> f in record && f.key != TripIdKey
  {
    if record == [] then []
    else (if record[0].key == TripIdKey then [] else [record[0]]) + UpdateFields(record[1..])
  }

  /** The filter works field by field: filtering a concatenation concatenates the filtered parts, so the order is kept. */
  lemma {:induction false} UpdateFieldsAppend(a: Row, b: Row)
    ensures UpdateFields(a + b) == UpdateFields(a) + UpdateFields(b)
  {
    if a == [] {
      assert a + b == b;
    } else {
      assert (a + b)[0] == a[0] && (a + b)[1..] == a[1..] + b;
      UpdateFieldsAppend(a[1..], b);
    }
  }

  /** `{f"#{k}": k for k in update_fields}`: later keys overwrite earlier ones, as in a dict comprehension. */
  function NameMap(fields: Row): map<string, string> {
    if fields == [] then map[]
    else
      var last := fields[|fields| - 1];
      NameMap(fields[..|fields| - 1])["#" + last.key := last.key]
  }

  /** `{prefix + k: v for k, v in fields}`: with prefix ":" the attribute values, with "" the fields as a dict. */
  function Prefixed(prefix: string, fields: Row): map<string, Value> {
    if fields == [] then map[]
    else
      var last := fields[|fields| - 1];
      Prefixed(prefix, fields[..|fields| - 1])[prefix + last.key := last.val]
  }

  function ValueMap(fields: Row): map<string, Value> {
    Prefixed(":", fields)
  }

  /** Each field key `k` has the name placeholder `#k`, which stands for `k`; there are no other placeholders. */
  lemma {:induction false} NameMapSpec(fields: Row)
    ensures forall f :: f in fields ==> "#" + f.key in NameMap(fields) && NameMap(fields)["#" + f.key] == f.key
    ensures forall n :: n in NameMap(fields) ==> exists f :: f in fields && n == "#" + f.key
  {
    if fields != [] {
      var init, last := fields[..|fields| - 1], fields[|fields| - 1];
      NameMapSpec(init);
      forall f | f in fields
        ensures "#" + f.key in NameMap(fields) && NameMap(fields)["#" + f.key] == f.key
      {
        if f != last {
          assert f in init;
          PrefixInjective("#", f.key, last.key);
        }
      }
      forall n | n in NameMap(fields)
        ensures exists f :: f in fields && n == "#" + f.key
      {
        if n != "#" + last.key {
          var f :| f in init && n == "#" + f.key;
          assert f in fields;
        }
      }
    }
  }

  /** The keys of a row. */
  function KeysOf(fields: Row): set<string> {
    set f | f in fields :: f.key
  }

  /** No two fields share a key with different values: true of any dict. */
  predicate KeysDetermine(fields: Row) {
    forall f, g :: f in fields && g in fields && f.key == g.key ==> f == g
  }

  lemma DictKeysDetermine(row: Row)
    requires IsDict(row)
    ensures KeysDetermine(row)
  {
    forall f, g | f in row && g in row && f.key == g.key
      ensures f == g
    {
      var i :| 0 <= i < |row| && row[i] == f;
      var j :| 0 <= j < |row| && row[j] == g;
      assert i == j;
    }
  }

  lemma PrefixInjective(prefix: string, a: string, b: string)
    ensures prefix + a == prefix + b ==> a == b
  {
    assert (prefix + a)[|prefix|..] == a && (prefix + b)[|prefix|..] == b;
  }

  /**
   * Each field `k: v` gives the entry `prefix + k: v`, and there are no
   * other entries (the value part needs the keys to be those of a dict).
   */
  lemma {:induction false} PrefixedSpec(prefix: string, fields: Row)
    ensures forall f :: f in fields ==> prefix + f.key in Prefixed(prefix, fields)
    ensures forall n :: n in Prefixed(prefix, fields) ==> exists f :: f in fields && n == prefix + f.key
    ensures KeysDetermine(fields) ==> forall f :: f in fields ==> Prefixed(prefix, fields)[prefix + f.key] == f.val
  {
    if fields != [] {
      var init, last := fields[..|fields| - 1], fields[|fields| - 1];
      PrefixedSpec(prefix, init);
      var m := Prefixed(prefix, fields);
      forall f | f in fields
        ensures prefix + f.key in m
        ensures KeysDetermine(fields) ==> m[prefix + f.key] == f.val
      {
        if f != last {
          assert f in init;
          PrefixInjective(prefix, f.key, last.key);
        }
      }
      forall n | n in m
        ensures exists f :: f in fields && n == prefix + f.key
      {
        if n != prefix + last.key {
          var f :| f in init && n == prefix + f.key;
          assert f in fields;
        }
      }
    }
  }

  /** `f"#{k} = :{k}"`: set attribute `k` to the value of its placeholder. */
  function SetClause(k: string): string {
    "#" + k + " = :" + k
  }

  function SetClauses(fields: Row): (r: seq<string>)
    ensures |r| == |fields|
  {
    seq(|fields|, i requires 0 <= i < |fields| => SetClause(fields[i].key))
  }

  /** `sep.join(parts)`. */
  function Join(sep: string, parts: seq<string>): string {
    if parts == [] then ""
    else if |parts| == 1 then parts[0]
    else parts[0] + sep + Join(sep, parts[1..])
  }

  /** `"SET " + ", ".join(...)` over the update fields. */
  function UpdateExpression(fields: Row): string {
    "SET " + Join(", ", SetClauses(fields))
  }

  /** `s.split(c)`: the pieces between occurrences of `c`, always at least one. */
  function Split(s: string, c: char): (r: seq<string>)
    ensures |r| > 0
  {
    if s == [] then [""]
    else
      var rest := Split(s[1..], c);
      if s[0] == c then [""] + rest else [[s[0]] + rest[0]] + rest[1..]
  }

  lemma {:induction false} SplitWithoutSeparator(s: string, c: char)
    requires c !in s
    ensures Split(s, c) == [s]
  {
    if s != [] {
      assert s[0] != c && c !in s[1..];
      SplitWithoutSeparator(s[1..], c);
      assert [s[0]] + s[1..] == s;
    }
  }

  lemma {:induction false} SplitAtFirst(a: string, c: char, rest: string)
    requires c !in a
    ensures Split(a + [c] + rest, c) == [a] + Split(rest, c)
  {
    var s := a + [c] + rest;
    if a == [] {
      assert s[1..] == rest;
    } else {
      assert s[0] == a[0] && s[1..] == a[1..] + [c] + rest;
      SplitAtFirst(a[1..], c, rest);
      assert [a[0]] + a[1..] == a;
    }
  }

  /**
   * Splitting `p + sep.join(parts)` on the first character `c` of `sep`
   * gives the parts back, each but the first behind the rest of `sep`,
   * when no part (and not `p`, nor the rest of `sep`) contains `c`.
   */
  lemma {:induction false} SplitJoin(p: string, c: char, t: string, parts: seq<string>)
    requires |parts| > 0 && c !in p && c !in t
    requires forall i :: 0 <= i < |parts| ==> c !in parts[i]
    decreases |parts|
    ensures Split(p + Join([c] + t, parts), c) ==
      [p + parts[0]] + seq(|parts| - 1, i requires 0 <= i < |parts| - 1 => t + parts[i + 1])
  {
    var sep := [c] + t;
    if |parts| == 1 {
      SplitWithoutSeparator(p + parts[0], c);
    } else {
      var tail := parts[1..];
      assert p + Join(sep, parts) == (p + parts[0]) + [c] + (t + Join(sep, tail));
      SplitAtFirst(p + parts[0], c, t + Join(sep, tail));
      SplitJoin(t, c, t, tail);
      assert [t + tail[0]] + seq(|tail| - 1, i requires 0 <= i < |tail| - 1 => t + tail[i + 1])
          == seq(|parts| - 1, i requires 0 <= i < |parts| - 1 => t + parts[i + 1]);
    }
  }

  /**
   * The expression reads back: it starts with "SET ", and splitting the
   * rest on commas gives the clause `#k = :k` of each update field in
   * order, each after the first behind one space, as long as no key
   * contains a comma.
   */
  lemma ExpressionReadBack(fields: Row)
    requires fields != []
    requires forall f :: f in fields ==> ',' !in f.key
    ensures UpdateExpression(fields)[..4] == "SET "
    ensures Split(UpdateExpression(fields)[4..], ',') ==
      seq(|fields|, i requires 0 <= i < |fields| => (if i == 0 then "" else " ") + SetClause(fields[i].key))
  {
    var clauses := SetClauses(fields);
    forall i | 0 <= i < |clauses|
      ensures ',' !in clauses[i]
    {
      assert fields[i] in fields;
    }
    assert ", " == [','] + " ";
    assert UpdateExpression(fields)[4..] == Join(", ", clauses) == "" + Join(", ", clauses);
    SplitJoin("", ',', " ", clauses);
    var split := [("" + clauses[0])] + seq(|clauses| - 1, i requires 0 <= i < |clauses| - 1 => " " + clauses[i + 1]);
    var want := seq(|fields|, i requires 0 <= i < |fields| => (if i == 0 then "" else " ") + SetClause(fields[i].key));
    assert split == want by {
      forall i | 0 <= i < |fields|
        ensures split[i] == want[i]
      {
        if i > 0 {
          assert split[i] == " " + clauses[i];
        }
      }
    }
  }

  // =====================================================================
  // update_trip_details: the table requests and the decision
  // =====================================================================

  /** The keyword arguments of `table.update_item`; `Key={"trip_id": trip_id}` is kept as the key value. */
  datatype UpdateRequest = UpdateRequest(key: Value, expression: string, names: map<string, string>,
                                         values: map<string, Value>, returnValues: string)

  function BuildUpdate(tripId: Value, fields: Row): UpdateRequest {
    UpdateRequest(tripId, UpdateExpression(fields), NameMap(fields), ValueMap(fields), ReturnUpdatedNew)
  }

  /** The attributes an update request sets: each named attribute `k` to the value of its placeholder `:k`. */
  function Assigned(req: UpdateRequest): map<string, Value> {
    map k | k in req.names.Values && ":" + k in req.values :: req.values[":" + k]
  }

  /** The update fields as a dict. */
  function FieldMap(fields: Row): map<string, Value> {
    if fields == [] then map[]
    else
      var last := fields[|fields| - 1];
      FieldMap(fields[..|fields| - 1])[last.key := last.val]
  }

  /** The dict of dict fields holds each field's value under its key, and nothing else. */
  lemma {:induction false} FieldMapSpec(fields: Row)
    ensures FieldMap(fields).Keys == KeysOf(fields)
    ensures KeysDetermine(fields) ==> forall f :: f in fields ==> FieldMap(fields)[f.key] == f.val
  {
    if fields != [] {
      var init, last := fields[..|fields| - 1], fields[|fields| - 1];
      FieldMapSpec(init);
      assert KeysOf(fields) == KeysOf(init) + {last.key} by {
        assert fields == init + [last];
      }
      forall f | f in fields
        ensures KeysDetermine(fields) ==> FieldMap(fields)[f.key] == f.val
      {
        if f != last {
          assert f in init;
        }
      }
    }
  }

  /**
   * The placeholders of the request built from a record name exactly its
   * fields other than trip_id, with the record's values; trip_id itself has
   * no placeholder and no SET clause, so it appears only in `Key`.
   */
  lemma PlaceholdersMatchRecord(tripId: Value, record: Dict)
    ensures var req := BuildUpdate(tripId, UpdateFields(record));
      && (forall f :: f in record && f.key != TripIdKey ==>
            && "#" + f.key in req.names && req.names["#" + f.key] == f.key
            && ":" + f.key in req.values && req.values[":" + f.key] == f.val)
      && (forall n :: n in req.names ==> exists f :: f in record && f.key != TripIdKey && n == "#" + f.key)
      && (forall n :: n in req.values ==> exists f :: f in record && f.key != TripIdKey && n == ":" + f.key)
      && "#" + TripIdKey !in req.names && ":" + TripIdKey !in req.values
      && SetClause(TripIdKey) !in SetClauses(UpdateFields(record))
      && req.key == tripId && req.returnValues == ReturnUpdatedNew
  {
    var fields := UpdateFields(record);
    DictKeysDetermine(record);
    NameMapSpec(fields);
    PrefixedSpec(":", fields);
    NoTripIdPlaceholder(record);
    NoTripIdClause(record);
  }

  /** trip_id has neither a name nor a value placeholder. */
  lemma NoTripIdPlaceholder(record: Row)
    ensures "#" + TripIdKey !in NameMap(UpdateFields(record))
    ensures ":" + TripIdKey !in Prefixed(":", UpdateFields(record))
  {
    var fields := UpdateFields(record);
    NameMapSpec(fields);
    PrefixedSpec(":", fields);
    forall f | f in fields
      ensures "#" + f.key != "#" + TripIdKey && ":" + f.key != ":" + TripIdKey
    {
      PrefixInjective("#", f.key, TripIdKey);
      PrefixInjective(":", f.key, TripIdKey);
    }
  }

  /** The expression has no clause for trip_id. */
  lemma NoTripIdClause(record: Row)
    ensures SetClause(TripIdKey) !in SetClauses(UpdateFields(record))
  {
    var fields := UpdateFields(record);
    forall i | 0 <= i < |fields|
      ensures SetClauses(fields)[i] != SetClause(TripIdKey)
    {
      assert fields[i] in fields;
      ClauseInjective(fields[i].key, TripIdKey);
    }
  }

  lemma ClauseInjective(a: string, b: string)
    ensures SetClause(a) == SetClause(b) ==> a == b
  {
    if SetClause(a) == SetClause(b) {
      assert |a| == |b| by {
        assert |SetClause(a)| == 2 * |a| + 5 && |SetClause(b)| == 2 * |b| + 5;
      }
      assert a == SetClause(a)[1..|a| + 1];
    }
  }

  /** The update built from dict fields sets exactly those fields to their values. */
  lemma AssignedBuildUpdate(tripId: Value, fields: Row)
    requires KeysDetermine(fields)
    ensures Assigned(BuildUpdate(tripId, fields)) == FieldMap(fields)
  {
    var req := BuildUpdate(tripId, fields);
    var m, sets := FieldMap(fields), Assigned(req);
    forall k | k in m
      ensures k in sets && sets[k] == m[k]
    {
      FieldMapSpec(fields);
      var f :| f in fields && k == f.key;
      NameMapSpec(fields);
      PrefixedSpec(":", fields);
      assert req.names["#" + f.key] == k;
    }
    forall k | k in sets
      ensures k in m
    {
      NameMapSpec(fields);
      var n :| n in req.names && req.names[n] == k;
      var f :| f in fields && n == "#" + f.key;
      FieldMapSpec(fields);
      assert f.key == k;
    }
    assert sets.Keys == m.Keys;
  }

  /** The trips table: items by trip_id, each a dict of attributes. */
  type Items = map<Value, map<string, Value>>

  datatype TableCall = GetCall(key: Value) | UpdateCall(request: UpdateRequest)

  /** What `update_item` does: raise, or return a response with or without an `Attributes` entry. */
  datatype UpdateReply = UpdateRaised | UpdateReturned(attributes: Option<map<string, Value>>)

  /**
   * What boto3's serializer refuses: a Python float, NaN included. It raises
   * TypeError on the client before a request is sent; `Decimal` is the
   * number type it accepts.
   */
  predicate Unserializable(v: Value) {
    v.Float? || v.NaN?
  }

  /** Every value of the row can be sent to the table. */
  predicate Serializable(row: Row) {
    forall f :: f in row ==> !Unserializable(f.val)
  }

  /** Whether boto3 can serialize the request's key and values. */
  predicate Sendable(req: UpdateRequest) {
    !Unserializable(req.key) && forall n :: n in req.values ==> !Unserializable(req.values[n])
  }

  /** The update built from a record whose values can all be sent can be sent. */
  lemma SerializableRecordSendable(tripId: Value, record: Dict)
    requires Serializable(record) && !Unserializable(tripId)
    ensures Sendable(BuildUpdate(tripId, UpdateFields(record)))
  {
    var fields := UpdateFields(record);
    var values := BuildUpdate(tripId, fields).values;
    DictKeysDetermine(record);
    PrefixedSpec(":", fields);
    forall n | n in values
      ensures !Unserializable(values[n])
    {
      var f :| f in fields && n == ":" + f.key;
    }
  }

  /** An update field holding a float makes the update unsendable. */
  lemma FloatFieldUnsendable(tripId: Value, record: Dict, f: Field)
    requires f in UpdateFields(record) && Unserializable(f.val)
    ensures !Sendable(BuildUpdate(tripId, UpdateFields(record)))
  {
    var fields := UpdateFields(record);
    DictKeysDetermine(record);
    PrefixedSpec(":", fields);
    assert BuildUpdate(tripId, fields).values[":" + f.key] == f.val;
  }

  /**
   * The table service's behaviour: the keys for which `get_item` raises,
   * and the reply to each update request that boto3 lets through.
   */
  datatype Service = Service(getRaises: set<Value>, updateReply: UpdateRequest -> UpdateReply) {
    /** Whether `get_item` raises for this key: the key cannot be serialized, or the service fails. */
    predicate GetRaises(key: Value) {
      Unserializable(key) || key in getRaises
    }

    /** What `update_item` does with the request: a request boto3 cannot serialize raises; otherwise the service answers. */
    function Reply(req: UpdateRequest): UpdateReply {
      if Sendable(req) then updateReply(req) else UpdateRaised
    }
  }

  datatype Outcome<T> = Returned(value: T) | Raised

  /**
   * The items after an update that returned: the named attributes are set
   * on the item and its other attributes kept; DynamoDB would create an
   * absent item.
   */
  function Applied(items: Items, req: UpdateRequest): (r: Items)
    ensures r.Keys == items.Keys + {req.key}
    ensures forall k :: k in items && k != req.key ==> r[k] == items[k]
  {
    var item := if req.key in items then items[req.key] else map[TripIdKey := req.key];
    items[req.key := item + Assigned(req)]
  }

  /** One call of `update_trip_details`: its outcome, the table requests it made, and the items after. */
  datatype Attempt = Attempt(outcome: Outcome<bool>, calls: seq<TableCall>, items: Items)

  /** Whether the table's reply to an update counts as success: an `Attributes` entry that is not empty. */
  predicate Confirmed(reply: UpdateReply) {
    reply.UpdateReturned? && reply.attributes.Some? && reply.attributes.value != map[]
  }

  /** `update_trip_details(record, table)` against the given items. */
  function TripUpdate(record: Row, items: Items, service: Service): (r: Attempt)
    ensures Lookup(record, TripIdKey).None? ==> r == Attempt(Returned(false), [], items)
    ensures r.items.Keys == items.Keys
    ensures Lookup(record, TripIdKey).Some? ==> r.calls != [] && r.calls[0] == GetCall(Lookup(record, TripIdKey).value)
    ensures |r.calls| <= 2
    ensures |r.calls| == 2 <==>
      && Lookup(record, TripIdKey).Some?
      && !service.GetRaises(Lookup(record, TripIdKey).value)
      && Lookup(record, TripIdKey).value in items
      && UpdateFields(record) != []
    ensures |r.calls| == 2 ==> r.calls[1] == UpdateCall(BuildUpdate(Lookup(record, TripIdKey).value, UpdateFields(record)))
    ensures r.outcome == Returned(true) <==> |r.calls| == 2 && Confirmed(service.Reply(r.calls[1].request))
    ensures r.outcome == Raised <==>
      || (Lookup(record, TripIdKey).Some? && service.GetRaises(Lookup(record, TripIdKey).value))
      || (|r.calls| == 2 && service.Reply(r.calls[1].request) == UpdateRaised)
    ensures |r.calls| < 2 ==> r.items == items
  {
    match Lookup(record, TripIdKey)
    case None => Attempt(Returned(false), [], items)
    case Some(tripId) =>
      var get := [GetCall(tripId)];
      if service.GetRaises(tripId) then Attempt(Raised, get, items)
      else if tripId !in items then Attempt(Returned(false), get, items)
      else
        var fields := UpdateFields(record);
        if fields == [] then Attempt(Returned(false), get, items)
        else
          var req := BuildUpdate(tripId, fields);
          var calls := get + [UpdateCall(req)];
          match service.Reply(req)
          case UpdateRaised => Attempt(Raised, calls, items)
          case reply =>
            Attempt(Returned(Confirmed(reply)), calls, Applied(items, req))
  }

  /**
   * The table changes exactly when the update request is sent and the
   * service answers it: then every field of the record other than trip_id
   * is set on the record's item, whose other attributes are kept, and no
   * other item changes. Otherwise the items are as they were.
   */
  lemma TripUpdateSetsRecordFields(record: Dict, items: Items, service: Service)
    ensures var r := TripUpdate(record, items, service);
      var tripId := Lookup(record, TripIdKey).GetOr(Null);
      && (forall k :: k in items && k != tripId ==> r.items[k] == items[k])
      && r.items == if |r.calls| == 2 && service.Reply(r.calls[1].request).UpdateReturned?
                    then items[tripId := items[tripId] + FieldMap(UpdateFields(record))]
                    else items
  {
    var r := TripUpdate(record, items, service);
    if |r.calls| == 2 {
      var tripId := Lookup(record, TripIdKey).value;
      var fields := UpdateFields(record);
      DictKeysDetermine(record);
      assert KeysDetermine(fields);
      AssignedBuildUpdate(tripId, fields);
    }
  }

  /** The trips table: its items, the requests it received, and how it answers them. */
  class Table {
    var items: Items
    var calls: seq<TableCall>
    const service: Service

    constructor(items0: Items, service: Service)
      ensures items == items0 && calls == [] && this.service == service
    {
      items := items0;
      calls := [];
      this.service := service;
    }

    /** `get_item(Key={"trip_id": key})`: the item, if present, unless the call raises. */
    method GetItem(key: Value) returns (r: Outcome<Option<map<string, Value>>>)
      modifies this
      ensures calls == old(calls) + [GetCall(key)] && items == old(items)
      ensures r == if service.GetRaises(key) then Raised
                   else Returned(if key in items then Some(items[key]) else None)
    {
      calls := calls + [GetCall(key)];
      if service.GetRaises(key) {
        return Raised;
      }
      r := Returned(if key in items then Some(items[key]) else None);
    }

    /** `update_item(...)`: the reply to the request; the update is applied when the call returns. */
    method UpdateItem(req: UpdateRequest) returns (reply: UpdateReply)
      modifies this
      ensures calls == old(calls) + [UpdateCall(req)]
      ensures reply == service.Reply(req)
      ensures items == if reply.UpdateReturned? then Applied(old(items), req) else old(items)
    {
      calls := calls + [UpdateCall(req)];
      reply := service.Reply(req);
      if reply.UpdateReturned? {
        items := Applied(items, req);
      }
    }

    /** `update_trip_details(record, self)`; `Raised` stands for an exception it lets escape. */
    method UpdateTripDetails(record: Row) returns (updated: Outcome<bool>)
      modifies this
      ensures var a := TripUpdate(record, old(items), service);
        updated == a.outcome && items == a.items && calls == old(calls) + a.calls
    {
      var tripIdField := Lookup(record, TripIdKey);
      if tripIdField.None? {
        return Returned(false);
      }
      var tripId := tripIdField.value;
      var response := GetItem(tripId);
      if response.Raised? {
        return Raised;
      }
      if response.value.None? {
        return Returned(false);
      }
      var updateFields := UpdateFields(record);
      if updateFields == [] {
        return Returned(false);
      }
      var req := BuildUpdate(tripId, updateFields);
      var updateResponse := UpdateItem(req);
      if updateResponse.UpdateRaised? {
        return Raised;
      }
      updated := Returned(Confirmed(updateResponse));
    }
  }

  // =====================================================================
  // replay_failed_trips
  // =====================================================================

  /**
   * A message body as `json.loads(msg['Body'])['record']` reads it: a body
   * that does not parse or has no "record" entry, a record that is not a
   * dict, or a dict record.
   */
  datatype Body = Unreadable | NotADict | DictRecord(record: Dict)

  datatype Message = Message(body: Body, receipt: string)

  datatype ReceiveCall = ReceiveCall(maxMessages: nat, waitSeconds: nat)

  /**
   * What one `receive_message` call gives: the messages of
   * `response.get('Messages', [])`, or an exception, which nothing catches.
   */
  datatype PollReply = Received(messages: seq<Message>) | ReceiveRaised

  /** The first `n` values of `xs`, or all of them. */
  function Take<T>(xs: seq<T>, n: nat): (r: seq<T>)
    ensures |r| <= n && r <= xs
    ensures r == [] <==> xs == [] || n == 0
  {
    if |xs| <= n then xs else xs[..n]
  }

  /** A reply as a poll asking for at most `maxMessages` receives it. */
  function Cut(reply: PollReply, maxMessages: nat): (r: PollReply)
    ensures r.ReceiveRaised? <==> reply.ReceiveRaised?
    ensures r.Received? ==> |r.messages| <= maxMessages && r.messages <= reply.messages
  {
    match reply
    case Received(messages) => Received(Take(messages, maxMessages))
    case ReceiveRaised => ReceiveRaised
  }

  /** The answer to the next poll when the queue will answer `polls`; an exhausted script answers with no message. */
  function NextPoll(polls: seq<PollReply>, maxMessages: nat): PollReply {
    if polls == [] then Received([]) else Cut(polls[0], maxMessages)
  }

  /** The script still unanswered after `n` polls. */
  function Remaining(polls: seq<PollReply>, n: nat): seq<PollReply> {
    if n <= |polls| then polls[n..] else []
  }

  /**
   * The dead-letter queue: the answers its next polls will give, and the
   * receive and delete requests it has received.
   */
  class Dlq {
    var polls: seq<PollReply>
    var receives: seq<ReceiveCall>
    var deletes: seq<string>
    const deleteRaises: set<string>

    constructor(polls0: seq<PollReply>, deleteRaises: set<string>)
      ensures polls == polls0 && receives == [] && deletes == [] && this.deleteRaises == deleteRaises
    {
      polls := polls0;
      receives := [];
      deletes := [];
      this.deleteRaises := deleteRaises;
    }

    /** `receive_message(...)`: the next scripted answer, cut to `maxMessages`; an exhausted script answers with no message. */
    method ReceiveMessage(maxMessages: nat, waitSeconds: nat) returns (reply: PollReply)
      modifies this
      ensures receives == old(receives) + [ReceiveCall(maxMessages, waitSeconds)] && deletes == old(deletes)
      ensures reply == NextPoll(old(polls), maxMessages)
      ensures polls == Remaining(old(polls), 1)
    {
      receives := receives + [ReceiveCall(maxMessages, waitSeconds)];
      reply := NextPoll(polls, maxMessages);
      if polls != [] {
        polls := polls[1..];
      }
    }

    /** `delete_message(ReceiptHandle=receipt)`: recorded; it raises for the receipts in `deleteRaises`. */
    method DeleteMessage(receipt: string) returns (raised: bool)
      modifies this
      ensures deletes == old(deletes) + [receipt] && receives == old(receives) && polls == old(polls)
      ensures raised == (receipt in deleteRaises)
    {
      deletes := deletes + [receipt];
      raised := receipt in deleteRaises;
    }
  }

  /** What the run has done to the outside world so far. */
  datatype World = World(items: Items, tableCalls: seq<TableCall>, deletes: seq<string>)

  /** The world after some messages, and whether an exception escaped the run. */
  datatype Progress = Progress(world: World, aborted: bool)

  /**
   * One iteration of the `for msg in messages` loop. An unreadable body
   * raises outside the `try` and ends the run; a record that is not a dict
   * raises inside it and is only logged; otherwise the message is deleted
   * exactly when `update_trip_details` returns True (a raising delete is
   * caught after the request was made).
   */
  function HandleMessage(w: World, m: Message, service: Service): (r: Progress)
    ensures r.aborted <==> m.body.Unreadable?
    ensures r.world.items.Keys == w.items.Keys
    ensures r.world.deletes == w.deletes + [m.receipt] <==>
      m.body.DictRecord? && TripUpdate(m.body.record, w.items, service).outcome == Returned(true)
    ensures r.world.deletes == w.deletes || r.world.deletes == w.deletes + [m.receipt]
    ensures !m.body.DictRecord? ==> r.world == w
    ensures m.body.DictRecord? ==>
      var a := TripUpdate(m.body.record, w.items, service);
      r.world.items == a.items && r.world.tableCalls == w.tableCalls + a.calls
  {
    match m.body
    case Unreadable => Progress(w, true)
    case NotADict => Progress(w, false)
    case DictRecord(record) =>
      var a := TripUpdate(record, w.items, service);
      var deletes := if a.outcome == Returned(true) then w.deletes + [m.receipt] else w.deletes;
      Progress(World(a.items, w.tableCalls + a.calls, deletes), false)
  }

  /** The `for` loop over one poll's messages, up to the first exception that escapes. */
  function HandleBatch(w: World, messages: seq<Message>, service: Service): Progress {
    if messages == [] then Progress(w, false)
    else
      var p := HandleBatch(w, messages[..|messages| - 1], service);
      if p.aborted then p else HandleMessage(p.world, messages[|messages| - 1], service)
  }

  datatype RunOutcome = Drained | Aborted

  /** A whole run: the number of polls made, how the run ended, and the world after it. */
  datatype Run = Run(polls: nat, outcome: RunOutcome, world: World)

  /** The `while True` loop of `replay_failed_trips` when the queue answers `polls`. */
  function Drain(polls: seq<PollReply>, w: World, service: Service): Run
    decreases |polls|
  {
    match NextPoll(polls, MaxNumberOfMessages)
    case ReceiveRaised => Run(1, Aborted, w)
    case Received(batch) =>
      if batch == [] then Run(1, Drained, w)
      else
        var p := HandleBatch(w, batch, service);
        if p.aborted then Run(1, Aborted, p.world)
        else
          var rest := Drain(polls[1..], p.world, service);
          Run(rest.polls + 1, rest.outcome, rest.world)
  }

  /** `n` receive requests, each for at most 10 messages with a 5-second wait. */
  function Receives(n: nat): seq<ReceiveCall> {
    seq(n, _ => ReceiveCall(MaxNumberOfMessages, WaitTimeSeconds))
  }

  /** Once a prefix of the batch has aborted the run, the later messages change nothing. */
  lemma {:induction false} HandleBatchAbortSticks(w: World, messages: seq<Message>, j: nat, service: Service)
    requires j <= |messages| && HandleBatch(w, messages[..j], service).aborted
    ensures HandleBatch(w, messages, service) == HandleBatch(w, messages[..j], service)
    decreases |messages| - j
  {
    if j < |messages| {
      assert messages[..j + 1][..j] == messages[..j];
      HandleBatchAbortSticks(w, messages, j + 1, service);
    } else {
      assert messages[..j] == messages;
    }
  }

  /** One more message handled, if the run is still going. */
  lemma HandleBatchStep(w: World, messages: seq<Message>, i: nat, service: Service)
    requires i < |messages|
    ensures HandleBatch(w, messages[..i + 1], service) ==
      var p := HandleBatch(w, messages[..i], service);
      if p.aborted then p else HandleMessage(p.world, messages[i], service)
  {
    assert messages[..i + 1][..i] == messages[..i];
  }

  /** A batch aborts exactly when one of its messages is unreadable. */
  lemma {:induction false} BatchAbortsIffUnreadable(w: World, messages: seq<Message>, service: Service)
    ensures HandleBatch(w, messages, service).aborted <==> exists i :: 0 <= i < |messages| && messages[i].body.Unreadable?
  {
    if messages != [] {
      var n := |messages| - 1;
      var init := messages[..n];
      BatchAbortsIffUnreadable(w, init, service);
      assert forall i :: 0 <= i < n ==> init[i] == messages[i];
    }
  }

  /**
   * An aborting batch stops at its first unreadable message: the world is
   * what the messages before it made, and the later ones are not handled.
   */
  lemma {:induction false} BatchStopsAtFirstUnreadable(w: World, messages: seq<Message>, j: nat, service: Service)
    requires j < |messages| && messages[j].body.Unreadable?
    requires forall i :: 0 <= i < j ==> !messages[i].body.Unreadable?
    ensures HandleBatch(w, messages, service) == Progress(HandleBatch(w, messages[..j], service).world, true)
  {
    BatchAbortsIffUnreadable(w, messages[..j], service);
    assert !HandleBatch(w, messages[..j], service).aborted by {
      forall i | 0 <= i < j
        ensures !messages[..j][i].body.Unreadable?
      {
      }
    }
    HandleBatchStep(w, messages, j, service);
    HandleBatchAbortSticks(w, messages, j + 1, service);
  }

  /**
   * Every delete a batch issues carries the receipt of one of its messages,
   * and there are at most as many deletes as messages.
   */
  lemma {:induction false} BatchDeletesOwnReceipts(w: World, messages: seq<Message>, service: Service)
    ensures var deletes := HandleBatch(w, messages, service).world.deletes;
      && w.deletes <= deletes
      && |deletes| <= |w.deletes| + |messages|
      && forall k :: |w.deletes| <= k < |deletes| ==> exists i :: 0 <= i < |messages| && deletes[k] == messages[i].receipt
  {
    if messages != [] {
      var n := |messages| - 1;
      var init := messages[..n];
      BatchDeletesOwnReceipts(w, init, service);
      var before := HandleBatch(w, init, service).world.deletes;
      var deletes := HandleBatch(w, messages, service).world.deletes;
      forall k | |w.deletes| <= k < |deletes|
        ensures exists i :: 0 <= i < |messages| && deletes[k] == messages[i].receipt
      {
        if k < |before| {
          var i :| 0 <= i < n && before[k] == init[i].receipt;
          assert deletes[k] == messages[i].receipt;
        } else {
          assert deletes[k] == messages[n].receipt;
        }
      }
    }
  }

  /** Replay never creates or removes a table item: the keys of the table stay those it started with. */
  lemma {:induction false} BatchKeepsKeys(w: World, messages: seq<Message>, service: Service)
    ensures HandleBatch(w, messages, service).world.items.Keys == w.items.Keys
  {
    if messages != [] {
      BatchKeepsKeys(w, messages[..|messages| - 1], service);
    }
  }

  lemma {:induction false} DrainKeepsKeys(polls: seq<PollReply>, w: World, service: Service)
    ensures Drain(polls, w, service).world.items.Keys == w.items.Keys
    decreases |polls|
  {
    var reply := NextPoll(polls, MaxNumberOfMessages);
    if reply.Received? && reply.messages != [] {
      var batch := reply.messages;
      var p := HandleBatch(w, batch, service);
      BatchKeepsKeys(w, batch, service);
      if !p.aborted {
        DrainKeepsKeys(polls[1..], p.world, service);
      }
    }
  }

  /** The answer the `i`-th poll receives (an exhausted script answers with no message). */
  function PollAnswer(polls: seq<PollReply>, i: nat): PollReply {
    if i < |polls| then Cut(polls[i], MaxNumberOfMessages) else Received([])
  }

  predicate HasUnreadable(messages: seq<Message>) {
    exists m :: m in messages && m.body.Unreadable?
  }

  /** Whether the run goes on after a poll with this answer: messages came, and all of them can be read. */
  predicate Continues(reply: PollReply) {
    reply.Received? && reply.messages != [] && !HasUnreadable(reply.messages)
  }

  /**
   * How a run ends, read off the queue's answers alone: the number of polls
   * and the outcome.
   */
  function Schedule(polls: seq<PollReply>): (nat, RunOutcome)
    decreases |polls|
  {
    var reply := NextPoll(polls, MaxNumberOfMessages);
    if reply == Received([]) then (1, Drained)
    else if !Continues(reply) then (1, Aborted)
    else
      var rest := Schedule(polls[1..]);
      (rest.0 + 1, rest.1)
  }

  /**
   * Exceptions from the table or from deletes never change the course of
   * the run: the number of polls and how it ends depend on the queue's
   * answers only.
   */
  lemma {:induction false} DrainFollowsSchedule(polls: seq<PollReply>, w: World, service: Service)
    ensures Drain(polls, w, service).polls == Schedule(polls).0
    ensures Drain(polls, w, service).outcome == Schedule(polls).1
    decreases |polls|
  {
    var reply := NextPoll(polls, MaxNumberOfMessages);
    if reply.Received? && reply.messages != [] {
      var batch := reply.messages;
      var p := HandleBatch(w, batch, service);
      BatchAbortsIffUnreadable(w, batch, service);
      assert p.aborted <==> HasUnreadable(batch) by {
        if HasUnreadable(batch) {
          var m :| m in batch && m.body.Unreadable?;
          var i :| 0 <= i < |batch| && batch[i] == m;
        }
      }
      if !p.aborted {
        DrainFollowsSchedule(polls[1..], p.world, service);
      }
    }
  }

  /**
   * The schedule polls until the first poll that brings no message, or
   * until a poll that raises or brings an unreadable body: every poll
   * before the last brought readable messages, and the last one brought
   * none (drained), or raised or brought an unreadable one (aborted).
   */
  lemma {:induction false} ScheduleStopsAtFirstEmptyPoll(polls: seq<PollReply>)
    ensures var (n, outcome) := Schedule(polls);
      var last := PollAnswer(polls, n - 1);
      && 1 <= n <= |polls| + 1
      && (forall i :: 0 <= i < n - 1 ==> Continues(PollAnswer(polls, i)))
      && (outcome == Drained <==> last == Received([]))
      && (outcome == Aborted <==> last.ReceiveRaised? || (last.Received? && HasUnreadable(last.messages)))
    decreases |polls|
  {
    var reply := NextPoll(polls, MaxNumberOfMessages);
    assert PollAnswer(polls, 0) == reply;
    if Continues(reply) {
      var rest := polls[1..];
      ScheduleStopsAtFirstEmptyPoll(rest);
      var n := Schedule(polls).0;
      forall i | 0 <= i < n - 1
        ensures Continues(PollAnswer(polls, i))
      {
        if i > 0 {
          assert PollAnswer(polls, i) == PollAnswer(rest, i - 1);
        }
      }
      assert PollAnswer(polls, n - 1) == PollAnswer(rest, n - 2);
    }
  }

  /**
   * The run stops exactly at the first poll that brings no message (it
   * drained), or at the first poll that raises or brings an unreadable
   * body (it aborted).
   */
  lemma DrainStopsAtFirstEmptyPoll(polls: seq<PollReply>, w: World, service: Service)
    ensures var run := Drain(polls, w, service);
      var last := PollAnswer(polls, run.polls - 1);
      && 1 <= run.polls <= |polls| + 1
      && (forall i :: 0 <= i < run.polls - 1 ==> Continues(PollAnswer(polls, i)))
      && (run.outcome == Drained <==> last == Received([]))
      && (run.outcome == Aborted <==> last.ReceiveRaised? || (last.Received? && HasUnreadable(last.messages)))
  {
    DrainFollowsSchedule(polls, w, service);
    ScheduleStopsAtFirstEmptyPoll(polls);
  }

  /** A table service that never fails and answers each update with the attributes it set, as DynamoDB does for UPDATED_NEW. */
  function Answering(): Service {
    Service({}, req => UpdateReturned(Some(Assigned(req))))
  }

  /**
   * Against a table that answers normally, a record whose values boto3 can
   * send, whose trip exists and that has a field besides trip_id is
   * confirmed: the response carries the attributes set, and the item gets
   * the record's fields.
   */
  lemma AnsweringConfirms(record: Dict, items: Items)
    requires Serializable(record)
    requires Lookup(record, TripIdKey).Some? && Lookup(record, TripIdKey).value in items
    requires UpdateFields(record) != []
    ensures var tripId := Lookup(record, TripIdKey).value;
      var r := TripUpdate(record, items, Answering());
      && r.outcome == Returned(true)
      && r.items == items[tripId := items[tripId] + FieldMap(UpdateFields(record))]
  {
    var tripId := Lookup(record, TripIdKey).value;
    var fields := UpdateFields(record);
    SerializableRecordSendable(tripId, record);
    DictKeysDetermine(record);
    AssignedBuildUpdate(tripId, fields);
    FieldMapSpec(fields);
    assert fields[0] in fields;
    assert FieldMap(fields) != map[] by {
      assert fields[0].key in FieldMap(fields);
    }
  }

  /**
   * A record with a float among its update fields is never confirmed,
   * whatever the service: boto3 refuses the update request, the exception
   * is caught, and the message stays in the queue with the table unchanged.
   */
  lemma FloatFieldKeepsMessage(w: World, m: Message, service: Service)
    requires m.body.DictRecord?
    requires exists f :: f in UpdateFields(m.body.record) && Unserializable(f.val)
    ensures var p := HandleMessage(w, m, service);
      !p.aborted && p.world.items == w.items && p.world.deletes == w.deletes
  {
    var record := m.body.record;
    var a := TripUpdate(record, w.items, service);
    if |a.calls| == 2 {
      var f :| f in UpdateFields(record) && Unserializable(f.val);
      FloatFieldUnsendable(Lookup(record, TripIdKey).value, record, f);
    }
  }

  /**
   * A message whose record has no trip_id, names a trip the table does not
   * hold, or has nothing besides trip_id, changes no item and is kept.
   */
  lemma SkippedMessageKeepsWorld(w: World, m: Message, service: Service)
    requires m.body.DictRecord?
    requires var record := m.body.record;
      || Lookup(record, TripIdKey).None?
      || Lookup(record, TripIdKey).value !in w.items
      || UpdateFields(record) == []
    ensures var p := HandleMessage(w, m, service);
      !p.aborted && p.world.items == w.items && p.world.deletes == w.deletes
  {
    var a := TripUpdate(m.body.record, w.items, service);
    assert |a.calls| < 2;
  }

  /**
   * Against a table that answers normally, a dict record that boto3 can
   * send, naming a stored trip with a field besides trip_id, is applied to
   * that trip's item, and its message is deleted.
   */
  lemma ConfirmedMessageIsDeleted(w: World, m: Message)
    requires m.body.DictRecord? && Serializable(m.body.record)
    requires Lookup(m.body.record, TripIdKey).Some? && Lookup(m.body.record, TripIdKey).value in w.items
    requires UpdateFields(m.body.record) != []
    ensures var tripId := Lookup(m.body.record, TripIdKey).value;
      var p := HandleMessage(w, m, Answering());
      && !p.aborted
      && p.world.deletes == w.deletes + [m.receipt]
      && p.world.items == w.items[tripId := w.items[tripId] + FieldMap(UpdateFields(m.body.record))]
  {
    AnsweringConfirms(m.body.record, w.items);
  }

  /** A poll that brings a batch which does not abort, followed by an empty poll, drains the queue in two polls. */
  lemma DrainOnePoll(batch: seq<Message>, w: World, service: Service)
    requires 0 < |batch| <= MaxNumberOfMessages && !HandleBatch(w, batch, service).aborted
    ensures Drain([Received(batch)], w, service) == Run(2, Drained, HandleBatch(w, batch, service).world)
  {
    assert NextPoll([Received(batch)], MaxNumberOfMessages) == Received(batch);
    assert [Received(batch)][1..] == [];
  }

  /** A batch of three readable messages is handled one after the other. */
  lemma HandleBatchOfThree(w: World, a: Message, b: Message, c: Message, service: Service)
    requires !a.body.Unreadable? && !b.body.Unreadable?
    ensures HandleBatch(w, [a, b, c], service) ==
      HandleMessage(HandleMessage(HandleMessage(w, a, service).world, b, service).world, c, service)
  {
    var batch := [a, b, c];
    HandleBatchStep(w, batch, 0, service);
    HandleBatchStep(w, batch, 1, service);
    HandleBatchStep(w, batch, 2, service);
    assert batch[..3] == batch && batch[..0] == [];
  }

  /**
   * A poll of three messages: a stored trip with nothing to update, a trip
   * the table does not hold, and a stored trip with a float field. None of
   * them changes the table, and all three stay in the queue.
   */
  lemma ThreeMessagesKept(w: World, a: Message, b: Message, c: Message, service: Service)
    requires a.body.DictRecord? && UpdateFields(a.body.record) == []
    requires b.body.DictRecord? && Lookup(b.body.record, TripIdKey).Some? && Lookup(b.body.record, TripIdKey).value !in w.items
    requires c.body.DictRecord? && exists f :: f in UpdateFields(c.body.record) && Unserializable(f.val)
    ensures var p := HandleBatch(w, [a, b, c], service);
      !p.aborted && p.world.items == w.items && p.world.deletes == w.deletes
  {
    var wA := HandleMessage(w, a, service).world;
    SkippedMessageKeepsWorld(w, a, service);
    var wB := HandleMessage(wA, b, service).world;
    SkippedMessageKeepsWorld(wA, b, service);
    FloatFieldKeepsMessage(wB, c, service);
    HandleBatchOfThree(w, a, b, c, service);
  }

  /**
   * The same poll when the third record can be sent: only the third message
   * changes the table, and only the third is deleted.
   */
  lemma ThreeMessageBatch(w: World, a: Message, b: Message, c: Message)
    requires a.body.DictRecord? && UpdateFields(a.body.record) == []
    requires b.body.DictRecord? && Lookup(b.body.record, TripIdKey).Some? && Lookup(b.body.record, TripIdKey).value !in w.items
    requires c.body.DictRecord? && Serializable(c.body.record) && UpdateFields(c.body.record) != []
    requires Lookup(c.body.record, TripIdKey).Some? && Lookup(c.body.record, TripIdKey).value in w.items
    ensures var tripId := Lookup(c.body.record, TripIdKey).value;
      var p := HandleBatch(w, [a, b, c], Answering());
      && !p.aborted
      && p.world.deletes == w.deletes + [c.receipt]
      && p.world.items == w.items[tripId := w.items[tripId] + FieldMap(UpdateFields(c.body.record))]
  {
    var wA := HandleMessage(w, a, Answering()).world;
    SkippedMessageKeepsWorld(w, a, Answering());
    var wB := HandleMessage(wA, b, Answering()).world;
    SkippedMessageKeepsWorld(wA, b, Answering());
    ConfirmedMessageIsDeleted(wB, c);
    HandleBatchOfThree(w, a, b, c, Answering());
  }

  // A replay of three messages in one poll: `{trip_id: "A1"}` with A1 in the
  // table (no field to update), `{trip_id: "B2", fare: 12.5}` with B2 absent,
  // and `{trip_id: "C3", fare: 9.0}` with C3 stored as an arbitrary item.
  // `json.loads` reads both fares as floats.

  const FareC3 := Field("fare", Float("9.0"))
  const MessageA1 := Message(DictRecord([Field(TripIdKey, Text("A1"))]), "receipt-A1")
  const MessageB2 := Message(DictRecord([Field(TripIdKey, Text("B2")), Field("fare", Float("12.5"))]), "receipt-B2")
  const MessageC3 := Message(DictRecord([Field(TripIdKey, Text("C3")), FareC3]), "receipt-C3")

  function ScenarioItems(stored: map<string, Value>): Items {
    map[Text("A1") := map[TripIdKey := Text("A1")], Text("C3") := stored]
  }

  /** A1's record holds nothing but trip_id. */
  lemma ScenarioRecordA1()
    ensures MessageA1.body.DictRecord? && UpdateFields(MessageA1.body.record) == []
  {
  }

  /** B2's record names the trip B2. */
  lemma ScenarioRecordB2()
    ensures MessageB2.body.DictRecord? && Lookup(MessageB2.body.record, TripIdKey) == Some(Text("B2"))
  {
  }

  /** C3's single update field is its float fare. */
  lemma ScenarioRecordC3()
    ensures MessageC3.body.DictRecord? && UpdateFields(MessageC3.body.record) == [FareC3]
  {
    var record := MessageC3.body.record;
    assert record == [Field(TripIdKey, Text("C3")), FareC3];
    assert record[1..] == [FareC3] && record[1..][1..] == [];
    assert UpdateFields(record[1..]) == [FareC3];
  }

  /**
   * The whole replay of that poll, as the code runs it: the float fare makes
   * C3's update raise, so no item changes and all three messages stay in
   * the queue; the next poll is empty and ends the run.
   */
  lemma ReplayScenario(stored: map<string, Value>)
    ensures var run := Drain([Received([MessageA1, MessageB2, MessageC3])], World(ScenarioItems(stored), [], []), Answering());
      && run.outcome == Drained && run.polls == 2
      && run.world.deletes == []
      && run.world.items == ScenarioItems(stored)
  {
    var batch := [MessageA1, MessageB2, MessageC3];
    var w0 := World(ScenarioItems(stored), [], []);
    ScenarioRecordA1();
    ScenarioRecordB2();
    ScenarioRecordC3();
    assert FareC3 in UpdateFields(MessageC3.body.record);
    ThreeMessagesKept(w0, MessageA1, MessageB2, MessageC3, Answering());
    DrainOnePoll(batch, w0, Answering());
  }

  // ---------------------------------------------------------------------
  // Reading the body with parse_decimal_json
  // ---------------------------------------------------------------------

  /**
   * The floats JSON's constants `NaN`, `Infinity` and `-Infinity` are read
   * as. They are not numbers to the JSON parser: `parse_decimal_json` sets
   * `parse_float` and `parse_int` but not `parse_constant`, so they stay floats.
   */
  predicate JsonConstant(v: Value) {
    v.NaN? || v == Float("inf") || v == Float("-inf")
  }

  /** `parse_decimal_json`'s reading of a JSON value: numbers become `Decimal`; the JSON constants stay floats. */
  function DecimalValue(v: Value): Value {
    match v
    case Float(repr) => if JsonConstant(v) then v else Decimal(repr)
    case Int(i) => Decimal(IntToString(i))
    case _ => v
  }

  /** A record as `parse_decimal_json` would read it: the same keys in the same order, with every number a `Decimal`. */
  function DecimalRecord(record: Dict): (r: Dict)
    ensures |r| == |record|
    ensures forall i :: 0 <= i < |r| ==> r[i].key == record[i].key
    ensures forall i :: 0 <= i < |r| ==>
      (record[i].val.Int? || (record[i].val.Float? && !JsonConstant(record[i].val)) ==> r[i].val.Decimal?)
    ensures forall i :: 0 <= i < |r| ==>
      (record[i].val.Float? && !JsonConstant(record[i].val) ==> r[i].val.digits == record[i].val.repr)
    ensures forall i :: 0 <= i < |r| ==>
      (!record[i].val.Int? && (!record[i].val.Float? || JsonConstant(record[i].val)) ==> r[i].val == record[i].val)
  {
    var r := seq(|record|, i requires 0 <= i < |record| => Field(record[i].key, DecimalValue(record[i].val)));
    assert IsDict(r) by {
      forall i, j | 0 <= i < j < |r|
        ensures r[i].key != r[j].key
      {
        assert r[i].key == record[i].key && r[j].key == record[j].key;
      }
    }
    r
  }

  /** A message as the replay would read it with `parse_decimal_json`. */
  function ReadWithDecimals(m: Message): Message {
    match m.body
    case DictRecord(record) => Message(DictRecord(DecimalRecord(record)), m.receipt)
    case _ => m
  }

  /** Read with `parse_decimal_json`, a record can be sent to the table exactly when it holds no NaN and no infinity. */
  lemma DecimalRecordSerializable(record: Dict)
    ensures Serializable(DecimalRecord(record)) <==> forall f :: f in record ==> !JsonConstant(f.val)
  {
    var r := DecimalRecord(record);
    if Serializable(r) {
      forall f | f in record
        ensures !JsonConstant(f.val)
      {
        var i :| 0 <= i < |record| && record[i] == f;
        assert r[i] in r;
      }
    }
    if forall f :: f in record ==> !JsonConstant(f.val) {
      forall g | g in r
        ensures !Unserializable(g.val)
      {
        var i :| 0 <= i < |r| && r[i] == g;
        assert record[i] in record;
      }
    }
  }

  /**
   * Read with `parse_decimal_json`, a message without NaN or infinity that
   * names a stored trip and has a field besides trip_id is confirmed against a table
   * that answers normally: its fields are set and the message is deleted.
   */
  lemma DecimalReadConfirms(w: World, m: Message)
    requires m.body.DictRecord? && forall f :: f in m.body.record ==> !JsonConstant(f.val)
    requires var record := DecimalRecord(m.body.record);
      Lookup(record, TripIdKey).Some? && Lookup(record, TripIdKey).value in w.items && UpdateFields(record) != []
    ensures var record := DecimalRecord(m.body.record);
      var tripId := Lookup(record, TripIdKey).value;
      var p := HandleMessage(w, ReadWithDecimals(m), Answering());
      && !p.aborted
      && p.world.deletes == w.deletes + [m.receipt]
      && p.world.items == w.items[tripId := w.items[tripId] + FieldMap(UpdateFields(record))]
  {
    DecimalRecordSerializable(m.body.record);
    ConfirmedMessageIsDeleted(w, ReadWithDecimals(m));
  }

  /** A JSON constant among a record's update fields is still there, unchanged, once the record is read with decimals. */
  lemma JsonConstantSurvives(record: Dict, f: Field)
    requires f in UpdateFields(record) && JsonConstant(f.val)
    ensures f in UpdateFields(DecimalRecord(record))
  {
    var r := DecimalRecord(record);
    var i :| 0 <= i < |record| && record[i] == f;
    assert r[i] == f && r[i] in r;
  }

  /**
   * Read with `parse_decimal_json`, a record with NaN or an infinity among
   * its update fields is still never confirmed, whatever the service.
   */
  lemma DecimalReadKeepsJsonConstant(w: World, m: Message, service: Service)
    requires m.body.DictRecord? && exists f :: f in UpdateFields(m.body.record) && JsonConstant(f.val)
    ensures var p := HandleMessage(w, ReadWithDecimals(m), service);
      !p.aborted && p.world.items == w.items && p.world.deletes == w.deletes
  {
    var f :| f in UpdateFields(m.body.record) && JsonConstant(f.val);
    JsonConstantSurvives(m.body.record, f);
    assert Unserializable(f.val);
    FloatFieldKeepsMessage(w, ReadWithDecimals(m), service);
  }

  const DecimalFareC3 := Field("fare", Decimal("9.0"))

  /** Read with decimals, A1's record is unchanged and B2's still names B2. */
  lemma DecimalRecordsA1B2()
    ensures ReadWithDecimals(MessageA1) == MessageA1
    ensures ReadWithDecimals(MessageB2).body.DictRecord?
    ensures Lookup(ReadWithDecimals(MessageB2).body.record, TripIdKey) == Some(Text("B2"))
  {
    var a := MessageA1.body.record;
    assert DecimalRecord(a)[0] == a[0];
    assert DecimalRecord(a) == a;
    var b := DecimalRecord(MessageB2.body.record);
    assert b[0] == Field(TripIdKey, Text("B2"));
  }

  /** Read with decimals, C3's record names C3 and its single update field is the decimal fare 9.0. */
  lemma DecimalRecordC3()
    ensures ReadWithDecimals(MessageC3).body.DictRecord?
    ensures var record := ReadWithDecimals(MessageC3).body.record;
      && record == [Field(TripIdKey, Text("C3")), DecimalFareC3]
      && Lookup(record, TripIdKey) == Some(Text("C3"))
      && UpdateFields(record) == [DecimalFareC3]
      && Serializable(record)
  {
    var record := ReadWithDecimals(MessageC3).body.record;
    var read := MessageC3.body.record;
    assert DecimalValue(read[0].val) == Text("C3") && DecimalValue(read[1].val) == Decimal("9.0");
    assert record[0] == Field(TripIdKey, Text("C3")) && record[1] == DecimalFareC3;
    assert record == [Field(TripIdKey, Text("C3")), DecimalFareC3];
    assert record[1..] == [DecimalFareC3] && record[1..][1..] == [];
    assert UpdateFields(record[1..]) == [DecimalFareC3];
  }

  /**
   * The same replay with the bodies read by `parse_decimal_json`: A1's and
   * B2's messages stay in the queue, C3's is deleted and C3 gets its fare
   * as a `Decimal`; the next poll is empty and ends the run.
   */
  lemma DecimalReplayScenario(stored: map<string, Value>)
    ensures var batch := [ReadWithDecimals(MessageA1), ReadWithDecimals(MessageB2), ReadWithDecimals(MessageC3)];
      var run := Drain([Received(batch)], World(ScenarioItems(stored), [], []), Answering());
      && run.outcome == Drained && run.polls == 2
      && run.world.deletes == ["receipt-C3"]
      && run.world.items == ScenarioItems(stored)[Text("C3") := stored["fare" := Decimal("9.0")]]
  {
    var a, b, c := ReadWithDecimals(MessageA1), ReadWithDecimals(MessageB2), ReadWithDecimals(MessageC3);
    var w0 := World(ScenarioItems(stored), [], []);
    ScenarioRecordA1();
    DecimalRecordsA1B2();
    DecimalRecordC3();
    assert FieldMap(UpdateFields(c.body.record)) == map["fare" := Decimal("9.0")] by {
      assert [DecimalFareC3][..0] == [];
    }
    ThreeMessageBatch(w0, a, b, c);
    MergeOne(stored, "fare", Decimal("9.0"));
    DrainOnePoll([a, b, c], w0, Answering());
  }

  /** Merging a one-entry dict into `m` is updating `m` at that key. */
  lemma MergeOne<K, V>(m: map<K, V>, k: K, v: V)
    ensures m + map[k := v] == m[k := v]
  {
  }

  /**
   * The `for` loop of `replay_failed_trips` over one poll's messages; `aborted`
   * stands for the exception an unreadable body lets escape.
   */
  method HandleMessages(dlq: Dlq, table: Table, messages: seq<Message>) returns (aborted: bool)
    modifies dlq, table
    ensures var p := HandleBatch(World(old(table.items), old(table.calls), old(dlq.deletes)), messages, table.service);
      && aborted == p.aborted
      && World(table.items, table.calls, dlq.deletes) == p.world
    ensures dlq.polls == old(dlq.polls) && dlq.receives == old(dlq.receives)
  {
    ghost var before := World(table.items, table.calls, dlq.deletes);
    for i := 0 to |messages|
      invariant dlq.polls == old(dlq.polls) && dlq.receives == old(dlq.receives)
      invariant HandleBatch(before, messages[..i], table.service) == Progress(World(table.items, table.calls, dlq.deletes), false)
    {
      var msg := messages[i];
      HandleBatchStep(before, messages, i, table.service);
      match msg.body
      case Unreadable =>
        HandleBatchAbortSticks(before, messages, i + 1, table.service);
        return true;
      case NotADict =>
      case DictRecord(record) =>
        var updated := table.UpdateTripDetails(record);
        if updated == Returned(true) {
          var raised := dlq.DeleteMessage(msg.receipt);
        }
    }
    assert messages[..|messages|] == messages;
    return false;
  }

  /** One more poll consumes one more answer of the script. */
  lemma RemainingStep(polls: seq<PollReply>, n: nat)
    ensures Remaining(Remaining(polls, n), 1) == Remaining(polls, n + 1)
  {
    if n < |polls| {
      assert polls[n..][1..] == polls[n + 1..];
    }
  }

  /**
   * `replay_failed_trips(sqs_url, table)`; `Aborted` stands for the exception
   * a raising receive or an unreadable body lets escape.
   */
  method ReplayFailedTrips(dlq: Dlq, table: Table) returns (outcome: RunOutcome)
    modifies dlq, table
    ensures var run := Drain(old(dlq.polls), World(old(table.items), old(table.calls), old(dlq.deletes)), table.service);
      && outcome == run.outcome
      && World(table.items, table.calls, dlq.deletes) == run.world
      && dlq.receives == old(dlq.receives) + Receives(run.polls)
      && dlq.polls == Remaining(old(dlq.polls), run.polls)
  {
    ghost var run := Drain(dlq.polls, World(table.items, table.calls, dlq.deletes), table.service);
    ghost var made := 0;
    while true
      invariant dlq.receives == old(dlq.receives) + Receives(made)
      invariant dlq.polls == Remaining(old(dlq.polls), made)
      invariant var rest := Drain(dlq.polls, World(table.items, table.calls, dlq.deletes), table.service);
        rest.outcome == run.outcome && rest.world == run.world && made + rest.polls == run.polls
      decreases |dlq.polls|
    {
      RemainingStep(old(dlq.polls), made);
      var reply := dlq.ReceiveMessage(MaxNumberOfMessages, WaitTimeSeconds);
      made := made + 1;
      assert dlq.receives == old(dlq.receives) + Receives(made) by {
        assert Receives(made) == Receives(made - 1) + [ReceiveCall(MaxNumberOfMessages, WaitTimeSeconds)];
      }
      if reply.ReceiveRaised? {
        return Aborted;
      }
      if reply.messages == [] {
        return Drained;
      }
      var aborted := HandleMessages(dlq, table, reply.messages);
      if aborted {
        return Aborted;
      }
    }
  }
}
