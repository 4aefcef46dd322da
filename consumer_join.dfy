/** The per-batch logic of the deduplicating consumer (consumer/consumer.py,
    `consume_from_partition`): batches are put in offset order, each message
    is read as a measurement of one metric topic for one `(server_id, ts)`
    key, and a key's row is written once all four metrics are known and the
    key was not written before. */
module ConsumerJoin {
  import opened Json
  import opened Reading

  /** The four metric topics, which are also the metric columns of the CSV. */
  const CpuTopic := "topic-cpu"
  const MemTopic := "topic-mem"
  const NetTopic := "topic-net"
  const DiskTopic := "topic-disk"

  predicate IsMetricTopic(t: string)
  {
    t == CpuTopic || t == MemTopic || t == NetTopic || t == DiskTopic
  }

  /** `(str(server_id), str(ts))`, the key rows are joined and deduplicated by. */
  type Key = (string, string)

  /** The value of an unset column: the empty string. */
  const Blank := JStr("")

  /** An entry of `records`: the four metric columns (any decoded value, Blank
      while unset) and the `ts` and `server_id` columns. */
  datatype Record = Record(cpu: Json, mem: Json, net: Json, disk: Json, ts: string, serverId: string)

  /** A row of the output CSV, in the order of its header
      `ts, server_id, topic-cpu, topic-mem, topic-net, topic-disk`. */
  datatype CsvRow = CsvRow(ts: string, serverId: string, cpu: string, mem: string, net: string, disk: string)

  function RowKey(row: CsvRow): Key
  {
    (row.serverId, row.ts)
  }

  function Column(r: Record, topic: string): Json
    requires IsMetricTopic(topic)
  {
    if topic == CpuTopic then r.cpu
    else if topic == MemTopic then r.mem
    else if topic == NetTopic then r.net
    else r.disk
  }

  /** `records[key][topic] = v`: one metric column set, the others kept. */
  function WithMetric(r: Record, topic: string, v: Json): (r': Record)
    requires IsMetricTopic(topic)
    ensures Column(r', topic) == v
    ensures forall t :: IsMetricTopic(t) && t != topic ==> Column(r', t) == Column(r, t)
    ensures r'.ts == r.ts && r'.serverId == r.serverId
  {
    if topic == CpuTopic then r.(cpu := v)
    else if topic == MemTopic then r.(mem := v)
    else if topic == NetTopic then r.(net := v)
    else r.(disk := v)
  }

  /** All four metric columns are set. */
  predicate Complete(r: Record)
  {
    r.cpu != Blank && r.mem != Blank && r.net != Blank && r.disk != Blank
  }

  /** What the CSV writer puts in a cell: nothing for None, `str` otherwise. */
  function Cell(v: Json): (c: string)
    ensures v.JNull? ==> c == ""
    ensures v.JStr? ==> c == v.s
    ensures v.JInt? ==> ParseInt(c) == Some(v.i)
  {
    if v.JNull? then "" else Render(v)
  }

  function RowOf(r: Record): (row: CsvRow)
    ensures RowKey(row) == (r.serverId, r.ts)
  {
    CsvRow(r.ts, r.serverId, Cell(r.cpu), Cell(r.mem), Cell(r.net), Cell(r.disk))
  }

  /** How one message of a topic's batch is read. */
  datatype Parsed =
    | Unusable                 // `data` or `payload` is not an object: `.get` raises and the consumer stops
    | Skipped                  // no `ts`, no `server_id`, or no value for the topic's metric
    | Measurement(serverId: string, ts: string, value: Json)

  /** The metric a payload carries for a topic: one field for cpu, mem and
      disk (Blank when absent), `"{net_in}/{net_out}"` with 0 for a missing
      half for net, and Blank for any other topic. */
  function MetricValue(topic: string, payload: Json): (v: Json)
    requires payload.JObj?
    ensures topic == NetTopic ==> v.JStr? && '/' in v.s
    ensures !IsMetricTopic(topic) ==> v == Blank
  {
    if topic == CpuTopic then GetOr(payload, "cpu_pct", Blank)
    else if topic == MemTopic then GetOr(payload, "mem_pct", Blank)
    else if topic == DiskTopic then GetOr(payload, "disk_io", Blank)
    else if topic == NetTopic then
      var s := Render(GetOr(payload, "net_in", JInt(0))) + "/" + Render(GetOr(payload, "net_out", JInt(0)));
      assert s[|Render(GetOr(payload, "net_in", JInt(0)))|] == '/';
      JStr(s)
    else Blank
  }

  /** How `consume_topic` reads one message of a topic's batch. */
  function Interpret(topic: string, data: Json): (p: Parsed)
    ensures p.Measurement? ==> IsMetricTopic(topic) && p.value != Blank
  {
    if !data.JObj? then Unusable
    else
      var payload := GetOr(data, "payload", JObj(map[]));
      if !payload.JObj? then Unusable
      else
        var ts := GetOr(payload, "ts", JNull);
        var sid := GetOr(payload, "server_id", JNull);
        if !Truthy(ts) || !Truthy(sid) then Skipped
        else
          var v := MetricValue(topic, payload);
          if v == Blank then Skipped else Measurement(Render(sid), Render(ts), v)
  }

  /** The three readings of a message: `data.get("payload", {})` raises when
      `data` or the payload is not an object; a message without `ts`, without
      `server_id` or without the topic's metric is skipped; any other message
      is a measurement of that server at that time with that value. */
  lemma InterpretCases(topic: string, data: Json)
    ensures Interpret(topic, data).Unusable? <==> !data.JObj? || !GetOr(data, "payload", JObj(map[])).JObj?
    ensures data.JObj? && GetOr(data, "payload", JObj(map[])).JObj? ==>
      var payload := GetOr(data, "payload", JObj(map[]));
      var ts := GetOr(payload, "ts", JNull);
      var sid := GetOr(payload, "server_id", JNull);
      var p := Interpret(topic, data);
      (p.Skipped? <==> !Truthy(ts) || !Truthy(sid) || MetricValue(topic, payload) == Blank) &&
      (p.Measurement? ==> p.serverId == Render(sid) && p.ts == Render(ts) && p.value == MetricValue(topic, payload))
  {
  }

  /** A `topic-net` message is skipped only for a missing `ts` or `server_id`:
      its combined value is never blank. */
  lemma NetMeasurementNeverBlank(payload: Json)
    requires payload.JObj?
    requires Truthy(GetOr(payload, "ts", JNull)) && Truthy(GetOr(payload, "server_id", JNull))
    ensures Interpret(NetTopic, JObj(map["payload" := payload])).Measurement?
  {
    var v := MetricValue(NetTopic, payload);
    assert '/' in v.s && '/' !in Blank.s;
  }

  /** The consumer's join state: `records`, `completed` and the rows appended
      to the CSV by this process. */
  datatype Join = Join(records: map<Key, Record>, completed: set<Key>, rows: seq<CsvRow>)

  /** Every row written is a completed key, and no key was written twice. */
  predicate WrittenOnce(j: Join)
  {
    (forall i :: 0 <= i < |j.rows| ==> RowKey(j.rows[i]) in j.completed) &&
    (forall i, k :: 0 <= i < k < |j.rows| ==> RowKey(j.rows[i]) != RowKey(j.rows[k]))
  }

  /** One measurement folded into the join: the key's record gets the metric
      and its `ts`/`server_id`; a record that is now complete and not yet
      written is written, marked completed and dropped. */
  function Absorb(j: Join, topic: string, key: Key, v: Json): (r: Join)
    requires IsMetricTopic(topic)
    ensures j.rows <= r.rows && |r.rows| <= |j.rows| + 1
    ensures r.completed == j.completed + (if |r.rows| > |j.rows| then {key} else {})
    ensures |r.rows| > |j.rows| ==> key !in j.completed && RowKey(r.rows[|j.rows|]) == key
    ensures |r.rows| == |j.rows| ==>
      key in r.records && Column(r.records[key], topic) == v &&
      (forall k :: k != key ==> (k in r.records <==> k in j.records))
    ensures |r.rows| > |j.rows| ==> r.records == j.records - {key}
  {
    var base := if key in j.records then j.records[key] else Record(Blank, Blank, Blank, Blank, key.1, key.0);
    var rec := WithMetric(base, topic, v).(ts := key.1, serverId := key.0);
    if Complete(rec) && key !in j.completed then
      Join(j.records - {key}, j.completed + {key}, j.rows + [RowOf(rec)])
    else
      Join(j.records[key := rec], j.completed, j.rows)
  }

  /** A key's row is written exactly when its record, with this measurement,
      has all four metrics and the key was not written before; the row is
      that record's. */
  lemma AbsorbWritesOnlyComplete(j: Join, topic: string, key: Key, v: Json)
    requires IsMetricTopic(topic)
    ensures var r := Absorb(j, topic, key, v);
      var base := if key in j.records then j.records[key] else Record(Blank, Blank, Blank, Blank, key.1, key.0);
      (|r.rows| > |j.rows| <==> Complete(WithMetric(base, topic, v)) && key !in j.completed) &&
      (|r.rows| > |j.rows| ==>
        r.rows[|j.rows|] == RowOf(WithMetric(base, topic, v).(ts := key.1, serverId := key.0)))
  {
  }

  /** A measurement touches only its own key's record: every other record
      keeps its metrics. */
  lemma AbsorbKeepsOtherRecords(j: Join, topic: string, key: Key, v: Json, k: Key)
    requires IsMetricTopic(topic) && k != key && k in j.records
    ensures k in Absorb(j, topic, key, v).records && Absorb(j, topic, key, v).records[k] == j.records[k]
  {
  }

  lemma AbsorbKeepsWrittenOnce(j: Join, topic: string, key: Key, v: Json)
    requires IsMetricTopic(topic) && WrittenOnce(j)
    ensures WrittenOnce(Absorb(j, topic, key, v))
  {
  }

  /** The state of a batch in progress: the join, `new_offset`, and whether an
      unusable message stopped the consumer. */
  datatype Batch = Batch(join: Join, offset: int, stopped: bool)

  /** One message of the loop: an accepted message moves `new_offset` past
      itself; a skipped one changes nothing; an unusable one stops. */
  function Step(b: Batch, topic: string, m: Delivered): (r: Batch)
    ensures b.stopped ==> r == b
    ensures !b.stopped ==> (r.stopped <==> Interpret(topic, m.data).Unusable?)
    ensures !b.stopped && Interpret(topic, m.data).Measurement? ==> r.offset == m.offset + 1
    ensures !(!b.stopped && Interpret(topic, m.data).Measurement?) ==> r.offset == b.offset && r.join == b.join
    ensures b.join.rows <= r.join.rows && b.join.completed <= r.join.completed
  {
    if b.stopped then b
    else match Interpret(topic, m.data)
      case Unusable => b.(stopped := true)
      case Skipped => b
      case Measurement(sid, ts, v) => Batch(Absorb(b.join, topic, (sid, ts), v), m.offset + 1, false)
  }

  /** The loop over a batch, message by message. */
  function Fold(b: Batch, topic: string, msgs: seq<Delivered>): (r: Batch)
    ensures b.join.rows <= r.join.rows && b.join.completed <= r.join.completed
    ensures b.stopped ==> r.stopped
  {
    if msgs == [] then b else Step(Fold(b, topic, msgs[..|msgs| - 1]), topic, msgs[|msgs| - 1])
  }

  /** Message `i` of a batch is read as a measurement and no later one is. */
  ghost predicate LastMeasurementAt(topic: string, msgs: seq<Delivered>, i: int)
  {
    0 <= i < |msgs| && Interpret(topic, msgs[i].data).Measurement? &&
    forall j :: i < j < |msgs| ==> !Interpret(topic, msgs[j].data).Measurement?
  }

  /** The offset of the last message of a batch that was not skipped. */
  function LastAccepted(topic: string, msgs: seq<Delivered>): (r: Option<int>)
    ensures r.Some? ==> exists i :: LastMeasurementAt(topic, msgs, i) && msgs[i].offset == r.value
    ensures r.None? ==> forall i :: 0 <= i < |msgs| ==> !Interpret(topic, msgs[i].data).Measurement?
  {
    if msgs == [] then None
    else
      var last := msgs[|msgs| - 1];
      if Interpret(topic, last.data).Measurement? then
        assert LastMeasurementAt(topic, msgs, |msgs| - 1);
        Some(last.offset)
      else
        var init := msgs[..|msgs| - 1];
        var r := LastAccepted(topic, init);
        assert forall i :: 0 <= i < |init| ==> init[i] == msgs[i];
        assert r.Some? ==> exists i :: LastMeasurementAt(topic, msgs, i) && msgs[i].offset == r.value by {
          if r.Some? {
            var i :| LastMeasurementAt(topic, init, i) && init[i].offset == r.value;
            assert LastMeasurementAt(topic, msgs, i);
          }
        }
        r
  }

  /** A batch stops exactly when it holds an unusable message. */
  predicate HasUnusable(topic: string, msgs: seq<Delivered>)
  {
    exists i :: 0 <= i < |msgs| && Interpret(topic, msgs[i].data).Unusable?
  }

  /** Once stopped, a batch stays where it stopped. */
  lemma {:induction false} FoldStopped(b: Batch, topic: string, msgs: seq<Delivered>)
    requires b.stopped
    ensures Fold(b, topic, msgs) == b
  {
    if msgs != [] {
      FoldStopped(b, topic, msgs[..|msgs| - 1]);
    }
  }

  /** After a batch with no unusable message, `new_offset` is one past the last
      accepted message, or the starting offset when every message was skipped. */
  lemma {:induction false} FoldOffset(b: Batch, topic: string, msgs: seq<Delivered>)
    requires !b.stopped
    ensures Fold(b, topic, msgs).stopped <==> HasUnusable(topic, msgs)
    ensures !HasUnusable(topic, msgs) ==>
      Fold(b, topic, msgs).offset == match LastAccepted(topic, msgs) case None => b.offset case Some(o) => o + 1
  {
    if msgs != [] {
      var init := msgs[..|msgs| - 1];
      var last := msgs[|msgs| - 1];
      FoldOffset(b, topic, init);
      assert forall i :: 0 <= i < |init| ==> init[i] == msgs[i];
      if HasUnusable(topic, init) {
        var i :| 0 <= i < |init| && Interpret(topic, init[i].data).Unusable?;
        assert Interpret(topic, msgs[i].data).Unusable?;
      }
      if HasUnusable(topic, msgs) && !Interpret(topic, last.data).Unusable? {
        var i :| 0 <= i < |msgs| && Interpret(topic, msgs[i].data).Unusable?;
        assert i < |init| && Interpret(topic, init[i].data).Unusable?;
      }
    }
  }

  /** A batch only adds rows and completed keys, keeps every written key unique,
      and writes no key that was completed before it. */
  lemma {:induction false} FoldWritesOnce(b: Batch, topic: string, msgs: seq<Delivered>)
    requires WrittenOnce(b.join)
    ensures var r := Fold(b, topic, msgs).join;
      WrittenOnce(r) && b.join.completed <= r.completed && b.join.rows <= r.rows &&
      (forall k :: |b.join.rows| <= k < |r.rows| ==> RowKey(r.rows[k]) !in b.join.completed)
  {
    if msgs != [] {
      var init := msgs[..|msgs| - 1];
      FoldWritesOnce(b, topic, init);
      var mid := Fold(b, topic, init);
      if !mid.stopped {
        match Interpret(topic, msgs[|msgs| - 1].data)
        case Unusable =>
        case Skipped =>
        case Measurement(sid, ts, v) =>
          AbsorbKeepsWrittenOnce(mid.join, topic, (sid, ts), v);
      }
    }
  }

  /** The batch order the consumer processes in: ascending `offset`. */
  predicate SortedByOffset(s: seq<Delivered>)
  {
    forall i, j :: 0 <= i < j < |s| ==> s[i].offset <= s[j].offset
  }

  /** Insert after every message with an offset not above `m`'s, which keeps
      equal offsets in arrival order. */
  function InsertByOffset(m: Delivered, s: seq<Delivered>): (r: seq<Delivered>)
    requires SortedByOffset(s)
    ensures SortedByOffset(r) && multiset(r) == multiset(s) + multiset{m}
    ensures forall x :: x in r ==> x == m || x in s
  {
    if s == [] || m.offset < s[0].offset then
      [m] + s
    else
      var rest := InsertByOffset(m, s[1..]);
      HeadBelowRest(s[0], m, s[1..], rest);
      ConsSorted(s[0], rest);
      assert s == [s[0]] + s[1..];
      [s[0]] + rest
  }

  lemma HeadBelowRest(h: Delivered, m: Delivered, tail: seq<Delivered>, rest: seq<Delivered>)
    requires h.offset <= m.offset
    requires forall i :: 0 <= i < |tail| ==> h.offset <= tail[i].offset
    requires forall x :: x in rest ==> x == m || x in tail
    ensures forall i :: 0 <= i < |rest| ==> h.offset <= rest[i].offset
  {
    forall i | 0 <= i < |rest|
      ensures h.offset <= rest[i].offset
    {
      assert rest[i] in rest;
    }
  }

  lemma ConsSorted(h: Delivered, rest: seq<Delivered>)
    requires SortedByOffset(rest)
    requires forall i :: 0 <= i < |rest| ==> h.offset <= rest[i].offset
    ensures SortedByOffset([h] + rest)
  {
  }

  /** `sorted(messages, key=offset)`: the batch ordered by offset. */
  function SortByOffset(s: seq<Delivered>): (r: seq<Delivered>)
    ensures SortedByOffset(r) && multiset(r) == multiset(s)
  {
    if s == [] then []
    else
      var init := s[..|s| - 1];
      assert s == init + [s[|s| - 1]];
      InsertByOffset(s[|s| - 1], SortByOffset(init))
  }

  /** Appending a message no earlier than the rest keeps it last. */
  lemma {:induction false} InsertLast(m: Delivered, s: seq<Delivered>)
    requires SortedByOffset(s) && forall i :: 0 <= i < |s| ==> s[i].offset <= m.offset
    ensures InsertByOffset(m, s) == s + [m]
  {
    if s != [] {
      var t := s[1..];
      assert SortedByOffset(t);
      InsertLast(m, t);
      assert InsertByOffset(m, s) == [s[0]] + InsertByOffset(m, t);
      assert s + [m] == [s[0]] + (t + [m]);
    }
  }

  /** A batch already in offset order is processed as it came. */
  lemma {:induction false} SortKeepsSorted(s: seq<Delivered>)
    requires SortedByOffset(s)
    ensures SortByOffset(s) == s
  {
    if s != [] {
      var init, last := SortedSplit(s);
      SortKeepsSorted(init);
      InsertLast(last, init);
    }
  }

  /** A sorted batch is its sorted prefix followed by a message no earlier
      than any of it, and sorting it inserts that message last. */
  lemma SortedSplit(s: seq<Delivered>) returns (init: seq<Delivered>, last: Delivered)
    requires SortedByOffset(s) && s != []
    ensures s == init + [last] && SortedByOffset(init)
    ensures forall i :: 0 <= i < |init| ==> init[i].offset <= last.offset
    ensures SortByOffset(s) == InsertByOffset(last, SortByOffset(init))
  {
    init, last := s[..|s| - 1], s[|s| - 1];
  }

  /** Every broker serves a batch in increasing offsets, so sorting it changes
      nothing. */
  lemma ServedBatchAlreadySorted(log: seq<Line>, from: int, hwm: int)
    ensures SortByOffset(Window(log, from, hwm)) == Window(log, from, hwm)
  {
    SortKeepsSorted(Window(log, from, hwm));
  }
}
