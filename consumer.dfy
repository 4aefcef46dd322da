/** The deduplicating consumer (consumer/consumer.py): offsets per topic and
    partition, restored from and saved to a JSON file; the tracked metric
    topics; the `completed` set, rebuilt from the CSV at start-up; and one poll
    of one partition. */
module Consumer {
  import opened Json
  import opened Reading
  import opened ConsumerJoin

  // ---------------------------------------------------------------- offsets

  /** `int(x)` on a decoded value: integers, booleans as 0/1, and strings in the
      form `str` writes; None, lists and objects are refused. */
  function IntOf(j: Json): (r: Option<int>)
    ensures j.JInt? ==> r == Some(j.i)
    ensures j.JBool? ==> r == Some(if j.b then 1 else 0)
    ensures j.JStr? ==> r == ParseInt(j.s)
    ensures j.JNull? || j.JList? || j.JObj? ==> r.None?
  {
    match j
    case JInt(i) => Some(i)
    case JBool(b) => Some(if b then 1 else 0)
    case JStr(s) => ParseInt(s)
    case _ => None
  }

  /** One topic's entry of the offset file: an object whose keys are partition
      ids and whose values are offsets, all convertible by `int`. */
  predicate PartitionOffsetsReadable(j: Json)
  {
    j.JObj? && forall k :: k in j.fields ==> ParseInt(k).Some? && IntOf(j.fields[k]).Some?
  }

  predicate OffsetsReadable(j: Json)
  {
    j.JObj? && forall t :: t in j.fields ==> PartitionOffsetsReadable(j.fields[t])
  }

  /** The partition ids of one topic's entry, read back as integers. */
  function PartitionIds(j: Json): (ids: set<int>)
    requires PartitionOffsetsReadable(j)
    ensures forall p :: p in ids <==> IntString(p) in j.fields
  {
    var ids := set k | k in j.fields :: ParseInt(k).value;
    assert forall p :: p in ids <==> IntString(p) in j.fields by {
      forall p
        ensures p in ids <==> IntString(p) in j.fields
      {
        IntStringRoundTrip(p);
        if p in ids {
          var k :| k in j.fields && ParseInt(k).value == p;
          ParseIntCanonical(k);
        }
      }
    }
    ids
  }

  function DecodePartitionOffsets(j: Json): (r: map<int, int>)
    requires PartitionOffsetsReadable(j)
    ensures forall p :: p in r <==> IntString(p) in j.fields
    ensures forall p :: p in r ==> r[p] == IntOf(j.fields[IntString(p)]).value
  {
    map p | p in PartitionIds(j) :: IntOf(j.fields[IntString(p)]).value
  }

  /** What the offset file holds for the consumer at start-up. */
  datatype OffsetFile = NoOffsetFile | NotJson | OffsetJson(content: Json)

  /** `_load_offsets`: no file or a file that is not JSON starts every offset
      at 0; a file of convertible entries gives those offsets with the
      partition ids read back as integers; any other content is refused
      (None), which Python turns into an empty table or a crash depending on
      which bad entry it meets first. */
  function LoadOffsets(file: OffsetFile): (r: Option<map<string, map<int, int>>>)
    ensures file.NoOffsetFile? || file.NotJson? ==> r == Some(map[])
    ensures file.OffsetJson? ==> (r.Some? <==> OffsetsReadable(file.content))
    ensures file.OffsetJson? && r.Some? ==> r.value.Keys == file.content.fields.Keys
    ensures file.OffsetJson? && r.Some? ==>
      forall t :: t in r.value ==> r.value[t] == DecodePartitionOffsets(file.content.fields[t])
  {
    match file
    case NoOffsetFile => Some(map[])
    case NotJson => Some(map[])
    case OffsetJson(j) =>
      if OffsetsReadable(j) then
        Some(map t | t in j.fields :: DecodePartitionOffsets(j.fields[t]))
      else None
  }

  /** One topic's entry as `json.dump` writes it: partition ids through `str`. */
  function SavePartitionOffsets(m: map<int, int>): (j: Json)
    ensures j.JObj?
    ensures forall p :: IntString(p) in j.fields <==> p in m
    ensures forall p :: p in m ==> j.fields[IntString(p)] == JInt(m[p])
    ensures forall k :: k in j.fields ==> ParseInt(k).Some? && j.fields[k].JInt?
  {
    var ids := set p | p in m :: IntString(p);
    assert forall k :: k in ids ==> ParseInt(k).Some? && ParseInt(k).value in m && IntString(ParseInt(k).value) == k by {
      forall k | k in ids
        ensures ParseInt(k).Some? && ParseInt(k).value in m && IntString(ParseInt(k).value) == k
      {
        var p :| p in m && IntString(p) == k;
        IntStringRoundTrip(p);
      }
    }
    var j := JObj(map k | k in ids :: JInt(m[ParseInt(k).value]));
    assert forall p :: IntString(p) in j.fields <==> p in m by {
      forall p
        ensures IntString(p) in j.fields <==> p in m
      {
        IntStringRoundTrip(p);
      }
    }
    assert forall p :: p in m ==> j.fields[IntString(p)] == JInt(m[p]) by {
      forall p | p in m
        ensures j.fields[IntString(p)] == JInt(m[p])
      {
        IntStringRoundTrip(p);
      }
    }
    j
  }

  /** `save_offsets`: `json.dump` of the whole table. */
  function SaveOffsets(offsets: map<string, map<int, int>>): (j: Json)
    ensures j.JObj? && j.fields.Keys == offsets.Keys
    ensures forall t :: t in offsets ==> j.fields[t] == SavePartitionOffsets(offsets[t])
  {
    JObj(map t | t in offsets :: SavePartitionOffsets(offsets[t]))
  }

  /** Decoding inverts an entry that holds exactly the offsets of `m`, each
      under `str` of its partition id. */
  lemma DecodeInverts(j: Json, m: map<int, int>)
    requires PartitionOffsetsReadable(j)
    requires forall p :: IntString(p) in j.fields <==> p in m
    requires forall p :: p in m ==> j.fields[IntString(p)] == JInt(m[p])
    ensures DecodePartitionOffsets(j) == m
  {
    var d := DecodePartitionOffsets(j);
    forall p
      ensures p in d <==> p in m
    {
      assert p in d <==> IntString(p) in j.fields;
    }
    assert d.Keys == m.Keys;
  }

  /** One topic's offsets read back from what was written are the same offsets. */
  lemma SavePartitionsThenDecode(m: map<int, int>)
    ensures PartitionOffsetsReadable(SavePartitionOffsets(m))
    ensures DecodePartitionOffsets(SavePartitionOffsets(m)) == m
  {
    DecodeInverts(SavePartitionOffsets(m), m);
  }

  /** Offsets saved and loaded again are the same offsets, so a restart resumes
      every partition where it stopped. */
  lemma SaveThenLoad(offsets: map<string, map<int, int>>)
    ensures LoadOffsets(OffsetJson(SaveOffsets(offsets))) == Some(offsets)
  {
    LoadInverts(SaveOffsets(offsets), offsets);
  }

  lemma LoadInverts(j: Json, offsets: map<string, map<int, int>>)
    requires j.JObj? && j.fields.Keys == offsets.Keys
    requires forall t :: t in offsets ==> j.fields[t] == SavePartitionOffsets(offsets[t])
    ensures LoadOffsets(OffsetJson(j)) == Some(offsets)
  {
    forall t | t in j.fields
      ensures PartitionOffsetsReadable(j.fields[t]) && DecodePartitionOffsets(j.fields[t]) == offsets[t]
    {
      SavePartitionsThenDecode(offsets[t]);
    }
    assert OffsetsReadable(j);
    var loaded := LoadOffsets(OffsetJson(j)).value;
    assert forall t :: t in offsets ==> loaded[t] == offsets[t];
    assert loaded.Keys == offsets.Keys;
    assert loaded == offsets;
  }

  /** `offsets.get(topic, {}).get(partition, 0)`. */
  function CurrentOffset(offsets: map<string, map<int, int>>, topic: string, partition: int): (o: int)
    ensures topic in offsets && partition in offsets[topic] ==> o == offsets[topic][partition]
    ensures !(topic in offsets && partition in offsets[topic]) ==> o == 0
  {
    if topic in offsets && partition in offsets[topic] then offsets[topic][partition] else 0
  }

  // ----------------------------------------------------------- discovery

  /** An entry of the leader's `/topics` list. */
  datatype TopicInfo = TopicInfo(name: string, partitions: int)

  /** `setdefault(i, 0)` for every `i in range(n)`. */
  function Pad(m: map<int, int>, n: int): (r: map<int, int>)
    ensures forall p :: p in m ==> p in r && r[p] == m[p]
  {
    if n <= 0 then m
    else var r := Pad(m, n - 1); if n - 1 in r then r else r[n - 1 := 0]
  }

  /** Padding keeps every known offset, adds the partitions `0..n-1` at 0, and
      nothing else. */
  lemma {:induction false} PadSpec(m: map<int, int>, n: int)
    ensures forall p :: p in m ==> p in Pad(m, n) && Pad(m, n)[p] == m[p]
    ensures forall p :: 0 <= p < n ==> p in Pad(m, n)
    ensures forall p :: p in Pad(m, n) ==> p in m || 0 <= p < n
    ensures forall p :: p in Pad(m, n) && p !in m ==> Pad(m, n)[p] == 0
  {
    if n > 0 {
      PadSpec(m, n - 1);
    }
  }

  /** The table after discovery saw `topics`: each listed metric topic gets its
      partitions padded in. */
  function Discovered(offsets: map<string, map<int, int>>, topics: seq<TopicInfo>): (r: map<string, map<int, int>>)
    ensures offsets.Keys <= r.Keys
  {
    if topics == [] then offsets
    else
      var r := Discovered(offsets, topics[..|topics| - 1]);
      var t := topics[|topics| - 1];
      if IsMetricTopic(t.name) then r[t.name := Pad(if t.name in r then r[t.name] else map[], t.partitions)] else r
  }

  /** `partition_counts` after discovery: the metric topics listed, with the
      count of their last listing. */
  function Tracked(topics: seq<TopicInfo>): (r: map<string, int>)
    ensures forall t :: t in r ==> IsMetricTopic(t)
  {
    if topics == [] then map[]
    else
      var r := Tracked(topics[..|topics| - 1]);
      var t := topics[|topics| - 1];
      if IsMetricTopic(t.name) then r[t.name := t.partitions] else r
  }

  /** Discovery never loses or changes an offset, touches only metric topics,
      and leaves every tracked partition with an offset. */
  lemma {:induction false} DiscoveredSpec(offsets: map<string, map<int, int>>, topics: seq<TopicInfo>)
    ensures var d := Discovered(offsets, topics);
      (forall t :: t in offsets ==> t in d) &&
      (forall t, p :: t in offsets && p in offsets[t] ==> p in d[t] && d[t][p] == offsets[t][p]) &&
      (forall t :: t in d && t !in offsets ==> IsMetricTopic(t)) &&
      (forall t :: t in offsets && !IsMetricTopic(t) ==> d[t] == offsets[t]) &&
      (forall t :: t in Tracked(topics) ==> t in d && forall p :: 0 <= p < Tracked(topics)[t] ==> p in d[t])
  {
    if topics != [] {
      var init := topics[..|topics| - 1];
      DiscoveredSpec(offsets, init);
      var r := Discovered(offsets, init);
      var t := topics[|topics| - 1];
      if IsMetricTopic(t.name) {
        PadSpec(if t.name in r then r[t.name] else map[], t.partitions);
      }
    }
  }

  // -------------------------------------------------------------- CSV

  /** The first position of `name` in a header row. */
  function IndexOf(header: seq<string>, name: string): (r: Option<nat>)
    ensures r.Some? ==> r.value < |header| && header[r.value] == name && name !in header[..r.value]
    ensures r.None? <==> name !in header
  {
    if header == [] then None
    else if header[0] == name then Some(0)
    else
      var r := IndexOf(header[1..], name);
      assert header == [header[0]] + header[1..];
      if r.None? then None
      else
        assert header[..r.value + 1] == [header[0]] + header[1..][..r.value];
        Some(r.value + 1)
  }

  /** The keys of the CSV rows long enough to hold both key columns. */
  function KeysOf(rows: seq<seq<string>>, tsIdx: nat, sidIdx: nat): set<Key>
  {
    if rows == [] then {}
    else
      var row := rows[|rows| - 1];
      KeysOf(rows[..|rows| - 1], tsIdx, sidIdx) +
        (if |row| > tsIdx && |row| > sidIdx then {(row[sidIdx], row[tsIdx])} else {})
  }

  /** A key is restored exactly when some long-enough row carries it. */
  lemma {:induction false} KeysOfSpec(rows: seq<seq<string>>, tsIdx: nat, sidIdx: nat, k: Key)
    ensures k in KeysOf(rows, tsIdx, sidIdx) <==>
      exists i :: 0 <= i < |rows| && |rows[i]| > tsIdx && |rows[i]| > sidIdx && (rows[i][sidIdx], rows[i][tsIdx]) == k
  {
    if rows != [] {
      var init := rows[..|rows| - 1];
      KeysOfSpec(init, tsIdx, sidIdx, k);
      assert forall i :: 0 <= i < |init| ==> init[i] == rows[i];
      if k in KeysOf(rows, tsIdx, sidIdx) && k !in KeysOf(init, tsIdx, sidIdx) {
        var i := |rows| - 1;
        assert |rows[i]| > tsIdx && |rows[i]| > sidIdx && (rows[i][sidIdx], rows[i][tsIdx]) == k;
      }
    }
  }

  /** The CSV as found at start-up: its header row, then its data rows. */
  datatype CsvFile = NoCsv | EmptyCsv | Csv(header: seq<string>, rows: seq<seq<string>>)

  /** `_load_or_init_csv`: a missing file is created and nothing is completed;
      an existing one gives the keys of its rows under its own header's `ts` and
      `server_id` columns. An empty file, or a header without either column,
      ends the process (None). */
  method RestoreCompleted(csv: CsvFile) returns (r: Option<set<Key>>)
    ensures csv.NoCsv? ==> r == Some({})
    ensures csv.EmptyCsv? ==> r.None?
    ensures csv.Csv? ==> (r.None? <==> "ts" !in csv.header || "server_id" !in csv.header)
    ensures csv.Csv? && r.Some? ==>
      r.value == KeysOf(csv.rows, IndexOf(csv.header, "ts").value, IndexOf(csv.header, "server_id").value)
  {
    match csv {
      case NoCsv => return Some({});
      case EmptyCsv => return None;
      case Csv(header, rows) =>
        var ts := IndexOf(header, "ts");
        var sid := IndexOf(header, "server_id");
        if ts.None? || sid.None? {
          return None;
        }
        var completed: set<Key> := {};
        var i := 0;
        while i < |rows|
          invariant 0 <= i <= |rows|
          invariant completed == KeysOf(rows[..i], ts.value, sid.value)
        {
          var row := rows[i];
          if |row| > ts.value && |row| > sid.value {
            completed := completed + {(row[sid.value], row[ts.value])};
          }
          assert rows[..i + 1][..i] == rows[..i];
          i := i + 1;
        }
        assert rows[..i] == rows;
        return Some(completed);
    }
  }

  // -------------------------------------------------------------- polling

  /** The leader's answer to `/topics`, or a network error. */
  datatype TopicsReply = TopicsAnswered(status: int, topics: seq<TopicInfo>) | TopicsUnreachable

  /** The leader's answer to `/consume`, or a network error. */
  datatype ConsumeReply = ConsumeAnswered(status: int, messages: seq<Delivered>) | ConsumeUnreachable

  datatype PollOutcome =
    | Polled
    | LeaderLost           // a non-200 answer or a network error: `current_leader` is cleared
    | Stopped              // an exception the consumer does not catch ends it

  class DeduplicatedConsumer {
    var currentLeader: Option<string>
    var partitionCounts: map<string, int>
    var offsets: map<string, map<int, int>>
    var records: map<Key, Record>
    var completed: set<Key>
    /** The rows this process appended to the CSV. */
    var rows: seq<CsvRow>

    /** Rows are written once per key, and every tracked topic has offsets. */
    ghost predicate Valid()
      reads this
    {
      WrittenOnce(Join(records, completed, rows)) &&
      (forall t :: t in partitionCounts ==> IsMetricTopic(t) && t in offsets)
    }

    /** `__init__` after `_load_offsets` and `_load_or_init_csv` succeeded. */
    constructor (offsets: map<string, map<int, int>>, completed: set<Key>)
      ensures Valid()
      ensures this.offsets == offsets && this.completed == completed
      ensures currentLeader == None && partitionCounts == map[] && records == map[] && rows == []
    {
      currentLeader := None;
      partitionCounts := map[];
      this.offsets := offsets;
      records := map[];
      this.completed := completed;
      rows := [];
    }

    /** `discover_all_topics`: without a leader nothing happens; a failed call
        clears the leader; otherwise the tracked topics are replaced by the
        listed metric topics, whose partitions get offset 0 where they had none. */
    method DiscoverAllTopics(reply: TopicsReply) returns (ok: bool)
      requires Valid()
      modifies this`currentLeader, this`partitionCounts, this`offsets
      ensures Valid()
      ensures old(currentLeader).None? ==> !ok && unchanged(this)
      ensures old(currentLeader).Some? && !(reply.TopicsAnswered? && reply.status == 200) ==>
        !ok && currentLeader == None && partitionCounts == old(partitionCounts) && offsets == old(offsets)
      ensures old(currentLeader).Some? && reply.TopicsAnswered? && reply.status == 200 ==>
        ok && currentLeader == old(currentLeader) &&
        partitionCounts == Tracked(reply.topics) && offsets == Discovered(old(offsets), reply.topics)
    {
      if currentLeader.None? {
        return false;
      }
      if !(reply.TopicsAnswered? && reply.status == 200) {
        currentLeader := None;
        return false;
      }
      var topics := reply.topics;
      var counts: map<string, int> := map[];
      var table := offsets;
      var i := 0;
      while i < |topics|
        invariant 0 <= i <= |topics|
        invariant unchanged(this)
        invariant counts == Tracked(topics[..i])
        invariant table == Discovered(old(offsets), topics[..i])
      {
        var t := topics[i];
        if IsMetricTopic(t.name) {
          counts := counts[t.name := t.partitions];
          var padded := PadPartitions(if t.name in table then table[t.name] else map[], t.partitions);
          table := table[t.name := padded];
        }
        assert topics[..i + 1][..i] == topics[..i];
        i := i + 1;
      }
      assert topics[..i] == topics;
      DiscoveredSpec(old(offsets), topics);
      partitionCounts, offsets := counts, table;
      return true;
    }

    /** One poll of one partition. A failed call clears the leader and changes
        nothing else; an empty batch changes nothing; otherwise the batch is
        sorted by offset and folded into the join, and the partition's offset
        becomes one past the last accepted message (unchanged when all were
        skipped). An unusable message stops the consumer mid-batch, and so
        does a batch for a topic without an offset table, after the batch. */
    method ConsumeFromPartition(topic: string, partition: int, reply: ConsumeReply) returns (outcome: PollOutcome)
      requires Valid()
      modifies this`currentLeader, this`offsets, this`records, this`completed, this`rows
      ensures Valid()
      ensures !(reply.ConsumeAnswered? && reply.status == 200) ==>
        outcome == LeaderLost && currentLeader == None &&
        offsets == old(offsets) && records == old(records) && completed == old(completed) && rows == old(rows)
      ensures reply.ConsumeAnswered? && reply.status == 200 ==> currentLeader == old(currentLeader)
      ensures reply.ConsumeAnswered? && reply.status == 200 ==>
        var start := Batch(Join(old(records), old(completed), old(rows)), CurrentOffset(old(offsets), topic, partition), false);
        var b := Fold(start, topic, SortByOffset(reply.messages));
        Join(records, completed, rows) == b.join &&
        (reply.messages == [] ==> outcome == Polled && offsets == old(offsets)) &&
        (reply.messages != [] && (b.stopped || topic !in old(offsets)) ==> outcome == Stopped && offsets == old(offsets)) &&
        (reply.messages != [] && !b.stopped && topic in old(offsets) ==>
          outcome == Polled && offsets == old(offsets)[topic := old(offsets)[topic][partition := b.offset]])
    {
      if !(reply.ConsumeAnswered? && reply.status == 200) {
        currentLeader := None;
        return LeaderLost;
      }
      var current := CurrentOffset(offsets, topic, partition);
      var msgs := SortByOffset(reply.messages);
      if msgs == [] {
        return Polled;
      }
      ghost var start := Batch(Join(records, completed, rows), current, false);
      var newOffset, stopped := ProcessBatch(topic, msgs, current);
      FoldWritesOnce(start, topic, msgs);
      if stopped {
        return Stopped;
      }
      if topic !in offsets {
        return Stopped;
      }
      offsets := offsets[topic := offsets[topic][partition := newOffset]];
      return Polled;
    }

    /** The loop over a sorted batch, stopping at an unusable message. */
    method ProcessBatch(topic: string, msgs: seq<Delivered>, current: int) returns (newOffset: int, stopped: bool)
      modifies this`records, this`completed, this`rows
      ensures Batch(Join(records, completed, rows), newOffset, stopped) ==
        Fold(Batch(Join(old(records), old(completed), old(rows)), current, false), topic, msgs)
    {
      ghost var start := Batch(Join(records, completed, rows), current, false);
      newOffset := current;
      stopped := false;
      var i := 0;
      while i < |msgs| && !stopped
        invariant 0 <= i <= |msgs|
        invariant Batch(Join(records, completed, rows), newOffset, stopped) == Fold(start, topic, msgs[..i])
      {
        var m := msgs[i];
        match Interpret(topic, m.data) {
          case Unusable =>
            stopped := true;
          case Skipped =>
          case Measurement(sid, ts, v) =>
            TakeMeasurement(topic, (sid, ts), v);
            newOffset := m.offset + 1;
        }
        assert msgs[..i + 1][..i] == msgs[..i];
        i := i + 1;
      }
      if stopped {
        FoldStopped(Fold(start, topic, msgs[..i]), topic, msgs[i..]);
        FoldSplit(start, topic, msgs[..i], msgs[i..]);
        assert msgs[..i] + msgs[i..] == msgs;
      } else {
        assert msgs[..i] == msgs;
      }
    }

    /** The body of the loop for an accepted message: set the key's metric,
        `ts` and `server_id`, and write, complete and drop a record that is
        complete and not yet written. */
    method TakeMeasurement(topic: string, key: Key, v: Json)
      requires IsMetricTopic(topic)
      modifies this`records, this`completed, this`rows
      ensures Join(records, completed, rows) == Absorb(Join(old(records), old(completed), old(rows)), topic, key, v)
    {
      var rec := if key in records then records[key] else Record(Blank, Blank, Blank, Blank, key.1, key.0);
      rec := WithMetric(rec, topic, v).(ts := key.1, serverId := key.0);
      records := records[key := rec];
      if Complete(rec) && key !in completed {
        rows := rows + [RowOf(rec)];
        completed := completed + {key};
        records := records - {key};
        assert records == old(records) - {key};
      }
    }
  }

  /** `setdefault(i, 0)` for `i in range(n)`, on one topic's offsets. */
  method PadPartitions(m: map<int, int>, n: int) returns (r: map<int, int>)
    ensures r == Pad(m, n)
  {
    r := m;
    if n <= 0 {
      return;
    }
    var i := 0;
    while i < n
      invariant 0 <= i <= n
      invariant r == Pad(m, i)
    {
      if i !in r {
        r := r[i := 0];
      }
      i := i + 1;
    }
  }

  lemma {:induction false} FoldSplit(b: Batch, topic: string, xs: seq<Delivered>, ys: seq<Delivered>)
    ensures Fold(b, topic, xs + ys) == Fold(Fold(b, topic, xs), topic, ys)
  {
    if ys != [] {
      FoldSplit(b, topic, xs, ys[..|ys| - 1]);
      assert (xs + ys)[..|xs + ys| - 1] == xs + ys[..|ys| - 1];
    } else {
      assert xs + ys == xs;
    }
  }
}
