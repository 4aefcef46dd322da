/** The partitioned follower (follower/follower_with_topics_partitions.py): a
    topic table of partition log files, replication into a named partition,
    an idempotent produce for a promoted leader that routes by key, and an
    inclusive HWM-gated consume per partition. */
module PartitionFollower {
  import opened Json
  import opened Reading
  import opened Activity
  import opened Store
  import opened Election
  import opened Routing
  import Lease

  datatype ReplicateResult =
    | RefusedAsLeader            // 400
    | EmptyReplica               // 400: empty or falsy body
    | MissingTopicOrPartition    // 400
    | InvalidPartition           // 400
    | WriteFailed                // 500: an exception caught by the handler
    | Ack

  /** What goes wrong inside the produce handler's `try` block, if anything:
      writing the partition log, or the HWM increment after it. */
  datatype Fault = NoFault | WriteFails | CommitFails

  datatype ProduceResult =
    | NoLeader                          // 503
    | NotLeader(leaderId: string)       // 400
    | NoData                            // 400
    | Crash                             // 500 raised outside the handler's `try`
    | MissingMsgId                      // 400
    | Duplicate(msgId: Json)            // 200 `success_duplicate`
    | Failed                            // 500 after the lock was released again
    | Stored(offset: int, topic: string, partition: int)   // 200 `success_new`

  datatype ConsumeResult =
    | ConsumeNotLeader                  // 400
    | InvalidParameters                 // 400
    | UnknownTopic                      // 404 with no messages
    | UnknownPartition                  // 404 with no messages
    | Messages(messages: seq<Delivered>, highWaterMark: Option<int>)

  /** `data_payload.get('topic') or data.get('topic') or 'default'`. */
  function ProduceTopic(body: Json, payload: Json): (t: Json)
    requires body.JObj? && payload.JObj?
    ensures Truthy(t)
    ensures Truthy(GetOr(payload, "topic", JNull)) ==> t == payload.fields["topic"]
    ensures !Truthy(GetOr(payload, "topic", JNull)) && Truthy(GetOr(body, "topic", JNull)) ==> t == body.fields["topic"]
    ensures !Truthy(GetOr(payload, "topic", JNull)) && !Truthy(GetOr(body, "topic", JNull)) ==> t == JStr("default")
  {
    var inner := GetOr(payload, "topic", JNull);
    var outer := GetOr(body, "topic", JNull);
    if Truthy(inner) then inner else if Truthy(outer) then outer else JStr("default")
  }

  /** `data_payload.get('key') or data.get('key')`: the outer value, possibly
      None, when the inner one is falsy. */
  function ProduceKey(body: Json, payload: Json): (k: Json)
    requires body.JObj? && payload.JObj?
    ensures Truthy(GetOr(payload, "key", JNull)) ==> k == payload.fields["key"]
    ensures !Truthy(GetOr(payload, "key", JNull)) ==> k == GetOr(body, "key", JNull)
  {
    var inner := GetOr(payload, "key", JNull);
    if Truthy(inner) then inner else GetOr(body, "key", JNull)
  }

  /** Python's `None` is the missing key of `get_partition_for_key`. */
  function KeyArg(key: Json): (r: Option<Json>)
    ensures r.None? <==> key == JNull
    ensures r.Some? ==> r.value == key
  {
    if key == JNull then None else Some(key)
  }

  /** The line a new message is stored as. */
  function StoredMessage(msgId: Json, topic: Json, partition: int, key: Json, payload: Json, stamp: Json): (m: Json)
    ensures m.JObj? && Truthy(m)
    ensures GetOr(m, "msg_id", JNull) == msgId && GetOr(m, "topic", JNull) == topic
    ensures IntKey(GetOr(m, "partition", JNull)) == Some(partition)
  {
    assert "msg_id" in map["msg_id" := msgId];
    JObj(map["msg_id" := msgId, "topic" := topic, "partition" := JInt(partition), "key" := key,
             "payload" := payload, "timestamp" := stamp])
  }

  /** The topic metrics after `ensure_topic_exists(topic)`: an entry of zero
      messages is added only when the topic had none. */
  function SeededStats(stats: map<string, TopicStats>, topic: string): (r: map<string, TopicStats>)
    ensures topic in r && r.Keys == stats.Keys + {topic}
    ensures topic in stats ==> r == stats
    ensures topic !in stats ==> r[topic] == TopicStats(DefaultPartitions, 0)
  {
    if topic in stats then stats else stats[topic := TopicStats(DefaultPartitions, 0)]
  }

  /** A replica that reaches `ensure_topic_exists`: an object naming a topic
      and a partition, whose topic can be a dictionary key. */
  predicate NamesTopicAndPartition(body: Json)
  {
    body.JObj? && Truthy(body) && GetOr(body, "topic", JNull) != JNull &&
    GetOr(body, "partition", JNull) != JNull && Hashable(body.fields["topic"])
  }

  /** A produce request that reaches the idempotency check: an object with a
      truthy `msg_id` whose `data` (default `{}`) is an object. */
  predicate ReachesLock(body: Json)
  {
    body.JObj? && Truthy(body) && Truthy(GetOr(body, "msg_id", JNull)) && GetOr(body, "data", JObj(map[])).JObj?
  }

  class PartitionFollower {
    const id: string
    const feed: ActivityFeed
    const role: WatchedLeadership
    /** `TOPICS`: topic name to partition id to log file. */
    var topics: map<string, map<int, string>>
    var topicStats: map<string, TopicStats>
    /** The log files that exist, by name. */
    var logs: map<string, seq<Line>>
    var messagesProduced: nat
    var messagesConsumed: nat
    var replicationsReceived: nat
    var lastReplication: Option<string>

    /** Every known topic has the standard partition table and an entry in the
        topic metrics. */
    ghost predicate Valid()
      reads this, role, feed
    {
      role.feed == feed && role.id == id && role.Valid() &&
      (forall t :: t in topics ==> t in topicStats && StandardTable(id, t, DefaultPartitions, topics[t]))
    }

    constructor (id: string)
      requires id != ""
      ensures Valid() && this.id == id && !role.isLeader && fresh(role) && fresh(feed)
      ensures topics == map[] && topicStats == map[] && logs == map[] && feed.entries == []
      ensures messagesProduced == 0 && messagesConsumed == 0 && replicationsReceived == 0 && lastReplication == None
    {
      this.id := id;
      var f := new ActivityFeed();
      feed := f;
      role := new WatchedLeadership(id, f);
      topics := map[];
      topicStats := map[];
      logs := map[];
      messagesProduced := 0;
      messagesConsumed := 0;
      replicationsReceived := 0;
      lastReplication := None;
    }

    /** `ensure_topic_exists(topic)`: a new topic gets partitions 0..2, each with
        its own log file, and topic metrics unless it already had some; a known
        topic changes nothing. Returns the topic's partition table. */
    method EnsureTopicExists(topic: string, now: string) returns (partitions: map<int, string>)
      requires Valid()
      modifies this`topics, this`topicStats, feed
      ensures Valid()
      ensures TopicsEnsured(id, topic, old(topics), topics) && partitions == topics[topic]
      ensures topicStats == SeededStats(old(topicStats), topic)
      ensures feed.entries == EnsuredFeed(old(topics), old(feed.entries), topic, now)
    {
      if topic !in topics {
        var table := PartitionTable(id, topic);
        topics := topics[topic := table];
        if topic !in topicStats {
          topicStats := topicStats[topic := TopicStats(DefaultPartitions, 0)];
        }
        feed.Add("topic", TopicEnsured(topic, DefaultPartitions), now);
      }
      partitions := topics[topic];
    }

    /** `handle_replicate`: refused while leader; otherwise the body is appended
        to the log of the partition it names, creating the topic first. A topic
        is created even when the partition then turns out not to exist. */
    method HandleReplicate(body: Json, now: string) returns (r: ReplicateResult)
      requires Valid()
      modifies this`topics, this`topicStats, this`logs, this`replicationsReceived, this`lastReplication, feed
      ensures Valid()
      ensures role.isLeader ==> r == RefusedAsLeader
      ensures !role.isLeader && !Truthy(body) ==> r == EmptyReplica
      ensures !role.isLeader && Truthy(body) && !body.JObj? ==> r == WriteFailed
      ensures !role.isLeader && body.JObj? && Truthy(body) &&
              (GetOr(body, "topic", JNull) == JNull || GetOr(body, "partition", JNull) == JNull) ==>
        r == MissingTopicOrPartition
      ensures !role.isLeader && body.JObj? && Truthy(body) && GetOr(body, "topic", JNull) != JNull &&
              GetOr(body, "partition", JNull) != JNull && !Hashable(body.fields["topic"]) ==>
        r == WriteFailed
      ensures !role.isLeader && NamesTopicAndPartition(body) && !Hashable(body.fields["partition"]) ==> r == WriteFailed
      ensures !role.isLeader && NamesTopicAndPartition(body) && Hashable(body.fields["partition"]) &&
              !(IntKey(body.fields["partition"]).Some? && 0 <= IntKey(body.fields["partition"]).value < DefaultPartitions) ==>
        r == InvalidPartition
      ensures r == Ack <==>
        !role.isLeader && NamesTopicAndPartition(body) &&
        IntKey(body.fields["partition"]).Some? && 0 <= IntKey(body.fields["partition"]).value < DefaultPartitions
      ensures r != Ack ==>
        logs == old(logs) && replicationsReceived == old(replicationsReceived) && lastReplication == old(lastReplication)
      ensures !(!role.isLeader && NamesTopicAndPartition(body)) ==>
        topics == old(topics) && topicStats == old(topicStats) && feed.entries == old(feed.entries)
      ensures !role.isLeader && NamesTopicAndPartition(body) ==>
        var topic := Render(body.fields["topic"]);
        TopicsEnsured(id, topic, old(topics), topics) && topicStats == SeededStats(old(topicStats), topic) &&
        feed.entries ==
          if r == Ack then Pushed(EnsuredFeed(old(topics), old(feed.entries), topic, now),
                                  Activity("replicate", ReplicaReceived(topic, body.fields["partition"]), now))
          else EnsuredFeed(old(topics), old(feed.entries), topic, now)
      ensures r == Ack ==>
        var topic := Render(body.fields["topic"]);
        var file := PartitionFileName(id, topic, IntKey(body.fields["partition"]).value);
        logs == old(logs)[file := LogOf(old(logs), file) + [Entry(body)]] &&
        replicationsReceived == old(replicationsReceived) + 1 && lastReplication == Some(now)
    {
      if role.isLeader {
        return RefusedAsLeader;
      }
      if !Truthy(body) {
        return EmptyReplica;
      }
      if !body.JObj? {
        return WriteFailed;
      }
      var topic := GetOr(body, "topic", JNull);
      var partitionId := GetOr(body, "partition", JNull);
      if topic == JNull || partitionId == JNull {
        return MissingTopicOrPartition;
      }
      if !Hashable(topic) {
        return WriteFailed;
      }
      var name := Render(topic);
      var partitions := EnsureTopicExists(name, now);
      if !Hashable(partitionId) {
        return WriteFailed;
      }
      var p := IntKey(partitionId);
      if p.None? || p.value !in partitions {
        return InvalidPartition;
      }
      StoreReplica(name, p.value, partitionId, body, now);
      return Ack;
    }

    /** The write and the metrics of an accepted replica. */
    method StoreReplica(topic: string, p: int, partitionId: Json, body: Json, now: string)
      requires Valid() && topic in topics && p in topics[topic]
      modifies this`logs, this`replicationsReceived, this`lastReplication, feed
      ensures Valid()
      ensures var file := PartitionFileName(id, topic, p);
        logs == old(logs)[file := LogOf(old(logs), file) + [Entry(body)]]
      ensures replicationsReceived == old(replicationsReceived) + 1 && lastReplication == Some(now)
      ensures feed.entries == Pushed(old(feed.entries), Activity("replicate", ReplicaReceived(topic, partitionId), now))
    {
      var file := topics[topic][p];
      logs := logs[file := LogOf(logs, file) + [Entry(body)]];
      replicationsReceived := replicationsReceived + 1;
      lastReplication := Some(now);
      feed.Add("replicate", ReplicaReceived(topic, partitionId), now);
    }

    /** `handle_produce` of a promoted leader, with the idempotency lock
        `yak_msg_lock:{msg_id}`: a known id is answered as a duplicate without
        writing; a new one takes the lock and goes to `WriteNew`. `hash` is the
        process's `hash()`, `stamp` the `time.time()` value. */
    method HandleProduce(store: Redis, body: Json, hash: Json -> int, fault: Fault, stamp: Json, now: string)
      returns (r: ProduceResult)
      requires Valid()
      modifies this`topics, this`topicStats, this`logs, this`messagesProduced, feed
      modifies store`counters, store`locks
      ensures Valid()
      ensures !role.isLeader ==>
        r == (match Lease.Holder(store.lease) case None => NoLeader case Some(h) => NotLeader(h))
      ensures role.isLeader ==> !r.NoLeader? && !r.NotLeader?
      ensures role.isLeader && !Truthy(body) ==> r == NoData
      ensures role.isLeader && Truthy(body) && !body.JObj? ==> r == Crash
      ensures role.isLeader && body.JObj? && Truthy(body) && !Truthy(GetOr(body, "msg_id", JNull)) ==> r == MissingMsgId
      ensures role.isLeader && body.JObj? && Truthy(body) && Truthy(GetOr(body, "msg_id", JNull)) &&
              !GetOr(body, "data", JObj(map[])).JObj? ==>
        r == Crash
      ensures role.isLeader && ReachesLock(body) && Render(body.fields["msg_id"]) in old(store.locks) ==>
        r == Duplicate(body.fields["msg_id"])
      ensures role.isLeader && ReachesLock(body) && Render(body.fields["msg_id"]) !in old(store.locks) ==>
        var payload := GetOr(body, "data", JObj(map[]));
        (r.Failed? || r.Stored?) &&
        (r.Stored? <==> Hashable(ProduceTopic(body, payload)) && Hashable(ProduceKey(body, payload)) && fault == NoFault)
      ensures r.Duplicate? ==> Render(r.msgId) in old(store.locks)
      ensures !(r.Failed? || r.Stored?) ==>
        logs == old(logs) && store.counters == old(store.counters) && store.locks == old(store.locks) &&
        messagesProduced == old(messagesProduced) && topics == old(topics) && topicStats == old(topicStats) &&
        feed.entries == old(feed.entries)
      ensures r.Failed? || r.Stored? ==>
        role.isLeader && ReachesLock(body) && Render(body.fields["msg_id"]) !in old(store.locks) &&
        messagesProduced == old(messagesProduced) + 1
      ensures r.Failed? || r.Stored? ==>
        var payload := GetOr(body, "data", JObj(map[]));
        var topic := ProduceTopic(body, payload);
        var name := Render(topic);
        var announced := Pushed(old(feed.entries), Activity("produce", ProduceForTopic(name), now));
        if Hashable(topic) then
          TopicsEnsured(id, name, old(topics), topics) &&
          feed.entries == EnsuredFeed(old(topics), announced, name, now) &&
          topicStats == if Hashable(ProduceKey(body, payload)) && fault != WriteFails
                        then Counted(SeededStats(old(topicStats), name), name)
                        else SeededStats(old(topicStats), name)
        else
          topics == old(topics) && topicStats == old(topicStats) && feed.entries == announced
      ensures r.Failed? ==> store.locks == old(store.locks) && store.counters == old(store.counters)
      ensures r.Failed? ==>
        var payload := GetOr(body, "data", JObj(map[]));
        var topic := ProduceTopic(body, payload);
        var key := ProduceKey(body, payload);
        if fault == CommitFails && Hashable(topic) && Hashable(key) then
          var p := PartitionForKey(KeyArg(key), DefaultPartitions, hash);
          var file := PartitionFileName(id, Render(topic), p);
          var message := StoredMessage(body.fields["msg_id"], topic, p, key, GetOr(payload, "payload", payload), stamp);
          logs == old(logs)[file := LogOf(old(logs), file) + [Entry(message)]]
        else logs == old(logs)
      ensures r.Stored? ==>
        var payload := GetOr(body, "data", JObj(map[]));
        var topic := ProduceTopic(body, payload);
        var key := ProduceKey(body, payload);
        r.topic == Render(topic) && r.partition == PartitionForKey(KeyArg(key), DefaultPartitions, hash) &&
        0 <= r.partition < DefaultPartitions &&
        store.locks == old(store.locks) + {Render(body.fields["msg_id"])} &&
        r.offset == old(store.Count(PartitionHwm(r.topic, r.partition))) + 1 &&
        store.counters == old(store.counters)[PartitionHwm(r.topic, r.partition) := r.offset]
      ensures r.Stored? ==>
        var payload := GetOr(body, "data", JObj(map[]));
        var file := PartitionFileName(id, r.topic, r.partition);
        var message := StoredMessage(body.fields["msg_id"], ProduceTopic(body, payload), r.partition,
                                     ProduceKey(body, payload), GetOr(payload, "payload", payload), stamp);
        logs == old(logs)[file := LogOf(old(logs), file) + [Entry(message)]]
    {
      if !role.isLeader {
        var holder := Lease.Holder(store.lease);
        if holder.None? {
          return NoLeader;
        }
        return NotLeader(holder.value);
      }
      if !Truthy(body) {
        return NoData;
      }
      if !body.JObj? {
        return Crash;
      }
      var msgId := GetOr(body, "msg_id", JNull);
      if !Truthy(msgId) {
        return MissingMsgId;
      }
      var payload := GetOr(body, "data", JObj(map[]));
      if !payload.JObj? {
        return Crash;
      }
      var topic := ProduceTopic(body, payload);
      var key := ProduceKey(body, payload);
      var lock := Render(msgId);
      var isNew := store.SetLockIfAbsent(lock);
      if !isNew {
        return Duplicate(msgId);
      }
      messagesProduced := messagesProduced + 1;
      feed.Add("produce", ProduceForTopic(Render(topic)), now);
      r := WriteNew(store, msgId, topic, key, GetOr(payload, "payload", payload), hash, fault, stamp, now);
    }

    /** Idempotence of `handle_produce`: a request stored once and then sent
        again with the same `msg_id` is answered as a duplicate, so the log
        holds its line once and the partition HWM moved once. */
    method ProduceTwice(store: Redis, body: Json, hash: Json -> int, stamp: Json, now: string, later: string)
      returns (first: ProduceResult, second: ProduceResult)
      requires Valid() && role.isLeader && ReachesLock(body) && Render(body.fields["msg_id"]) !in store.locks
      requires var payload := GetOr(body, "data", JObj(map[]));
        Hashable(ProduceTopic(body, payload)) && Hashable(ProduceKey(body, payload))
      modifies this`topics, this`topicStats, this`logs, this`messagesProduced, feed
      modifies store`counters, store`locks
      ensures Valid()
      ensures first.Stored? && 0 <= first.partition < DefaultPartitions && second == Duplicate(body.fields["msg_id"])
      ensures var payload := GetOr(body, "data", JObj(map[]));
        var file := PartitionFileName(id, first.topic, first.partition);
        var message := StoredMessage(body.fields["msg_id"], ProduceTopic(body, payload), first.partition,
                                     ProduceKey(body, payload), GetOr(payload, "payload", payload), stamp);
        logs == old(logs)[file := LogOf(old(logs), file) + [Entry(message)]]
      ensures store.counters == old(store.counters)[PartitionHwm(first.topic, first.partition) := first.offset]
      ensures messagesProduced == old(messagesProduced) + 1
    {
      first := HandleProduce(store, body, hash, NoFault, stamp, now);
      second := HandleProduce(store, body, hash, NoFault, stamp, later);
    }

    /** The `try` block of `handle_produce`, entered holding the lock of
        `msgId`: create the topic, route the key, append the message to that
        partition's log, count it, and commit it on the partition's HWM. Any
        exception (an unhashable topic or key, a failed write or increment)
        releases the lock; a line written before the failure stays in the log. */
    method WriteNew(store: Redis, msgId: Json, topic: Json, key: Json, content: Json, hash: Json -> int,
                    fault: Fault, stamp: Json, now: string) returns (r: ProduceResult)
      requires Valid()
      modifies this`topics, this`topicStats, this`logs, feed, store`counters, store`locks
      ensures Valid()
      ensures r.Failed? || r.Stored?
      ensures r.Failed? ==> store.locks == old(store.locks) - {Render(msgId)} && store.counters == old(store.counters)
      ensures r.Failed? && (!Hashable(topic) || !Hashable(key) || fault == WriteFails) ==> logs == old(logs)
      ensures r.Stored? <==> Hashable(topic) && Hashable(key) && fault == NoFault
      ensures !Hashable(topic) ==>
        topics == old(topics) && topicStats == old(topicStats) && feed.entries == old(feed.entries)
      ensures Hashable(topic) ==>
        var name := Render(topic);
        TopicsEnsured(id, name, old(topics), topics) &&
        feed.entries == EnsuredFeed(old(topics), old(feed.entries), name, now) &&
        topicStats == if Hashable(key) && fault != WriteFails then Counted(SeededStats(old(topicStats), name), name)
                      else SeededStats(old(topicStats), name)
      ensures r.Stored? ==>
        r.topic == Render(topic) && r.partition == PartitionForKey(KeyArg(key), DefaultPartitions, hash) &&
        0 <= r.partition < DefaultPartitions && store.locks == old(store.locks) &&
        r.offset == old(store.Count(PartitionHwm(r.topic, r.partition))) + 1 &&
        store.counters == old(store.counters)[PartitionHwm(r.topic, r.partition) := r.offset]
      ensures r.Stored? || (fault == CommitFails && Hashable(topic) && Hashable(key)) ==>
        var file := PartitionFileName(id, Render(topic), PartitionForKey(KeyArg(key), DefaultPartitions, hash));
        var message := StoredMessage(msgId, topic, PartitionForKey(KeyArg(key), DefaultPartitions, hash), key, content, stamp);
        logs == old(logs)[file := LogOf(old(logs), file) + [Entry(message)]]
    {
      if !Hashable(topic) {
        store.DeleteLock(Render(msgId));
        return Failed;
      }
      var name := Render(topic);
      var partitions := EnsureTopicExists(name, now);
      assert logs == old(logs) && store.counters == old(store.counters) && store.locks == old(store.locks);
      assert topicStats == SeededStats(old(topicStats), name);
      if !Hashable(key) {
        store.DeleteLock(Render(msgId));
        return Failed;
      }
      var p := PartitionForKey(KeyArg(key), |partitions|, hash);
      assert |partitions| == DefaultPartitions;
      r := AppendAndCommit(store, name, p, StoredMessage(msgId, topic, p, key, content, stamp), fault, Render(msgId));
    }

    /** The rest of the `try` block once the partition is known: append the
        message to the partition's log, count it in the topic metrics, and
        increment `hwm:{topic}:{partition}`. */
    method AppendAndCommit(store: Redis, topic: string, p: int, message: Json, fault: Fault, lock: string)
      returns (r: ProduceResult)
      requires Valid() && topic in topics && p in topics[topic]
      modifies this`topicStats, this`logs, store`counters, store`locks
      ensures Valid()
      ensures r.Failed? || r.Stored?
      ensures r.Failed? <==> fault != NoFault
      ensures r.Failed? ==> store.locks == old(store.locks) - {lock} && store.counters == old(store.counters)
      ensures fault == WriteFails ==> logs == old(logs) && topicStats == old(topicStats)
      ensures fault != WriteFails ==>
        var file := PartitionFileName(id, topic, p);
        logs == old(logs)[file := LogOf(old(logs), file) + [Entry(message)]] &&
        topicStats == Counted(old(topicStats), topic)
      ensures r.Stored? ==>
        r == Stored(old(store.Count(PartitionHwm(topic, p))) + 1, topic, p) && store.locks == old(store.locks) &&
        store.counters == old(store.counters)[PartitionHwm(topic, p) := r.offset]
    {
      var file := topics[topic][p];
      if fault == WriteFails {
        store.DeleteLock(lock);
        return Failed;
      }
      logs := logs[file := LogOf(logs, file) + [Entry(message)]];
      var stats := topicStats[topic];
      topicStats := topicStats[topic := stats.(messages := stats.messages + 1)];
      if fault == CommitFails {
        store.DeleteLock(lock);
        return Failed;
      }
      var hwm := store.Incr(PartitionHwm(topic, p));
      return Stored(hwm, topic, p);
    }

    /** `handle_consume`: the committed lines of one partition from position
        `offset` on (inclusive), up to that partition's HWM. */
    method HandleConsume(store: Redis, topicArg: Option<string>, partitionArg: IntArg, offsetArg: IntArg, now: string)
      returns (r: ConsumeResult)
      requires Valid()
      modifies this`messagesConsumed, feed
      ensures Valid()
      ensures !role.isLeader ==> r == ConsumeNotLeader
      ensures role.isLeader && (partitionArg.NotAnInt? || offsetArg.NotAnInt?) ==> r == InvalidParameters
      ensures role.isLeader && !partitionArg.NotAnInt? && !offsetArg.NotAnInt? ==>
        var topic := if topicArg.Some? then topicArg.value else "default";
        var partition := IntArgOr(partitionArg, 0).value;
        var offset := IntArgOr(offsetArg, 0).value;
        r == if topic !in topics then UnknownTopic
             else if !(0 <= partition < DefaultPartitions) then UnknownPartition
             else
               var file := PartitionFileName(id, topic, partition);
               var hwm := store.Count(PartitionHwm(topic, partition));
               if file !in logs then Messages([], None) else Messages(Window(logs[file], offset, hwm), Some(hwm))
      ensures r.Messages? && r.highWaterMark.Some? ==>
        messagesConsumed == old(messagesConsumed) + |r.messages| &&
        feed.entries == if r.messages == [] then old(feed.entries)
          else Pushed(old(feed.entries), Activity("consume",
            ServedPartition(|r.messages|, if topicArg.Some? then topicArg.value else "default", IntArgOr(partitionArg, 0).value), now))
      ensures !(r.Messages? && r.highWaterMark.Some?) ==>
        messagesConsumed == old(messagesConsumed) && feed.entries == old(feed.entries)
    {
      if !role.isLeader {
        return ConsumeNotLeader;
      }
      var topic := if topicArg.Some? then topicArg.value else "default";
      var partitionParsed := IntArgOr(partitionArg, 0);
      var offsetParsed := IntArgOr(offsetArg, 0);
      if partitionParsed.None? || offsetParsed.None? {
        return InvalidParameters;
      }
      var partition, offset := partitionParsed.value, offsetParsed.value;
      if topic !in topics {
        return UnknownTopic;
      }
      if partition !in topics[topic] {
        return UnknownPartition;
      }
      var file := topics[topic][partition];
      var hwm := store.Count(PartitionHwm(topic, partition));
      if file !in logs {
        return Messages([], None);
      }
      var messages := ReadCommitted(logs[file], offset, hwm);
      messagesConsumed := messagesConsumed + |messages|;
      if messages != [] {
        feed.Add("consume", ServedPartition(|messages|, topic, partition), now);
      }
      return Messages(messages, Some(hwm));
    }
  }
}
