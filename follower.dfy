/** The follower (follower/follower.py): receives replicated messages into
    per-topic partition logs while following, and once promoted serves
    produce and consume on its own single log file with the global HWM. */
module Follower {
  import opened Json
  import opened Reading
  import opened Activity
  import opened Store
  import opened Election
  import opened Routing
  import Lease

  datatype ReplicateResult =
    | RefusedAsLeader            // 400
    | NoData                     // 400
    | Crash                      // 500 raised outside the handler's `try`
    | InvalidPartition           // 400
    | WriteFailed                // 500: an exception caught by the handler
    | Ack

  datatype ProduceResult =
    | NoLeader                   // 503
    | NotLeader(leaderId: string)  // 400
    | EmptyProduce               // 400
    | Committed(offset: int, leaderId: string)

  datatype ConsumeResult =
    | ConsumeNotLeader           // 400
    | InvalidOffset              // 400
    | Messages(messages: seq<Delivered>)

  /** The metrics `ensure_topic_exists` leaves: a known topic keeps its own,
      a new one gets fresh counters even if it had metrics before. */
  function ResetStats(topics: map<string, map<int, string>>, stats: map<string, TopicStats>, topic: string)
    : (r: map<string, TopicStats>)
    ensures topic in topics ==> r == stats
    ensures topic !in topics ==>
      r.Keys == stats.Keys + {topic} && r[topic] == TopicStats(DefaultPartitions, 0) && forall t :: t in stats && t != topic ==> r[t] == stats[t]
  {
    if topic in topics then stats else stats[topic := TopicStats(DefaultPartitions, 0)]
  }

  /** A replica that gets as far as `ensure_topic_exists`: sent to a follower,
      a non-empty object, with a topic that can be a dictionary key. */
  predicate ReachesTopic(isLeader: bool, body: Json)
  {
    !isLeader && Truthy(body) && body.JObj? && Hashable(GetOr(body, "topic", JStr("default")))
  }

  class Follower {
    const id: string
    const feed: ActivityFeed
    const role: MonitoredLeadership
    var topics: map<string, map<int, string>>
    var topicStats: map<string, TopicStats>
    /** The log files that exist, by name: the partition logs and `LOG_FILE`. */
    var logs: map<string, seq<Line>>
    var replications: nat
    var lastReplication: Option<string>

    /** `LOG_FILE`, the log of the promoted leader. */
    function LogFile(): (f: string)
      reads this
      ensures forall topic, i :: f != PartitionFileName(id, topic, i)
    {
      assert (id + "_log.txt")[|id + "_log.txt"| - 1] == 't';
      id + "_log.txt"
    }

    ghost predicate Valid()
      reads this, role, feed
    {
      role.id == id && role.Valid() && feed.Valid() &&
      (forall t :: t in topics ==> t in topicStats && StandardTable(id, t, DefaultPartitions, topics[t]))
    }

    /** `main`: start as a follower, monitoring the lease. */
    constructor (id: string)
      requires id != ""
      ensures Valid() && this.id == id && !role.isLeader && fresh(role) && fresh(feed)
      ensures topics == map[] && topicStats == map[] && logs == map[] && feed.entries == []
      ensures replications == 0 && lastReplication == None
    {
      this.id := id;
      feed := new ActivityFeed();
      role := new MonitoredLeadership(id);
      topics := map[];
      topicStats := map[];
      logs := map[];
      replications := 0;
      lastReplication := None;
    }

    /** `ensure_topic_exists(topic)`: a new topic gets partitions 0..2, fresh
        metrics (replacing any earlier ones) and an activity entry; a known
        topic changes nothing. */
    method EnsureTopicExists(topic: string, now: string) returns (partitions: map<int, string>)
      requires Valid()
      modifies this`topics, this`topicStats, feed
      ensures Valid()
      ensures TopicsEnsured(id, topic, old(topics), topics) && partitions == topics[topic]
      ensures topicStats == ResetStats(old(topics), old(topicStats), topic)
      ensures feed.entries == EnsuredFeed(old(topics), old(feed.entries), topic, now)
    {
      if topic !in topics {
        var table := PartitionTable(id, topic);
        topics := topics[topic := table];
        topicStats := topicStats[topic := TopicStats(DefaultPartitions, 0)];
        feed.Add("topic", TopicEnsured(topic, DefaultPartitions), now);
      }
      partitions := topics[topic];
    }

    /** `handle_replicate`: refused while leader; otherwise the body goes to the
        partition it names, topic "default" and partition 0 when absent. The
        topic is created before the partition is checked. */
    method HandleReplicate(body: Json, now: string) returns (r: ReplicateResult)
      requires Valid()
      modifies this`topics, this`topicStats, this`logs, this`replications, this`lastReplication, feed
      ensures Valid()
      ensures role.isLeader ==> r == RefusedAsLeader
      ensures !role.isLeader && !Truthy(body) ==> r == NoData
      ensures !role.isLeader && Truthy(body) && !body.JObj? ==> r == Crash
      ensures r != Ack ==>
        logs == old(logs) && replications == old(replications) && lastReplication == old(lastReplication)
      ensures !role.isLeader && body.JObj? && Truthy(body) && !Hashable(GetOr(body, "topic", JStr("default"))) ==>
        r == WriteFailed
      ensures ReachesTopic(role.isLeader, body) && !Hashable(GetOr(body, "partition", JInt(0))) ==>
        r == WriteFailed
      ensures ReachesTopic(role.isLeader, body) && Hashable(GetOr(body, "partition", JInt(0))) &&
              !(IntKey(GetOr(body, "partition", JInt(0))).Some? &&
                0 <= IntKey(GetOr(body, "partition", JInt(0))).value < DefaultPartitions) ==>
        r == InvalidPartition
      ensures r == Ack <==>
        ReachesTopic(role.isLeader, body) &&
        IntKey(GetOr(body, "partition", JInt(0))).Some? &&
        0 <= IntKey(GetOr(body, "partition", JInt(0))).value < DefaultPartitions
      ensures r == Ack ==>
        var topic := Render(GetOr(body, "topic", JStr("default")));
        var file := PartitionFileName(id, topic, IntKey(GetOr(body, "partition", JInt(0))).value);
        logs == old(logs)[file := LogOf(old(logs), file) + [Entry(body)]] &&
        replications == old(replications) + 1 && lastReplication == Some(now)
      ensures !ReachesTopic(role.isLeader, body) ==>
        topics == old(topics) && topicStats == old(topicStats) && feed.entries == old(feed.entries)
      ensures ReachesTopic(role.isLeader, body) ==>
        var name := Render(GetOr(body, "topic", JStr("default")));
        var seeded := ResetStats(old(topics), old(topicStats), name);
        var ensured := EnsuredFeed(old(topics), old(feed.entries), name, now);
        TopicsEnsured(id, name, old(topics), topics) &&
        topicStats == (if r == Ack then Counted(seeded, name) else seeded) &&
        feed.entries ==
          if r == Ack
          then Pushed(ensured, Activity("replicate", ReplicaReceived(name, GetOr(body, "partition", JInt(0))), now))
          else ensured
    {
      if role.isLeader {
        return RefusedAsLeader;
      }
      if !Truthy(body) {
        return NoData;
      }
      if !body.JObj? {
        return Crash;
      }
      var topic := GetOr(body, "topic", JStr("default"));
      var partition := GetOr(body, "partition", JInt(0));
      if !Hashable(topic) {
        return WriteFailed;
      }
      var name := Render(topic);
      var partitions := EnsureTopicExists(name, now);
      if !Hashable(partition) {
        return WriteFailed;
      }
      var p := IntKey(partition);
      if p.None? || p.value !in partitions {
        return InvalidPartition;
      }
      StoreReplica(name, p.value, partition, body, now);
      return Ack;
    }

    /** The write and the metrics of an accepted replica. */
    method StoreReplica(topic: string, p: int, partitionId: Json, body: Json, now: string)
      requires Valid() && topic in topics && p in topics[topic]
      modifies this`topicStats, this`logs, this`replications, this`lastReplication, feed
      ensures Valid()
      ensures var file := PartitionFileName(id, topic, p);
        logs == old(logs)[file := LogOf(old(logs), file) + [Entry(body)]]
      ensures topic in old(topicStats) && topicStats == Counted(old(topicStats), topic)
      ensures replications == old(replications) + 1 && lastReplication == Some(now)
      ensures feed.entries == Pushed(old(feed.entries), Activity("replicate", ReplicaReceived(topic, partitionId), now))
    {
      var file := topics[topic][p];
      logs := logs[file := LogOf(logs, file) + [Entry(body)]];
      replications := replications + 1;
      var stats := topicStats[topic];
      topicStats := topicStats[topic := stats.(messages := stats.messages + 1)];
      lastReplication := Some(now);
      feed.Add("replicate", ReplicaReceived(topic, partitionId), now);
    }

    /** `handle_produce`: a follower answers with the lease holder and writes
        nothing; a promoted leader appends the body to `LOG_FILE` and commits it
        on the global `high_water_mark`. */
    method HandleProduce(store: Redis, body: Json) returns (r: ProduceResult)
      requires Valid()
      modifies this`logs, store`counters
      ensures Valid()
      ensures !role.isLeader ==>
        r == (match Lease.Holder(store.lease) case None => NoLeader case Some(h) => NotLeader(h))
      ensures role.isLeader && !Truthy(body) ==> r == EmptyProduce
      ensures !r.Committed? ==> logs == old(logs) && store.counters == old(store.counters)
      ensures r.Committed? <==> role.isLeader && Truthy(body)
      ensures r.Committed? ==>
        logs == old(logs)[LogFile() := LogOf(old(logs), LogFile()) + [Entry(body)]] &&
        r == Committed(old(store.Count(GlobalHwm)) + 1, id) &&
        store.counters == old(store.counters)[GlobalHwm := r.offset]
    {
      if !role.isLeader {
        var holder := Lease.Holder(store.lease);
        if holder.None? {
          return NoLeader;
        }
        return NotLeader(holder.value);
      }
      if !Truthy(body) {
        return EmptyProduce;
      }
      logs := logs[LogFile() := LogOf(logs, LogFile()) + [Entry(body)]];
      var hwm := store.Incr(GlobalHwm);
      return Committed(hwm, id);
    }

    /** `handle_consume`: the broker's read, on `LOG_FILE`, without metrics:
        the lines strictly after `offset` up to the global HWM. */
    method HandleConsume(store: Redis, offsetArg: IntArg) returns (r: ConsumeResult)
      ensures !role.isLeader ==> r == ConsumeNotLeader
      ensures role.isLeader && offsetArg.NotAnInt? ==> r == InvalidOffset
      ensures role.isLeader && !offsetArg.NotAnInt? ==>
        r == Messages(if LogFile() in logs
                      then Window(logs[LogFile()], IntArgOr(offsetArg, 0).value + 1, store.Count(GlobalHwm))
                      else [])
    {
      if !role.isLeader {
        return ConsumeNotLeader;
      }
      var parsed := IntArgOr(offsetArg, 0);
      if parsed.None? {
        return InvalidOffset;
      }
      var hwm := store.Count(GlobalHwm);
      if LogFile() !in logs {
        return Messages([]);
      }
      var messages := ReadCommitted(logs[LogFile()], parsed.value + 1, hwm);
      return Messages(messages);
    }
  }
}
