/** Topic provisioning and key-to-partition routing shared by the follower
    variants: the partition a key goes to, the log file of each partition, and
    the per-topic log path of the topic-only variant. */
module Routing {
  import opened Json
  import opened Activity

  /** `METRICS["topics"][topic]`: the partition count and the messages stored. */
  datatype TopicStats = TopicStats(partitions: nat, messages: nat)

  /** `DEFAULT_PARTITIONS`: every topic is created with this many partitions. */
  const DefaultPartitions: nat := 3

  /** `get_partition_for_key(key, n)`: a missing key goes to partition 0, any other
      key to `hash(key) % n`. `hash` is Python's built-in hash, salted per process,
      so it is a parameter; Python's `%` with a positive divisor gives the same
      remainder as Dafny's. */
  function PartitionForKey(key: Option<Json>, n: nat, hash: Json -> int): (p: int)
    requires key.Some? ==> n > 0
    ensures key.None? ==> p == 0
    ensures key.Some? ==> 0 <= p < n && hash(key.value) == n * (hash(key.value) / n) + p
  {
    if key.None? then 0 else hash(key.value) % n
  }

  /** `f"{BROKER_ID}_{topic}_p{i}.log"`. */
  function PartitionFileName(brokerId: string, topic: string, i: nat): (f: string)
    ensures |f| > |brokerId| + 1 && f[..|brokerId| + 1] == brokerId + "_"
    ensures |f| >= 4 && f[|f| - 4..] == ".log"
  {
    brokerId + "_" + topic + "_p" + DecimalString(i) + ".log"
  }

  /** The partition table `ensure_topic_exists` builds for a new topic:
      partition ids 0..n-1, each mapped to its own log file. */
  ghost predicate StandardTable(brokerId: string, topic: string, n: nat, table: map<int, string>)
  {
    |table| == n && (forall i :: i in table <==> 0 <= i < n) &&
    (forall i :: i in table ==> table[i] == PartitionFileName(brokerId, topic, i))
  }

  /** The partition table `ensure_topic_exists` of both followers builds for a new topic: one
      log file per partition `0 .. NUM_PARTITIONS - 1`. */
  method PartitionTable(brokerId: string, topic: string) returns (table: map<int, string>)
    ensures StandardTable(brokerId, topic, DefaultPartitions, table)
  {
    table := map[];
    var i := 0;
    while i < DefaultPartitions
      invariant 0 <= i <= DefaultPartitions
      invariant StandardTable(brokerId, topic, i, table)
      invariant forall k :: k in table ==> k < i
    {
      table := table[i := PartitionFileName(brokerId, topic, i)];
      i := i + 1;
    }
  }

  /** A partition table is determined by the broker, the topic and the count. */
  lemma StandardTableUnique(brokerId: string, topic: string, n: nat, a: map<int, string>, b: map<int, string>)
    requires StandardTable(brokerId, topic, n, a) && StandardTable(brokerId, topic, n, b)
    ensures a == b
  {
    forall i ensures i in a <==> i in b {
      assert i in a <==> 0 <= i < n;
      assert i in b <==> 0 <= i < n;
    }
    assert a.Keys == b.Keys;
    assert forall i :: i in a ==> a[i] == b[i];
  }

  /** The topic table after `ensure_topic_exists(topic)`: unchanged for a known
      topic, otherwise extended by the topic's standard table. */
  ghost predicate TopicsEnsured(brokerId: string, topic: string,
                                before: map<string, map<int, string>>, after: map<string, map<int, string>>)
  {
    topic in after && StandardTable(brokerId, topic, DefaultPartitions, after[topic]) &&
    after == (if topic in before then before else before[topic := after[topic]])
  }

  /** The activity feed after `ensure_topic_exists(topic)`: one "topic" entry
      exactly when the topic was new. */
  function EnsuredFeed(before: map<string, map<int, string>>, entries: seq<Activity>, topic: string, now: string): seq<Activity>
  {
    if topic in before then entries else Pushed(entries, Activity("topic", TopicEnsured(topic, DefaultPartitions), now))
  }

  /** `METRICS["topics"][topic]["messages"] += 1`. */
  function Counted(stats: map<string, TopicStats>, topic: string): (r: map<string, TopicStats>)
    requires topic in stats
    ensures r.Keys == stats.Keys && r[topic].messages == stats[topic].messages + 1
    ensures r[topic].partitions == stats[topic].partitions
    ensures forall t :: t in stats && t != topic ==> r[t] == stats[t]
  {
    stats[topic := stats[topic].(messages := stats[topic].messages + 1)]
  }

  /** Different partitions of one topic never share a log file. */
  lemma PartitionFileNamesDistinct(brokerId: string, topic: string, i: nat, j: nat)
    requires PartitionFileName(brokerId, topic, i) == PartitionFileName(brokerId, topic, j)
    ensures i == j
  {
    var prefix := brokerId + "_" + topic + "_p";
    var a, b := PartitionFileName(brokerId, topic, i), PartitionFileName(brokerId, topic, j);
    assert a == prefix + (DecimalString(i) + ".log");
    assert b == prefix + (DecimalString(j) + ".log");
    assert a[|prefix|..] == DecimalString(i) + ".log";
    assert b[|prefix|..] == DecimalString(j) + ".log";
    var di, dj := DecimalString(i), DecimalString(j);
    assert |di| == |dj|;
    assert di == (di + ".log")[..|di|];
    assert dj == (dj + ".log")[..|dj|];
    DecimalStringInjective(i, j);
  }

  /** `os.path.join("data_logs", f"{topic}.log")`: an absolute name replaces the directory. */
  function TopicLogPath(topic: string): (path: string)
    ensures |path| == |topic| + 4 || |path| == |topic| + 14
    ensures path[|path| - 4..] == ".log"
    ensures !(|topic| > 0 && topic[0] == '/') ==> |path| >= 10 && path[..10] == "data_logs/"
  {
    if |topic| > 0 && topic[0] == '/' then topic + ".log" else "data_logs/" + topic + ".log"
  }

  /** Different topic strings never give the same log path in the topic-only
      variant. Paths are compared as strings: `x` and `./x` are two paths here,
      although the file system resolves both to `data_logs/x.log`. */
  lemma TopicLogPathInjective(t: string, u: string)
    requires TopicLogPath(t) == TopicLogPath(u)
    ensures t == u
  {
    var absT, absU := |t| > 0 && t[0] == '/', |u| > 0 && u[0] == '/';
    // an absolute path starts with '/', a relative one with 'd'
    assert TopicLogPath(t)[0] == (if absT then '/' else 'd');
    assert TopicLogPath(u)[0] == (if absU then '/' else 'd');
    if absT {
      SuffixCancels(t, u, ".log");
    } else {
      assert TopicLogPath(t) == "data_logs/" + (t + ".log") && TopicLogPath(u) == "data_logs/" + (u + ".log");
      PrefixCancels("data_logs/", t + ".log", u + ".log");
      SuffixCancels(t, u, ".log");
    }
  }

  lemma SuffixCancels(a: string, b: string, suffix: string)
    requires a + suffix == b + suffix
    ensures a == b
  {
    assert a == (a + suffix)[..|a|];
    assert b == (b + suffix)[..|b|];
  }

  lemma PrefixCancels(prefix: string, a: string, b: string)
    requires prefix + a == prefix + b
    ensures a == b
  {
    assert a == (prefix + a)[|prefix|..];
    assert b == (prefix + b)[|prefix|..];
  }
}
