# YAK broker core in Dafny

YAK is a small Kafka-like message broker.
- A leader broker (`broker/broker.py`) appends each produced message as one JSON line to its log file. It replicates the message to a single follower and commits it by incrementing a high-water mark (HWM) in a shared Redis.
- Consumers read the committed lines above an offset.
- Leadership is a Redis lease: `SET leader_lease id NX` elects, and `SET ... XX` renews every few seconds.
- Three follower variants can take over when the lease lapses:
  - `follower/follower.py`: one log file once promoted, per-topic partition files while following;
  - `follower/follower_with_topics.py`: one file per topic and a per-topic HWM hash;
  - `follower/follower_with_topics_partitions.py`: partition files, a per-partition HWM, idempotent produce keyed by `msg_id`, and an inclusive consume.
- Two consumers read the brokers:
  - `consumer/consumer.py` joins four metric topics into CSV rows keyed by `(server_id, ts)`, writes each key once, and persists its offsets in JSON;
  - `consumer/consumer_server.py` keeps web subscriptions with a bounded message buffer each.

The model is split by concern:

- `json.dfy` (module `Json`): decoded JSON values with Python's truthiness, `dict.get`, hashability, integer-key equality (`True == 1`), `str()` of integers and its inverse `int()`. `ParseInt(IntString(i)) == Some(i)` is proved.
- `reading.dfy` (`Reading`): the HWM-gated read every consume handler performs. `Window` is the specification. `ReadCommitted` is the line-by-line loop, proved equal to it. Lemmas cover completeness, uncommitted appends and commit.
- `activity.dfy` (`Activity`): the recent-activity feed capped at 50, newest first.
- `lease.dfy` (`Lease`): the lease transitions on their own, and the fencing finding.
- `store.dfy` (`Store`): the shared Redis as a class: the lease, the counters, the `topic_hwm` hash and the idempotency locks.
- `election.dfy` (`Election`): the `IS_LEADER` flag with the election, renewal and watch or monitor loops. Each loop pass is one atomic method.
- `routing.dfy` (`Routing`): partition tables, key routing and per-topic paths, with injectivity of the file names.
- `broker.dfy`, `follower.dfy`, `topic_follower.dfy`, `partition_follower.dfy`: the HTTP handlers of each process, as classes whose fields are the process's globals.
- `consumer_join.dfy` (`ConsumerJoin`): the batch logic of the deduplicating consumer, as functions. It covers message interpretation, the `(server_id, ts)` join, the sorted batch, and the once-only write property.
- `consumer.dfy` (`Consumer`): the consumer's state as a class. It covers the offset file round trip, topic discovery, restoring `completed` from the CSV, and one partition poll proved against the join fold.
- `consumer_server.dfy` (`ConsumerServer`): subscriptions, the poll step with its 100-message buffer, and the 50-message view.

The model follows the code wherever code and documentation disagree. The HWM is a 1-based count of committed lines. The consume handlers of `broker.py`, `follower.py` and `follower_with_topics.py` serve positions strictly above `offset` (`from = offset + 1`). The partitioned follower serves positions at or above it (`from = offset`). A corrupt line is skipped but keeps its position.

## Model

| member | source | states |
|---|---|---|
| Json.IntKey | follower/follower.py:108-118 | A partition id matches integer dictionary keys as Python compares them: an int as itself, `True`/`False` as 1/0, anything else matches none. |
| Json.Truthy | follower/follower.py:103 | `if not data` rejects exactly None, False, 0, "", [] and {}. |
| Json.GetOr | follower/follower.py:107-108 | `d.get(k, default)`: the stored value when `k` is present, the default otherwise. |
| Json.Hashable | follower/follower_with_topics_partitions.py:54 | Exactly None, booleans, integers and strings can be hashed or used as dictionary keys; lists and dicts raise. |
| Json.Render | follower/follower.py:74 | `str(v)`: a string as itself, None and booleans by name, and an integer as a string that `int()` reads back to it. |
| Json.DecimalString | follower/follower.py:74 | `str(n)` of a natural number is a non-empty string of digits. |
| Json.DecimalStringInjective | follower/follower.py:74 | Distinct numbers render differently, so names built from partition ids or counters never collide. |
| Json.IntString | consumer/consumer.py:296 | `str(i)` of any integer: the decimal digits, with a leading `-` for negatives. |
| Json.DecimalStringRoundTrip | consumer/consumer.py:93 | Reading back the decimal string of `n` gives `n`, and that string is in canonical form. |
| Json.IntStringRoundTrip | consumer/consumer.py:93 | `int(str(i)) == i` for every integer, negatives included. |
| Json.ParseInt | consumer/consumer.py:93 | A string `int()` accepts is non-empty, starts with `-` exactly when the value is negative, and reads 0 only as "0". |
| Json.ParseIntCanonical | consumer/consumer.py:93 | Every string `int()` accepts in this model is `str` of its value, so distinct keys parse to distinct integers. |
| Reading.LogOf | follower/follower_with_topics_partitions.py:197-198 | Appending to a file that does not exist yet starts it empty. |
| Reading.IntArgOr | broker/broker.py:139-143 | `int(request.args.get(name, default))`: the default when absent, the value when it parses, an error otherwise. |
| Reading.Window | broker/broker.py:158-178 | Every served message is a decodable line at its 1-based position `p` with `from <= p <= hwm`. Offsets strictly increase, and nothing beyond the log is served. |
| Reading.WindowComplete | broker/broker.py:163-176 | Conversely, every decodable line at a position in `[from, hwm]` is served. |
| Reading.WindowEmptyAboveHwm | broker/broker.py:163-165 | Asking from above the HWM serves nothing. |
| Reading.WindowIgnoresBeyondHwm | broker/broker.py:163-165 | Lines after position `hwm` never influence what is served. |
| Reading.UncommittedAppendInvisible | broker/broker.py:87-109 | A line appended beyond the HWM is invisible to every reader. |
| Reading.CommitExtendsWindow | broker/broker.py:107-112 | Committing one appended line extends what readers see by exactly that message at offset `hwm + 1`. |
| Reading.WindowHwmAtLength | broker/broker.py:163-165 | An HWM beyond the log length serves the same as one equal to it. |
| Reading.ReadCommitted | broker/broker.py:150-178 | The read loop returns exactly `Window(log, from, hwm)`. |
| Activity.Pushed | broker/broker.py:43-53 | A new entry goes first, the others keep their order shifted by one, and the oldest is dropped only when the feed exceeds 50. |
| Activity.PushedStaysBounded | broker/broker.py:52-53 | From a feed within the cap, any sequence of pushes stays within 50 entries, and below the cap none is lost. |
| Activity.PushAllNewestFirst | broker/broker.py:46-53 | After any pushes, entry `i` is the `i`-th most recent one, while it fits. |
| Activity.ActivityFeed.constructor | broker/broker.py:40 | The feed starts empty. |
| Activity.ActivityFeed.Add | broker/broker.py:43-53 | The feed becomes `Pushed(old, entry)` and stays within its cap. |
| Lease.Holder | broker/broker.py:70-74 | The reported leader: the lease value when it is a non-empty id, otherwise no leader. |
| Lease.SetIfAbsent | broker/broker.py:282 | `SET NX` succeeds exactly when no lease exists and then stores the id; a refusal leaves the lease; either way a lease exists afterwards. |
| Lease.SetIfExists | broker/broker.py:263 | `SET XX` succeeds exactly when some lease exists, whoever holds it, and then stores the id; otherwise there is still no lease. |
| Lease.RenewIfHolder | broker/broker.py:263 | Corrected renewal: never changes the lease, and succeeds exactly for the broker holding it. |
| Lease.ElectionExclusive | broker/broker.py:282 | Once one broker has won with `SET NX`, a competing election fails and the winner keeps the lease. |
| Lease.ElectionOutcome | broker/broker.py:282-295 | An election succeeds exactly when no lease exists, and then the candidate holds it; a failed one changes nothing. |
| Lease.UnfencedRenewalTakesOver | broker/broker.py:263 | As written, a renewal by a broker that does not hold the lease succeeds and takes the lease over (finding). |
| Lease.FencedRenewalKeepsHolder | broker/broker.py:263 | A renewal fenced on the holder never changes the holder and succeeds only for it. |
| Lease.FencedHolderOnlyChangesThroughExpiry | broker/broker.py:258-271 | With fenced renewals, over any run of elections and renewals without expiry, the holder stays the same. |
| Lease.UnfencedHolderChangesWithoutExpiry | broker/broker.py:258-271 | As written, a single renewal replaces the holder without any expiry (finding). |
| Store.Redis.constructor | broker/broker.py:56-58 | An empty store: no lease, no counters, no hash fields, no locks. |
| Store.Redis.SetLeaseIfAbsent | broker/broker.py:282 | `SET NX` performs exactly `Lease.SetIfAbsent` on the lease. |
| Store.Redis.SetLeaseIfExists | broker/broker.py:263 | `SET XX` performs exactly `Lease.SetIfExists` on the lease. |
| Store.Redis.ExpireLease | broker/broker.py:19 | The lease's time-to-live running out removes it. |
| Store.Redis.Incr | broker/broker.py:109 | `INCR` returns the old count (0 when absent) plus one and stores it; other counters are unchanged. |
| Store.Redis.Count | broker/broker.py:147-148 | `int(GET key) if GET key else 0`: the stored count, or 0 for a key never incremented. |
| Store.Redis.TopicCount | follower/follower_with_topics.py:187-188 | `int(HGET topic_hwm topic) if ... else 0`: the topic's stored HWM, or 0 for a topic never committed. |
| Store.Redis.HIncrBy | follower/follower_with_topics.py:147 | `HINCRBY` adds to one field of `topic_hwm` (0 when absent), returns the sum and leaves other fields alone. |
| Store.Redis.SetLockIfAbsent | follower/follower_with_topics_partitions.py:164-170 | `SET NX` on a message lock succeeds exactly when the lock was not held, and the lock is held afterwards. |
| Store.Redis.DeleteLock | follower/follower_with_topics_partitions.py:220 | `DELETE` releases exactly that lock. |
| Routing.PartitionForKey | follower/follower.py:63-67 | A missing key goes to partition 0; any other goes to `hash(key) mod n`, a partition in `[0, n)`. |
| Routing.PartitionFileNamesDistinct | follower/follower.py:72-75 | Different partitions of one topic never share a log file. |
| Routing.PartitionFileName | follower/follower.py:74 | `f"{BROKER_ID}_{topic}_p{i}.log"`: a file name of this broker (prefix `id_`) ending in `.log`. |
| Routing.PartitionTable | follower/follower_with_topics_partitions.py:58-61 | The loop over `range(NUM_PARTITIONS)` builds the standard table: partitions 0..2, each with its `PartitionFileName`. |
| Routing.StandardTableUnique | follower/follower.py:71-75 | The partition table of a topic is determined by the broker id, the topic and the partition count. |
| Routing.Counted | follower/follower.py:126 | `METRICS["topics"][topic]["messages"] += 1`: that topic's count grows by one; its partition count and every other topic are unchanged. |
| Routing.TopicLogPath | follower/follower_with_topics.py:66 | `os.path.join("data_logs", f"{topic}.log")`: ends in `.log`; a relative topic lies under `data_logs/`, an absolute one replaces the directory. |
| Routing.TopicLogPathInjective | follower/follower_with_topics.py:66 | Different topic strings give different log path strings in the topic-only follower. |
| Election.WatchedLeadership.constructor | broker/broker.py:29-30 | A process starts as a non-leader with no renewal thread and zero election metrics. |
| Election.WatchedLeadership.AttemptLeaderElection | broker/broker.py:277-295 | The lease and flag follow `SET NX`. A win counts an election, logs it and starts renewal. A loss or an unreachable store clears the flag. |
| Election.WatchedLeadership.RenewLeaseStep | broker/broker.py:258-271 | A renewal pass stops a non-leader. Otherwise the lease and flag follow `SET XX`; a refusal or exception drops leadership and ends the thread. A leader always has a renewing thread. |
| Election.WatchedLeadership.WatchStep | broker/broker.py:298-319 | One watch pass: with no holder it elects; with its own id it resumes leadership; with another holder while leading it steps down and counts a change. Afterwards the flag agrees with the lease. |
| Election.MonitoredLeadership.constructor | follower/follower.py:415-425 | A follower starts as non-leader with one monitor thread. |
| Election.MonitoredLeadership.AttemptLeaderElection | follower/follower.py:299-324 | The same `SET NX` transition without metrics; the monitor count is unchanged. |
| Election.MonitoredLeadership.MonitorStep | follower/follower.py:384-413 | A monitor that finds the flag up ends. Otherwise it elects only when the lease has no holder. A leader's lease and flag are never touched. |
| Election.MonitoredLeadership.RenewLeaseStep | follower/follower.py:265-296 | As in the broker, except that losing the lease also starts a new monitor, so a follower always keeps a monitor. |
| Broker.FailedReplicationShadowsAcked | broker/broker.py:87-112 | As written: after a produce whose replication failed, the next acknowledged produce returns offset 1, and offset 1 serves the unacknowledged line (finding). |
| Broker.AppendThenCommit | broker/broker.py:87-112 | As written: the line is always appended after the old log; the HWM advances only on an acknowledgement, so each failed replication widens the gap between log length and HWM by one. |
| Broker.CommitOrRollback | broker/broker.py:87-112 | Corrected: the gap between log length and HWM never changes; an acknowledgement appends exactly the message and advances the HWM; a failure changes nothing. |
| Broker.CommitOrRollbackServesCommittedOffset | broker/broker.py:87-112 | Corrected: the log length stays equal to the HWM, and the returned offset serves exactly the produced message. |
| Broker.Broker.constructor | broker/broker.py:29-41 | A broker starts as non-leader with no log file, an empty feed and zero metrics. |
| Broker.Broker.HandleProduce | broker/broker.py:66-116 | A non-leader names the holder (503 if none); a falsy body is 400; a non-object body fails. A leader appends the line, and the HWM advances by one exactly on a 200 acknowledgement, returning the new HWM. The log and HWM equal `AppendThenCommit` of the old state. Metrics and feed follow each path. |
| Broker.Broker.HandleConsume | broker/broker.py:133-188 | A non-leader is refused and a bad offset is 400. Otherwise it serves `Window(log, offset + 1, HWM)`, nothing when there is no log file, and counts and logs what it served. |
| Follower.Follower.LogFile | follower/follower.py:25 | `LOG_FILE = f"{BROKER_ID}_log.txt"`: never the name of a partition log of the same broker, so the promoted leader's log and the replicas' logs stay apart. |
| Follower.Follower.constructor | follower/follower.py:415-425 | A follower starts as non-leader with no topics, files, metrics or feed entries. |
| Follower.ResetStats | follower/follower.py:71-76 | A known topic keeps its metrics; a new topic gets fresh ones even if it had some, and other topics keep theirs. |
| Follower.Follower.EnsureTopicExists | follower/follower.py:69-80 | A new topic gets partitions 0..2, each with its own file, fresh metrics (`ResetStats`) and a feed entry; a known topic changes nothing; no other topic changes. |
| Follower.Follower.HandleReplicate | follower/follower.py:92-135 | Refused while leader; a falsy body is 400; a non-object body crashes; an unhashable topic or partition is 500; any other partition outside 0..2 is 400. Ack exactly when the topic is hashable and the partition (default 0) names one of 0..2; then the body is appended to that partition's file and the metrics advance. No other outcome writes a line. Once the topic is hashable it is created whatever the partition, with the topic table, metrics and feed stated for every outcome; a refusal before that changes none of them. |
| Follower.Follower.StoreReplica | follower/follower.py:118-128 | The accepted replica is appended to its partition file, and the replication metrics and feed advance. |
| Follower.Follower.HandleProduce | follower/follower.py:139-185 | A non-leader names the holder; a promoted leader appends a truthy body to `LOG_FILE` and commits it with `INCR high_water_mark`, returning the new HWM. |
| Follower.Follower.HandleConsume | follower/follower.py:189-245 | A promoted leader serves `Window(log, offset + 1, HWM)` of `LOG_FILE`, nothing when the file is missing. |
| TopicFollower.TopicFor | follower/follower_with_topics.py:55-60 | The message's `topic` entry when it is an object that has one, else "default". |
| TopicFollower.HashField | follower/follower_with_topics.py:147 | The hash field the client sends for a topic: strings as they are, integers in decimal, no field for other values. |
| TopicFollower.StringTopicFileMatchesField | follower/follower_with_topics.py:66-147 | For a string topic, the log file written and the HWM field incremented name the same topic. |
| TopicFollower.TopicFollower.constructor | follower/follower_with_topics.py:358-370 | A follower starts as non-leader with no log files. |
| TopicFollower.TopicFollower.WriteToTopicLog | follower/follower_with_topics.py:49-72 | The message is appended to its topic's file; the returned topic and path say which; every other topic's file is untouched. |
| TopicFollower.TopicFollower.HandleReplicate | follower/follower_with_topics.py:77-105 | Refused while leader; a falsy body is 400. Ack exactly for an object body, whose `data` (None when absent) is filed under its topic. No other outcome writes. |
| TopicFollower.TopicFollower.HandleProduce | follower/follower_with_topics.py:107-163 | A promoted leader files `data` under its topic and increments that topic's HWM field only, returning the new count. A topic the hash refuses fails after the line was written. |
| TopicFollower.TopicFollower.HandleConsume | follower/follower_with_topics.py:165-234 | A topic is required. Serves `Window(file, offset + 1, topic_hwm[topic])` and reports that HWM; a missing file serves nothing. |
| PartitionFollower.ProduceTopic | follower/follower_with_topics_partitions.py:154 | The topic is the first truthy of `data.topic` and `topic`, else "default", so it is never falsy. |
| PartitionFollower.ProduceKey | follower/follower_with_topics_partitions.py:155 | The key is `data.key` when truthy, else the outer `key` (possibly None). |
| PartitionFollower.KeyArg | follower/follower_with_topics_partitions.py:188 | Python's None is the missing key for routing. |
| PartitionFollower.StoredMessage | follower/follower_with_topics_partitions.py:191-195 | The stored line is a non-empty object carrying the `msg_id` and topic, and a `partition` field that reads back as the partition it was routed to. |
| PartitionFollower.SeededStats | follower/follower_with_topics_partitions.py:63-64 | Metrics are created for a new topic only when it has none, and other topics keep theirs. |
| PartitionFollower.PartitionFollower.constructor | follower/follower_with_topics_partitions.py:32-41 | A process starts as non-leader with no topics, files or metrics. |
| PartitionFollower.PartitionFollower.EnsureTopicExists | follower/follower_with_topics_partitions.py:56-69 | A new topic gets partitions 0..2 with their own files, metrics unless it had some (`SeededStats`) and a feed entry; a known topic changes nothing; no other topic changes. |
| PartitionFollower.PartitionFollower.HandleReplicate | follower/follower_with_topics_partitions.py:81-127 | Refused while leader; an empty body is 400; a missing topic or partition is 400. An unhashable topic or partition is 500 and any other partition outside 0..2 is 400. Ack exactly when the topic is hashable and the partition names one of 0..2; then the body is appended to that partition's file. A topic is created even when the partition is then refused: topic table, metrics and feed are stated for every outcome, and unchanged on a refusal before the topic is reached. |
| PartitionFollower.PartitionFollower.StoreReplica | follower/follower_with_topics_partitions.py:113-121 | The accepted replica is appended to its partition file, and the metrics and feed advance. |
| PartitionFollower.PartitionFollower.HandleProduce | follower/follower_with_topics_partitions.py:129-221 | A non-leader names the holder and a leader never does. A falsy body is 400, a missing `msg_id` 400, and a `data` that is not an object crashes. With a truthy `msg_id`, a held lock answers duplicate exactly, with nothing changed; a fresh one is stored exactly when topic and key are hashable and nothing fails, else fails with the lock released. A stored message lands at `hash(key) mod 3` of its topic with offset old partition HWM + 1, no other counter touched. Topic table, metrics, feed and log are stated for every outcome. |
| PartitionFollower.PartitionFollower.ProduceTwice | follower/follower_with_topics_partitions.py:164-180 | Idempotence: sending one request twice stores it once and answers the retry as a duplicate; the log gains exactly one line and the partition HWM moves once. |
| PartitionFollower.PartitionFollower.WriteNew | follower/follower_with_topics_partitions.py:186-221 | The `try` block: stored exactly when topic and key are hashable and nothing fails. Otherwise the lock is released and the HWM untouched; a line written before a failed commit stays. The topic is created once it is hashable, and the metrics count the message exactly when the write happened. |
| PartitionFollower.PartitionFollower.AppendAndCommit | follower/follower_with_topics_partitions.py:189-215 | Append, count and increment `hwm:{topic}:{partition}`. A failed write leaves the log; a failed increment leaves the line and releases the lock. |
| PartitionFollower.PartitionFollower.HandleConsume | follower/follower_with_topics_partitions.py:237-290 | Unknown topic or partition is 404 and bad parameters 400. Otherwise it serves `Window(file, offset, hwm:{topic}:{p})`, inclusive of `offset`, with the HWM, and counts and logs what it served. |
| ConsumerJoin.WithMetric | consumer/consumer.py:221 | Setting one metric column changes that column only. |
| ConsumerJoin.RowOf | consumer/consumer.py:244-249 | The written row carries the record's `(server_id, ts)` key. |
| ConsumerJoin.MetricValue | consumer/consumer.py:200-212 | The net metric is `"{net_in}/{net_out}"`, never blank. A topic other than the four metric topics has no value. |
| ConsumerJoin.Cell | consumer/consumer.py:248-249 | The CSV writer leaves None empty, writes a string as itself and an integer as a string that reads back to it. |
| ConsumerJoin.Interpret | consumer/consumer.py:195-218 | A message counts as a measurement only for a metric topic and a non-blank value. |
| ConsumerJoin.InterpretCases | consumer/consumer.py:195-216 | A `data` or payload that is not an object is unusable; otherwise the message is skipped exactly when `ts`, `server_id` or the metric is missing, and a measurement carries `str(server_id)`, `str(ts)` and the metric value. |
| ConsumerJoin.NetMeasurementNeverBlank | consumer/consumer.py:208-216 | A `topic-net` message with `ts` and `server_id` is always a measurement. |
| ConsumerJoin.Absorb | consumer/consumer.py:218-231 | At most one row is written, for the measured key, exactly when it enters `completed` (it was not there before). Otherwise the key's record holds the value and no other record appears or disappears. A written key's record is dropped. |
| ConsumerJoin.AbsorbWritesOnlyComplete | consumer/consumer.py:226-229 | A row is written exactly when the key's record, with this measurement, has all four metrics set and the key is not yet completed; the row is that record's. |
| ConsumerJoin.AbsorbKeepsOtherRecords | consumer/consumer.py:218-231 | A measurement changes only its own key's record; every other record keeps its values. |
| ConsumerJoin.AbsorbKeepsWrittenOnce | consumer/consumer.py:226-231 | Absorbing a measurement keeps every written key completed and unique. |
| ConsumerJoin.Step | consumer/consumer.py:191-234 | One message: an unusable one stops the loop, a skipped one changes nothing, a measurement moves the offset past itself; rows and completed keys only grow; a stopped loop stays as it is. |
| ConsumerJoin.Fold | consumer/consumer.py:191-234 | A batch only appends rows and completed keys, and a stopped loop stays stopped. |
| ConsumerJoin.LastAccepted | consumer/consumer.py:197-234 | The offset of a message read as a measurement with no measurement after it, or none when every message was skipped. |
| ConsumerJoin.FoldStopped | consumer/consumer.py:192-195 | Once the loop has stopped, later messages change nothing. |
| ConsumerJoin.FoldOffset | consumer/consumer.py:191-237 | A batch stops exactly when it holds an unusable message. Otherwise the new offset is one past the last accepted message, or the old one when all were skipped. |
| ConsumerJoin.FoldWritesOnce | consumer/consumer.py:226-231 | A batch only appends rows and completed keys, keeps keys unique, and writes no key completed before it. |
| ConsumerJoin.InsertByOffset | consumer/consumer.py:187 | Inserting keeps offset order and the same multiset of messages. |
| ConsumerJoin.SortByOffset | consumer/consumer.py:187 | `sorted(..., key=offset)` yields offset order and a permutation of the batch (stability is not stated). |
| ConsumerJoin.SortKeepsSorted | consumer/consumer.py:187 | Sorting a batch already in order leaves it unchanged. |
| ConsumerJoin.ServedBatchAlreadySorted | consumer/consumer.py:187 | A batch as any broker serves it is already in offset order, so the sort changes nothing. |
| Consumer.IntOf | consumer/consumer.py:93 | `int()` of a decoded value: ints and booleans directly, strings by `ParseInt`, refused otherwise. |
| Consumer.PartitionIds | consumer/consumer.py:93 | `p` is a partition id exactly when `str(p)` is a key of the entry. |
| Consumer.DecodePartitionOffsets | consumer/consumer.py:93 | Partition `p` is present exactly when `str(p)` is, with `int()` of its value. |
| Consumer.LoadOffsets | consumer/consumer.py:78-99 | No file or non-JSON gives an empty table. Readable content gives its topics with decoded partitions. Anything else is refused. |
| Consumer.SavePartitionOffsets | consumer/consumer.py:293-296 | `json.dump` writes each partition under `str(p)` with its offset, and nothing else. |
| Consumer.SaveOffsets | consumer/consumer.py:293-296 | The saved object has exactly the tracked topics, each saved as above. |
| Consumer.DecodeInverts | consumer/consumer.py:93 | Decoding an entry that holds exactly `m`'s offsets under `str` keys gives back `m`. |
| Consumer.SavePartitionsThenDecode | consumer/consumer.py:93-296 | One topic's saved offsets decode back to the same offsets. |
| Consumer.SaveThenLoad | consumer/consumer.py:78-296 | Offsets saved and loaded again are the same offsets, so a restart resumes every partition where it stopped. |
| Consumer.LoadInverts | consumer/consumer.py:86-93 | Loading any file that holds the saved form of a table gives that table. |
| Consumer.CurrentOffset | consumer/consumer.py:174 | The stored offset of the partition, or 0 when its topic or partition is unknown. |
| Consumer.Pad | consumer/consumer.py:158-160 | Padding never loses or changes a known offset. |
| Consumer.PadSpec | consumer/consumer.py:158-160 | `setdefault(i, 0)` for `i < n` keeps every known offset, adds partitions `0..n-1` at 0, and nothing else. |
| Consumer.Tracked | consumer/consumer.py:149-155 | After discovery only metric topics are tracked. |
| Consumer.Discovered | consumer/consumer.py:148-162 | Discovery never drops a topic from the offset table. |
| Consumer.DiscoveredSpec | consumer/consumer.py:148-162 | Discovery never loses or changes an offset, adds only metric topics, leaves non-metric topics alone, and gives every tracked partition an offset. |
| Consumer.IndexOf | consumer/consumer.py:60-61 | `header.index(name)`: the first position of the name, or none when it is absent. |
| Consumer.KeysOfSpec | consumer/consumer.py:68-72 | A key is restored exactly when some row long enough to hold both key columns carries it. |
| Consumer.RestoreCompleted | consumer/consumer.py:43-76 | No CSV gives no completed keys. An empty file or a header lacking `ts` or `server_id` ends the process. Otherwise the result is the keys of all long-enough rows. |
| Consumer.DeduplicatedConsumer.constructor | consumer/consumer.py:20-41 | A consumer starts with no leader, no tracked topics, no records or rows, and the loaded offsets and completed keys. |
| Consumer.DeduplicatedConsumer.DiscoverAllTopics | consumer/consumer.py:136-170 | Without a leader nothing changes, and a failed call clears the leader. Otherwise the tracked topics become the listed metric topics, and offsets become the padded table. |
| Consumer.DeduplicatedConsumer.ConsumeFromPartition | consumer/consumer.py:173-241 | A failed call only clears the leader. The join state becomes the fold of the offset-sorted batch, so no key is ever written twice. The partition's offset becomes one past the last accepted message; an unusable message stops the consumer. |
| Consumer.DeduplicatedConsumer.ProcessBatch | consumer/consumer.py:191-234 | The message loop ends in exactly the state `Fold` specifies. |
| Consumer.DeduplicatedConsumer.TakeMeasurement | consumer/consumer.py:218-231 | One accepted message changes the join as `Absorb` specifies. |
| Consumer.PadPartitions | consumer/consumer.py:158-160 | The `setdefault` loop computes `Pad`. |
| ConsumerServer.SubscriptionIdInjective | consumer/consumer_server.py:160-161 | Distinct counter values give distinct subscription ids. |
| ConsumerServer.KeepLast | consumer/consumer_server.py:95-212 | `s[-n:]` has `min(n, |s|)` elements, and they are the last ones of `s`. |
| ConsumerServer.KeepLastOfKeepLast | consumer/consumer_server.py:95-212 | Trimming the buffer to 100 never changes the 50 messages shown. |
| ConsumerServer.OffsetAfterBatch | consumer/consumer_server.py:89-92 | As written, the stored offset becomes that of the batch's last message (finding). |
| ConsumerServer.CorrectedOffsetAfterBatch | consumer/consumer.py:234 | Corrected: one past the batch's last message. |
| ConsumerServer.AsWrittenRepollRedeliversLast | consumer/consumer_server.py:92 | Against the partitioned follower's inclusive consume, the next poll serves the last message again (finding). |
| ConsumerServer.WindowOfCorruptRange | follower/follower_with_topics_partitions.py:267-280 | A range with no decodable line serves nothing. |
| ConsumerServer.CorrectedRepollIsEmpty | consumer/consumer_server.py:92 | With the corrected offset, a poll with no new commit serves nothing, so each message is delivered once. |
| ConsumerServer.SubscriptionServer.constructor | consumer/consumer_server.py:24-26 | The server starts with no subscriptions, nothing running and the counter at 0. |
| ConsumerServer.SubscriptionServer.Subscribe | consumer/consumer_server.py:148-183 | A non-object body fails and a falsy topic is 400, both changing nothing. Otherwise the next id (never in use) gets topic, partition (default 0), offset 0 and an empty buffer, and starts running. |
| ConsumerServer.SubscriptionServer.Unsubscribe | consumer/consumer_server.py:215-230 | An unknown id is 404 with no change; a known one is removed from both the table and the running set. |
| ConsumerServer.SubscriptionServer.GetMessages | consumer/consumer_server.py:200-213 | An unknown id is 404. Otherwise the view holds the subscription's fields and the last `min(50, n)` buffered messages, a suffix of the buffer. |
| ConsumerServer.Info | consumer/consumer_server.py:189-196 | One `get_subscriptions` entry: the id, topic, partition, offset, buffer size and whether it runs. |
| ConsumerServer.IdsListed | consumer/consumer_server.py:185-198 | An id is among a listing's ids exactly when some entry carries it. |
| ConsumerServer.Listing | consumer/consumer_server.py:188-197 | The loop over the table lists exactly its ids, each once, and each entry matches its subscription. |
| ConsumerServer.SubscriptionServer.GetSubscriptions | consumer/consumer_server.py:185-198 | Exactly one entry per subscription, each matching it and marked active, since a subscription runs exactly while it exists. |
| ConsumerServer.SubscriptionServer.PollStep | consumer/consumer_server.py:85-107 | A 200 reply appends the batch, sets the offset by `OffsetAfterBatch` and trims the buffer to its last 100. Any other reply changes nothing. The buffer never exceeds 100. |

## Left out

- Redis and file I/O failures inside the handlers are left out: the store always answers, and files are always written. The exceptions are the election and renewal steps, which take a `reachable` flag, and the partitioned produce, which takes a `Fault`. The `except Exception` 500 paths are modelled only where a decoded body alone raises them.
- Threads and timing are left out. Each pass of a renewal, watch, monitor or poll loop is one atomic method. The sleeps, the lease's time-to-live and the idempotency lock's expiry are explicit steps (`ExpireLease`, `DeleteLock`). Interleavings between passes are not modelled.
- The network is left out. The follower's replication answer, the leader's `/topics` and `/consume` answers, and a consume poll's reply are parameters. `find_leader`, `discover_leader`, the `/metadata/leader` and `/api/leader` and `/api/topics` handlers, and the consumer's `run` loop are not part of this model.
- The `/health`, `/metrics`, `/topics`, `/leader` and `/` (dashboard) endpoints only report state, and are not part of this model. The `messages_*` and `replications` counters they expose are modelled where handlers update them.
- Clocks are parameters: `time.strftime` is `now` and `time.time()` is `stamp` or `createdAt`. Python's salted `hash()` is the parameter `hash`.
- Floats are not part of the JSON model, so float metrics and float `time.time()` values are opaque JSON values. `str()` of a list or dict is a fixed placeholder, not Python's repr.
- Topics that are not strings: the followers key topic tables by the raw value, and the model keys them by its `str()` rendering (`Render`). Two values with the same rendering, such as `1` and `"1"`, share a topic in the model but not in Python.
- The served message records carry only `offset` and `data`. The `topic`/`partition` fields of the partitioned consume reply are not modelled.
- Routing.TopicLogPathInjective: paths are compared as strings. `os.path` normalisation is not modelled, so two spellings of one file (`x` and `./x`, or `a/../x`) are two logs in the model.
- Json.IntKey: models only integer and boolean partition ids. A float such as `1.0` also equals an int key in Python but is outside the JSON model.
- Consumer.IntOf: `int()` accepts only canonical decimal strings here. Python also accepts surrounding whitespace, a `+` sign, leading zeros and underscores. Since the consumer only reads files it wrote itself, where every key is canonical, the round trip is unaffected.
- Consumer.LoadOffsets: an unreadable file gives None. Python either resets to an empty table (`TypeError`) or crashes (`ValueError`, `AttributeError`), depending on which bad entry it meets first. The start-up sequence is `LoadOffsets`, then `RestoreCompleted`, then the constructor, and is not one method.
- Consumer.DeduplicatedConsumer.DiscoverAllTopics: the entries of the `/topics` list are assumed well formed (`TopicInfo` with a string name and an integer count). A malformed entry makes Python raise an error that is not modelled.
- Consumer.DeduplicatedConsumer.ConsumeFromPartition: an exception the consumer does not catch (an unusable message, or a topic without an offset table) ends the Python process. The model reports `Stopped` and keeps the state reached so far.
- ConsumerJoin: the CSV rows are kept as a sequence; the file append and its failures are not modelled. `_write_row` swallows write errors, yet the key is still marked completed.
- ConsumerServer.SubscriptionServer.GetSubscriptions: Python lists subscriptions in dict insertion order. The model proves one entry per subscription in some order.
- ConsumerServer.SubscriptionServer.PollStep: a 404 or 400 reply, or a network error, only logs or rediscovers the leader, and is modelled as no change. A poll thread whose subscription was removed exits; the step requires a live subscription.

## Findings

| source | as written | input that shows it | evidently intended | confidence | as-written member | corrected member |
|---|---|---|---|---|---|---|
| broker/broker.py:87-112 | The line is appended before replication and stays when replication fails, while the HWM counts only acknowledged lines. Consume reads the HWM as a line position (lines 160-167). | Produce `a` with the follower answering 500, then produce `b` acknowledged: the reply says offset 1, and offset 1 serves `a`, never acknowledged. `b` is served only after a later commit, and then under the offset returned for that later message. | The HWM should be the position of the last committed line; a failed replication should not leave its line in the log. | medium, not executed | Broker.FailedReplicationShadowsAcked | Broker.CommitOrRollbackServesCommittedOffset |
| broker/broker.py:263 | The renewal is `SET leader_lease id XX`, which succeeds whenever any lease exists, whoever holds it. The same call is at follower/follower.py:277-282 and follower/follower_with_topics_partitions.py:353. | Broker `a`'s lease expires, `b` is elected, then `a`'s renewal thread runs: `a` overwrites the lease and both believe they lead until `b`'s watcher steps down. | Renew only while the lease still holds one's own id (compare-and-set). | high, not executed | Lease.UnfencedHolderChangesWithoutExpiry | Lease.FencedHolderOnlyChangesThroughExpiry |
| consumer/consumer_server.py:92 | After a batch the subscription stores the last message's offset and sends it on the next poll. The topic and partition it polls are served by the partitioned follower, whose consume includes `offset` itself (follower/follower_with_topics_partitions.py:273). | A partition whose log holds one committed message at offset 1: the first poll from 0 buffers it and stores 1. Every later poll from 1 serves and buffers it again. | Store one past the last message, as consumer/consumer.py:234 does. | medium, not executed | ConsumerServer.AsWrittenRepollRedeliversLast | ConsumerServer.CorrectedRepollIsEmpty |

The handlers model the code as written. `Broker.Broker.HandleProduce` uses `AppendThenCommit`, the election renewals use `SetIfExists`, and `ConsumerServer.SubscriptionServer.PollStep` uses `OffsetAfterBatch`. The corrected members state what the fixed behaviour guarantees.
