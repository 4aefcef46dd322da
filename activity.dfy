/** The dashboard's recent-activity feed (`add_activity_log`): each entry is
    inserted at the front of the list and, once the list holds more than 50
    entries, the oldest one is popped, so the feed keeps the 50 newest entries,
    newest first. */
module Activity {
  import opened Json

  /** What an entry reports. The Python code formats these as message strings;
      the model keeps the facts the strings carry. */
  datatype Event =
    | ProduceReceived(producer: Json)        // `producer_id`, "unknown" when absent
    | ProduceForTopic(topic: string)
    | ReplicatedTo(target: string)           // the follower acknowledged
    | ReplicaReceived(topic: string, partitionId: Json)
    | Served(count: nat, from: int)
    | ServedPartition(count: nat, topic: string, partition: int)
    | ElectionWon(winner: string)
    | LeadershipTransferred(to: string)
    | TopicEnsured(topic: string, partitions: nat)

  datatype Activity = Activity(kind: string, event: Event, timestamp: string)

  const Capacity: nat := 50

  /** The feed after `insert(0, a)` followed by `pop()` when the length exceeds 50. */
  function Pushed(feed: seq<Activity>, a: Activity): (r: seq<Activity>)
    ensures |feed| < Capacity ==> |r| == |feed| + 1
    ensures |feed| >= Capacity ==> |r| == |feed|
    ensures |r| >= 1 && r[0] == a
    ensures forall i :: 1 <= i < |r| ==> r[i] == feed[i - 1]
  {
    var inserted := [a] + feed;
    if |inserted| > Capacity then inserted[..|inserted| - 1] else inserted
  }

  /** A feed that starts empty never exceeds the cap, whatever is pushed. */
  lemma {:induction false} PushedStaysBounded(feed: seq<Activity>, entries: seq<Activity>)
    requires |feed| <= Capacity
    ensures |PushAll(feed, entries)| <= Capacity
    ensures |feed| + |entries| <= Capacity ==> |PushAll(feed, entries)| == |feed| + |entries|
    decreases |entries|
  {
    if entries != [] {
      PushedStaysBounded(feed, entries[..|entries| - 1]);
    }
  }

  /** The feed after pushing `entries` one after the other. */
  function PushAll(feed: seq<Activity>, entries: seq<Activity>): seq<Activity>
    decreases |entries|
  {
    if entries == [] then feed else Pushed(PushAll(feed, entries[..|entries| - 1]), entries[|entries| - 1])
  }

  /** The newest `k` pushes are the first `k` entries, newest first, while they fit. */
  lemma {:induction false} PushAllNewestFirst(feed: seq<Activity>, entries: seq<Activity>, i: nat)
    requires i < |entries| && i < Capacity
    ensures i < |PushAll(feed, entries)|
    ensures PushAll(feed, entries)[i] == entries[|entries| - 1 - i]
    decreases |entries|
  {
    var prefix := entries[..|entries| - 1];
    if i > 0 {
      PushAllNewestFirst(feed, prefix, i - 1);
    }
  }

  /** The feed kept by each broker process (`METRICS["recent_activity"]`). */
  class ActivityFeed {
    var entries: seq<Activity>

    ghost predicate Valid()
      reads this
    {
      |entries| <= Capacity
    }

    constructor ()
      ensures Valid() && entries == []
    {
      entries := [];
    }

    /** `add_activity_log(kind, message)`. */
    method Add(kind: string, event: Event, now: string)
      requires Valid()
      modifies this
      ensures Valid()
      ensures entries == Pushed(old(entries), Activity(kind, event, now))
    {
      entries := [Activity(kind, event, now)] + entries;
      if |entries| > Capacity {
        entries := entries[..|entries| - 1];
      }
    }
  }
}
