/** The leader broker (broker/broker.py): one log file, replicate-then-commit
    produce, and an exclusive HWM-gated consume. */
module Broker {
  import opened Json
  import opened Reading
  import opened Activity
  import opened Store
  import opened Election
  import Lease

  /** `FOLLOWER_URL`: the only follower, always configured. */
  const FollowerUrl: string := "http://192.168.191.242:5002"

  /** What the follower's `/internal/replicate` call gave: a status code, or a
      `RequestException` (refused connection, timeout). */
  datatype FollowerReply = Replied(status: int) | Unreachable

  datatype ProduceResult =
    | NoLeader                            // 503: no lease holder
    | NotLeader(leaderId: string)         // 400: another broker holds the lease
    | NoData                              // 400: empty or falsy body
    | Crash                               // 500: a body that is not an object (`data.get` raises)
    | ReplicationFailed                   // 500: the follower answered with a non-200 status
    | FollowerUnreachable                 // 500
    | Committed(offset: int, leaderId: string)

  datatype ConsumeResult =
    | ConsumeNotLeader                    // 400
    | InvalidOffset                       // 400
    | Messages(messages: seq<Delivered>)

  /** The log and the HWM after one produce, as written: the line is appended
      before replication and the HWM advances only when the follower acknowledged. */
  function AppendThenCommit(log: seq<Line>, hwm: int, v: Json, acked: bool): (r: (seq<Line>, int))
    ensures |r.0| == |log| + 1 && r.0[..|log|] == log && r.0[|log|] == Entry(v)
    ensures acked ==> r.1 == hwm + 1
    ensures !acked ==> r.1 == hwm && |r.0| - r.1 == |log| - hwm + 1
  {
    (log + [Entry(v)], if acked then hwm + 1 else hwm)
  }

  /** As written, the HWM counts acknowledged lines while consume reads it as a
      line position: after a produce whose replication failed, the next
      acknowledged produce returns offset 1, and offset 1 serves the line that
      was never acknowledged; the acknowledged one is served only after a later
      commit, under the offset returned for that later message. */
  lemma FailedReplicationShadowsAcked(a: Json, b: Json)
    requires a != b
    ensures var failed := AppendThenCommit([], 0, a, false);
            var acked := AppendThenCommit(failed.0, failed.1, b, true);
            acked.1 == 1 && Window(acked.0, 1, acked.1) == [Delivered(1, a)]
  {
    var acked := AppendThenCommit([Entry(a)], 0, b, true);
    assert acked.0 == [Entry(a), Entry(b)];
    assert acked.0[..1] == [Entry(a)];
    assert acked.0[..1][..0] == [];
  }

  /** The corrected produce step: a line whose replication failed is removed
      again, so the log holds exactly the committed lines. */
  function CommitOrRollback(log: seq<Line>, hwm: int, v: Json, acked: bool): (r: (seq<Line>, int))
    ensures |r.0| - r.1 == |log| - hwm
    ensures |r.0| >= |log| && r.0[..|log|] == log
    ensures acked ==> r.1 == hwm + 1 && |r.0| == |log| + 1 && r.0[|log|] == Entry(v)
    ensures !acked ==> r == (log, hwm)
  {
    if acked then (log + [Entry(v)], hwm + 1) else (log, hwm)
  }

  /** With the rollback the log length stays equal to the HWM, and the offset an
      acknowledged produce returns serves exactly the produced message. */
  lemma CommitOrRollbackServesCommittedOffset(log: seq<Line>, hwm: int, v: Json, acked: bool)
    requires |log| == hwm
    ensures var r := CommitOrRollback(log, hwm, v, acked);
            |r.0| == r.1 && r.0[..|log|] == log &&
            (acked ==> r.1 == hwm + 1 && Window(r.0, r.1, r.1) == [Delivered(r.1, v)]) &&
            (!acked ==> r == (log, hwm))
  {
    if acked {
      var log' := log + [Entry(v)];
      assert log'[..|log|] == log;
      CommitExtendsWindow(log, v, hwm + 1);
      WindowEmptyAboveHwm(log, hwm + 1, |log|);
    }
  }

  class Broker {
    const id: string
    const feed: ActivityFeed
    const role: WatchedLeadership
    /** `LOG_FILE`, one line per `json.dumps(data)`. */
    var log: seq<Line>
    var logExists: bool
    var messagesProduced: nat
    var messagesConsumed: nat
    var replications: nat
    var lastReplication: Option<string>

    ghost predicate Valid()
      reads this, role, feed
    {
      role.feed == feed && role.id == id && role.Valid() && (!logExists ==> log == [])
    }

    /** A broker process at start-up, before `main` elects. */
    constructor (id: string)
      requires id != ""
      ensures Valid() && this.id == id && !role.isLeader && fresh(role) && fresh(feed)
      ensures log == [] && !logExists && feed.entries == []
      ensures messagesProduced == 0 && messagesConsumed == 0 && replications == 0 && lastReplication == None
    {
      this.id := id;
      var f := new ActivityFeed();
      feed := f;
      role := new WatchedLeadership(id, f);
      log := [];
      logExists := false;
      messagesProduced := 0;
      messagesConsumed := 0;
      replications := 0;
      lastReplication := None;
    }

    /** `handle_produce`. A non-leader answers with the lease holder and touches
        nothing; a leader appends the body, replicates it, and commits it by
        incrementing `high_water_mark` only when the follower acknowledged. */
    method HandleProduce(store: Redis, body: Json, reply: FollowerReply, now: string) returns (r: ProduceResult)
      requires Valid()
      modifies this`log, this`logExists, this`messagesProduced, this`replications, this`lastReplication
      modifies feed, store`counters
      ensures Valid()
      ensures !role.isLeader ==>
        r == (match Lease.Holder(store.lease) case None => NoLeader case Some(h) => NotLeader(h)) &&
        log == old(log) && store.counters == old(store.counters) && messagesProduced == old(messagesProduced)
      ensures role.isLeader && !Truthy(body) ==>
        r == NoData && log == old(log) && store.counters == old(store.counters) &&
        messagesProduced == old(messagesProduced)
      ensures role.isLeader && Truthy(body) && !body.JObj? ==>
        r == Crash && log == old(log) && store.counters == old(store.counters) &&
        messagesProduced == old(messagesProduced) + 1
      ensures role.isLeader && Truthy(body) && body.JObj? ==>
        messagesProduced == old(messagesProduced) + 1 && logExists &&
        (log, store.Count(GlobalHwm)) == AppendThenCommit(old(log), old(store.Count(GlobalHwm)), body, reply == Replied(200)) &&
        r == (match reply
              case Unreachable => FollowerUnreachable
              case Replied(code) => if code != 200 then ReplicationFailed else Committed(store.Count(GlobalHwm), id))
      ensures role.isLeader && Truthy(body) && body.JObj? ==>
        var received := Pushed(old(feed.entries), Activity("produce", ProduceReceived(GetOr(body, "producer_id", JStr("unknown"))), now));
        feed.entries == if r.Committed? then Pushed(received, Activity("replicate", ReplicatedTo(FollowerUrl), now)) else received
      ensures !(role.isLeader && Truthy(body) && body.JObj?) ==> feed.entries == old(feed.entries)
      ensures r.Committed? ==>
        store.counters == old(store.counters)[GlobalHwm := r.offset] && replications == old(replications) + 1 &&
        lastReplication == Some(now)
      ensures !r.Committed? ==> store.counters == old(store.counters) && replications == old(replications)
    {
      if !role.isLeader {
        var holder := Lease.Holder(store.lease);
        if holder.None? {
          return NoLeader;
        }
        return NotLeader(holder.value);
      }
      if !Truthy(body) {
        return NoData;
      }
      messagesProduced := messagesProduced + 1;
      if !body.JObj? {
        return Crash;
      }
      feed.Add("produce", ProduceReceived(GetOr(body, "producer_id", JStr("unknown"))), now);
      log := log + [Entry(body)];
      logExists := true;
      match reply {
        case Unreachable =>
          return FollowerUnreachable;
        case Replied(code) =>
          if code != 200 {
            return ReplicationFailed;
          }
      }
      replications := replications + 1;
      lastReplication := Some(now);
      feed.Add("replicate", ReplicatedTo(FollowerUrl), now);
      var hwm := store.Incr(GlobalHwm);
      return Committed(hwm, id);
    }

    /** `handle_consume`: the committed lines strictly after `offset`, up to the
        HWM (absent reads as 0). A missing log file serves nothing and leaves the
        metrics alone. */
    method HandleConsume(store: Redis, offsetArg: IntArg, now: string) returns (r: ConsumeResult)
      requires Valid()
      modifies this`messagesConsumed, feed
      ensures Valid()
      ensures !role.isLeader ==> r == ConsumeNotLeader
      ensures role.isLeader && offsetArg.NotAnInt? ==> r == InvalidOffset
      ensures role.isLeader && !offsetArg.NotAnInt? ==>
        var offset := IntArgOr(offsetArg, 0).value;
        r == Messages(if logExists then Window(log, offset + 1, store.Count(GlobalHwm)) else [])
      ensures r.Messages? && logExists ==>
        messagesConsumed == old(messagesConsumed) + |r.messages| &&
        feed.entries == if r.messages == [] then old(feed.entries)
          else Pushed(old(feed.entries), Activity("consume",
            Served(|r.messages|, IntArgOr(offsetArg, 0).value), now))
      ensures !(r.Messages? && logExists) ==> messagesConsumed == old(messagesConsumed) && feed.entries == old(feed.entries)
    {
      if !role.isLeader {
        return ConsumeNotLeader;
      }
      var parsed := IntArgOr(offsetArg, 0);
      if parsed.None? {
        return InvalidOffset;
      }
      var offset := parsed.value;
      var hwm := store.Count(GlobalHwm);
      if !logExists {
        return Messages([]);
      }
      var messages := ReadCommitted(log, offset + 1, hwm);
      messagesConsumed := messagesConsumed + |messages|;
      if messages != [] {
        feed.Add("consume", Served(|messages|, offset), now);
      }
      return Messages(messages);
    }
  }
}
