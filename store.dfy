/** The Redis instance that all brokers share: the leader lease, the integer
    counters used as high-water marks (`high_water_mark`, `hwm:{topic}:{p}`), the
    `topic_hwm` hash, and the idempotency locks `yak_msg_lock:{msg_id}`. Keys of
    different kinds cannot collide in Redis (their prefixes differ), so each
    kind is a field of its own. */
module Store {
  import opened Json
  import Lease

  /** The counter keys: `high_water_mark` and `hwm:{topic}:{partition}`. */
  datatype Counter = GlobalHwm | PartitionHwm(topic: string, partition: int)

  class Redis {
    var lease: Option<string>
    var counters: map<Counter, int>
    var topicHwm: map<string, int>
    var locks: set<string>

    constructor ()
      ensures lease == None && counters == map[] && topicHwm == map[] && locks == {}
    {
      lease := None;
      counters := map[];
      topicHwm := map[];
      locks := {};
    }

    /** `int(GET key) if GET key else 0`: an absent counter reads as 0. */
    function Count(k: Counter): (n: int)
      reads this
      ensures k !in counters ==> n == 0
      ensures k in counters ==> n == counters[k]
    {
      if k in counters then counters[k] else 0
    }

    /** `int(HGET topic_hwm topic) if ... else 0`. */
    function TopicCount(topic: string): (n: int)
      reads this
      ensures topic !in topicHwm ==> n == 0
      ensures topic in topicHwm ==> n == topicHwm[topic]
    {
      if topic in topicHwm then topicHwm[topic] else 0
    }

    method SetLeaseIfAbsent(id: string) returns (ok: bool)
      modifies this`lease
      ensures (lease, ok) == Lease.SetIfAbsent(old(lease), id)
    {
      ok := lease.None?;
      if ok {
        lease := Some(id);
      }
    }

    method SetLeaseIfExists(id: string) returns (ok: bool)
      modifies this`lease
      ensures (lease, ok) == Lease.SetIfExists(old(lease), id)
    {
      ok := lease.Some?;
      if ok {
        lease := Some(id);
      }
    }

    /** The lease's time-to-live runs out. */
    method ExpireLease()
      modifies this`lease
      ensures lease == None
    {
      lease := None;
    }

    /** `INCR key`: an absent counter starts from 0; returns the new value. */
    method Incr(k: Counter) returns (v: int)
      modifies this`counters
      ensures v == old(Count(k)) + 1
      ensures counters == old(counters)[k := v]
    {
      v := Count(k) + 1;
      counters := counters[k := v];
    }

    /** `HINCRBY topic_hwm topic delta`. */
    method HIncrBy(topic: string, delta: int) returns (v: int)
      modifies this`topicHwm
      ensures v == old(TopicCount(topic)) + delta
      ensures topicHwm == old(topicHwm)[topic := v]
    {
      v := TopicCount(topic) + delta;
      topicHwm := topicHwm[topic := v];
    }

    /** `SET yak_msg_lock:{id} processed NX`. */
    method SetLockIfAbsent(id: string) returns (ok: bool)
      modifies this`locks
      ensures ok <==> id !in old(locks)
      ensures locks == old(locks) + {id}
    {
      ok := id !in locks;
      locks := locks + {id};
    }

    /** `DELETE yak_msg_lock:{id}`, and also what the lock's time-to-live does. */
    method DeleteLock(id: string)
      modifies this`locks
      ensures locks == old(locks) - {id}
    {
      locks := locks - {id};
    }
  }
}
