/** The leader-election side of each broker process: the `IS_LEADER` flag, the
    lease renewal thread, and the loop that watches the lease. Each loop body is
    one atomic step; `reachable` says whether the coordination store answered
    (an exception in the Python code). Thread start-up is a flag or a count of
    live threads. */
module Election {
  import opened Json
  import Lease
  import opened Store
  import opened Activity

  /** Leadership of a process whose `watch_leader_status` thread runs for its
      whole life: the broker (broker/broker.py) and the partitioned follower,
      whose election code is the same. */
  class WatchedLeadership {
    const id: string
    const feed: ActivityFeed
    var isLeader: bool
    /** The lease renewal thread is alive. */
    var renewing: bool
    var electionsWon: nat
    var leadershipChanges: nat

    /** A leader always has a live renewal thread. */
    ghost predicate Valid()
      reads this, feed
    {
      id != "" && feed.Valid() && (isLeader ==> renewing)
    }

    constructor (id: string, feed: ActivityFeed)
      requires id != "" && feed.Valid()
      ensures Valid()
      ensures this.id == id && this.feed == feed && feed.entries == old(feed.entries)
      ensures !isLeader && !renewing && electionsWon == 0 && leadershipChanges == 0
    {
      this.id := id;
      this.feed := feed;
      isLeader := false;
      renewing := false;
      electionsWon := 0;
      leadershipChanges := 0;
    }

    /** `attempt_leader_election`: take the lease if nobody holds it. A win counts
        an election, logs it and starts the renewal thread (unless one is alive);
        a loss or an exception clears the leader flag. */
    method AttemptLeaderElection(store: Redis, reachable: bool, now: string)
      requires Valid()
      modifies this`isLeader, this`renewing, this`electionsWon, feed, store`lease
      ensures Valid()
      ensures !reachable ==> store.lease == old(store.lease) && !isLeader
      ensures reachable ==> (store.lease, isLeader) == Lease.SetIfAbsent(old(store.lease), id)
      ensures isLeader ==> electionsWon == old(electionsWon) + 1 && renewing
      ensures isLeader ==> feed.entries == Pushed(old(feed.entries), Activity("election", ElectionWon(id), now))
      ensures !isLeader ==> electionsWon == old(electionsWon) && renewing == old(renewing)
      ensures !isLeader ==> feed.entries == old(feed.entries)
    {
      if !reachable {
        isLeader := false;
        return;
      }
      var won := store.SetLeaseIfAbsent(id);
      isLeader := won;
      if won {
        electionsWon := electionsWon + 1;
        feed.Add("election", ElectionWon(id), now);
        renewing := true;
      }
    }

    /** One pass of `_renew_lease`: the thread ends once the flag is down;
        otherwise it re-sets the lease only if some lease exists (whoever holds
        it), and a refusal or an exception clears the flag and ends the thread. */
    method RenewLeaseStep(store: Redis, reachable: bool)
      requires Valid() && renewing
      modifies this`isLeader, this`renewing, store`lease
      ensures Valid()
      ensures !old(isLeader) ==> !isLeader && !renewing && store.lease == old(store.lease)
      ensures old(isLeader) && !reachable ==> !isLeader && !renewing && store.lease == old(store.lease)
      ensures old(isLeader) && reachable ==>
        (store.lease, isLeader) == Lease.SetIfExists(old(store.lease), id) && renewing == isLeader
    {
      if !isLeader {
        renewing := false;
        return;
      }
      if !reachable {
        isLeader := false;
        renewing := false;
        return;
      }
      var ok := store.SetLeaseIfExists(id);
      if !ok {
        isLeader := false;
        renewing := false;
      }
    }

    /** One pass of `watch_leader_status`. With the store reachable it elects
        when there is no holder, resumes leadership when it finds its own id,
        and steps down (counting a leadership change) when it finds another
        holder while leading. Afterwards the flag agrees with the lease. */
    method WatchStep(store: Redis, reachable: bool, now: string)
      requires Valid()
      modifies this`isLeader, this`renewing, this`electionsWon, this`leadershipChanges, feed, store`lease
      ensures Valid()
      ensures !reachable ==>
        isLeader == old(isLeader) && renewing == old(renewing) && store.lease == old(store.lease) &&
        electionsWon == old(electionsWon) && leadershipChanges == old(leadershipChanges) &&
        feed.entries == old(feed.entries)
      ensures reachable ==> (isLeader <==> store.lease == Some(id))
      ensures reachable && Lease.Holder(old(store.lease)).None? ==>
        (store.lease, isLeader) == Lease.SetIfAbsent(old(store.lease), id) &&
        leadershipChanges == old(leadershipChanges) &&
        electionsWon == old(electionsWon) + (if isLeader then 1 else 0)
      ensures reachable && old(store.lease) == Some(id) ==>
        store.lease == old(store.lease) && isLeader && renewing &&
        electionsWon == old(electionsWon) && leadershipChanges == old(leadershipChanges) &&
        feed.entries == old(feed.entries)
      ensures reachable && Lease.Holder(old(store.lease)).Some? && old(store.lease) != Some(id) ==>
        store.lease == old(store.lease) && !isLeader && renewing == old(renewing) &&
        electionsWon == old(electionsWon) &&
        leadershipChanges == old(leadershipChanges) + (if old(isLeader) then 1 else 0) &&
        feed.entries == if old(isLeader)
          then Pushed(old(feed.entries), Activity("election", LeadershipTransferred(old(store.lease).value), now))
          else old(feed.entries)
    {
      if !reachable {
        return;
      }
      var current := Lease.Holder(store.lease);
      if current.None? {
        AttemptLeaderElection(store, true, now);
      } else if current.value == id && !isLeader {
        isLeader := true;
        renewing := true;
      } else if current.value != id && isLeader {
        isLeader := false;
        leadershipChanges := leadershipChanges + 1;
        feed.Add("election", LeadershipTransferred(current.value), now);
      }
    }
  }

  /** Leadership of a process that starts as a follower and runs
      `start_leader_monitoring` (follower/follower.py and the topic-only
      follower): monitor threads poll while the flag is down, and every failed
      renewal starts a new one without checking for a live one. */
  class MonitoredLeadership {
    const id: string
    var isLeader: bool
    /** The lease renewal thread is alive. */
    var renewing: bool
    /** The number of live monitor threads. */
    var monitors: nat

    /** A leader has a live renewal thread, and a follower a live monitor, so a
        follower always stands for election once the lease is gone. */
    ghost predicate Valid()
      reads this
    {
      id != "" && (isLeader ==> renewing) && (!isLeader ==> monitors > 0)
    }

    /** `main`: start as a follower with one monitor thread. */
    constructor (id: string)
      requires id != ""
      ensures Valid() && this.id == id
      ensures !isLeader && !renewing && monitors == 1
    {
      this.id := id;
      isLeader := false;
      renewing := false;
      monitors := 1;
    }

    /** `attempt_leader_election` of the followers: the same lease transition,
        without metrics or activity. */
    method AttemptLeaderElection(store: Redis, reachable: bool)
      requires Valid() && monitors > 0
      modifies this`isLeader, this`renewing, store`lease
      ensures Valid() && monitors == old(monitors)
      ensures !reachable ==> store.lease == old(store.lease) && !isLeader && renewing == old(renewing)
      ensures reachable ==> (store.lease, isLeader) == Lease.SetIfAbsent(old(store.lease), id)
      ensures isLeader ==> renewing
      ensures !isLeader ==> renewing == old(renewing)
    {
      if !reachable {
        isLeader := false;
        return;
      }
      var won := store.SetLeaseIfAbsent(id);
      isLeader := won;
      if won {
        renewing := true;
      }
    }

    /** One pass of `_monitor_loop`: a monitor that finds the flag up ends;
        otherwise it stands for election only when the lease has no holder. A
        monitor never touches the lease or the flag of a leader. */
    method MonitorStep(store: Redis, reachable: bool)
      requires Valid() && monitors > 0
      modifies this`isLeader, this`renewing, this`monitors, store`lease
      ensures Valid()
      ensures old(isLeader) ==>
        isLeader && monitors == old(monitors) - 1 && store.lease == old(store.lease) && renewing == old(renewing)
      ensures !old(isLeader) ==> monitors == old(monitors)
      ensures !old(isLeader) && reachable && Lease.Holder(old(store.lease)).None? ==>
        (store.lease, isLeader) == Lease.SetIfAbsent(old(store.lease), id)
      ensures !old(isLeader) && (!reachable || Lease.Holder(old(store.lease)).Some?) ==>
        !isLeader && store.lease == old(store.lease) && renewing == old(renewing)
    {
      if isLeader {
        monitors := monitors - 1;
        return;
      }
      if !reachable {
        return;
      }
      if Lease.Holder(store.lease).None? {
        AttemptLeaderElection(store, true);
      }
    }

    /** One pass of `_renew_lease` in the followers: as in the broker, but losing
        the lease also starts a new monitor thread. */
    method RenewLeaseStep(store: Redis, reachable: bool)
      requires Valid() && renewing
      modifies this`isLeader, this`renewing, this`monitors, store`lease
      ensures Valid()
      ensures !old(isLeader) ==>
        !isLeader && !renewing && store.lease == old(store.lease) && monitors == old(monitors)
      ensures old(isLeader) && !reachable ==>
        !isLeader && !renewing && store.lease == old(store.lease) && monitors == old(monitors) + 1
      ensures old(isLeader) && reachable ==>
        (store.lease, isLeader) == Lease.SetIfExists(old(store.lease), id) && renewing == isLeader &&
        monitors == old(monitors) + (if isLeader then 0 else 1)
    {
      if !isLeader {
        renewing := false;
        return;
      }
      if !reachable {
        isLeader := false;
        renewing := false;
        monitors := monitors + 1;
        return;
      }
      var ok := store.SetLeaseIfExists(id);
      if !ok {
        isLeader := false;
        renewing := false;
        monitors := monitors + 1;
      }
    }
  }
}
