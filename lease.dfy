/** The leader lease as the coordination store holds it: one key, `leader_lease`,
    whose value is the id of the broker holding it, or nothing once it expired
    or before anyone was elected. The store's time-to-live is not modelled;
    expiry is an explicit step. */
module Lease {
  import opened Json

  /** `SET leader_lease id NX`: stores `id` only when no lease exists; reports success. */
  function SetIfAbsent(lease: Option<string>, id: string): (r: (Option<string>, bool))
    ensures r.1 <==> lease.None?
    ensures r.1 ==> r.0 == Some(id)
    ensures !r.1 ==> r.0 == lease
    ensures r.0.Some?
  {
    if lease.None? then (Some(id), true) else (lease, false)
  }

  /** `SET leader_lease id XX`, the renewal as written: stores `id` whenever some
      lease exists, whoever holds it. */
  function SetIfExists(lease: Option<string>, id: string): (r: (Option<string>, bool))
    ensures r.1 <==> lease.Some?
    ensures r.1 ==> r.0 == Some(id)
    ensures !r.1 ==> r.0 == None
  {
    if lease.Some? then (Some(id), true) else (lease, false)
  }

  /** A renewal fenced on the holder: extends the lease only for the broker that holds it. */
  function RenewIfHolder(lease: Option<string>, id: string): (r: (Option<string>, bool))
    ensures r.0 == lease
    ensures r.1 <==> lease == Some(id)
  {
    if lease == Some(id) then (lease, true) else (lease, false)
  }

  /** The holder a handler reports (`if not leader_id`): an empty value counts as no leader. */
  function Holder(lease: Option<string>): (r: Option<string>)
    ensures r.Some? <==> lease.Some? && lease.value != ""
    ensures r.Some? ==> lease == r
  {
    if lease.Some? && lease.value != "" then lease else None
  }

  /** Election is exclusive: once one broker has won, a competing election fails
      and leaves the winner in place, until the lease is gone. */
  lemma ElectionExclusive(lease: Option<string>, a: string, b: string)
    requires SetIfAbsent(lease, a).1
    ensures SetIfAbsent(lease, a).0 == Some(a)
    ensures SetIfAbsent(SetIfAbsent(lease, a).0, b) == (Some(a), false)
  {
  }

  /** A successful election means no lease existed and the winner now holds it;
      a failed one changes nothing. */
  lemma ElectionOutcome(lease: Option<string>, id: string)
    ensures SetIfAbsent(lease, id).1 <==> lease.None?
    ensures SetIfAbsent(lease, id).1 ==> SetIfAbsent(lease, id).0 == Some(id)
    ensures !SetIfAbsent(lease, id).1 ==> SetIfAbsent(lease, id).0 == lease
  {
  }

  /** As written, renewal succeeds for a broker that does not hold the lease and
      hands the lease to it: broker `a`, whose lease expired while `b` was
      elected, takes the lease from `b` and keeps its leader flag. */
  lemma UnfencedRenewalTakesOver(a: string, b: string)
    requires a != b
    ensures var elected := SetIfAbsent(None, b);
            elected == (Some(b), true) && SetIfExists(elected.0, a) == (Some(a), true)
  {
  }

  /** With a fenced renewal the holder never changes, and only the holder succeeds. */
  lemma FencedRenewalKeepsHolder(lease: Option<string>, id: string)
    ensures RenewIfHolder(lease, id).0 == lease
    ensures RenewIfHolder(lease, id).1 <==> lease == Some(id)
  {
  }

  /** Steps of the coordination store seen from all brokers sharing the lease key. */
  datatype Step = Expire | Elect(id: string) | Renew(id: string)

  function Apply(lease: Option<string>, s: Step, fenced: bool): Option<string>
  {
    match s
    case Expire => None
    case Elect(id) => SetIfAbsent(lease, id).0
    case Renew(id) => if fenced then RenewIfHolder(lease, id).0 else SetIfExists(lease, id).0
  }

  function Run(lease: Option<string>, steps: seq<Step>, fenced: bool): Option<string>
    decreases |steps|
  {
    if steps == [] then lease else Apply(Run(lease, steps[..|steps| - 1], fenced), steps[|steps| - 1], fenced)
  }

  /** With fenced renewals, whoever holds the lease after any run got it from the
      last election that won since the lease was last free: a holder is never
      replaced by another broker without the lease first expiring. */
  lemma {:induction false} FencedHolderOnlyChangesThroughExpiry(lease: Option<string>, steps: seq<Step>, id: string)
    requires lease == Some(id)
    requires forall i :: 0 <= i < |steps| ==> steps[i] != Expire
    ensures Run(lease, steps, true) == Some(id)
    decreases |steps|
  {
    if steps != [] {
      FencedHolderOnlyChangesThroughExpiry(lease, steps[..|steps| - 1], id);
    }
  }

  /** As written, a renewal alone replaces the holder without any expiry. */
  lemma UnfencedHolderChangesWithoutExpiry(a: string, b: string)
    requires a != b
    ensures Run(Some(b), [Renew(a)], false) == Some(a)
  {
    assert [Renew(a)][..0] == [];
  }
}
