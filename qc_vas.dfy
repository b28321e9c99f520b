/**
 * kernel/sched/walt/qc_vas.c: counting paused CPUs.  The kernel keeps a
 * global `pending_active_mask` of the CPUs not (being) paused; pausing and
 * unpausing a CPU clear and set its bit, and the count of paused CPUs in a
 * cluster mask is taken against it, optionally counting offline CPUs as
 * paused too.  An empty pending mask means "not set up yet" and is replaced
 * by the active mask on first use.
 *
 * CPU masks are sets of CPU numbers below nr_cpu_ids.
 */
module QcVas {

  type CpuId = nat

  /** The CPUs below `n` that are not in `s`: cpumask_complement. */
  function Complement(s: set<CpuId>, n: nat): (r: set<CpuId>)
    ensures forall c: CpuId :: c in r <==> c < n && c !in s
  {
    set c: CpuId | c < n && c !in s
  }

  /** A CPU mask of a machine with `n` possible CPUs. */
  predicate IsMask(s: set<CpuId>, n: nat)
  {
    forall c :: c in s ==> c < n
  }

  /** The paused CPUs of `mask`. */
  function PausedIn(mask: set<CpuId>, pending: set<CpuId>): set<CpuId>
  {
    mask - pending
  }

  /** The CPUs of `mask` that are paused or offline. */
  function PausedOrOfflineIn(mask: set<CpuId>, pending: set<CpuId>, online: set<CpuId>, n: nat): set<CpuId>
  {
    (Complement(online, n) + Complement(pending, n)) * mask
  }

  /**
   * Counting offline CPUs as well never lowers the count, and neither count
   * exceeds the size of the mask.
   */
  lemma PauseCountBounds(mask: set<CpuId>, pending: set<CpuId>, online: set<CpuId>, n: nat)
    requires IsMask(mask, n)
    ensures |PausedIn(mask, pending)| <= |PausedOrOfflineIn(mask, pending, online, n)| <= |mask|
  {
    assert PausedIn(mask, pending) <= PausedOrOfflineIn(mask, pending, online, n);
    SubsetCard(PausedIn(mask, pending), PausedOrOfflineIn(mask, pending, online, n));
    SubsetCard(PausedOrOfflineIn(mask, pending, online, n), mask);
  }

  /** With every CPU of the mask online, the two counts agree. */
  lemma PauseCountAllOnline(mask: set<CpuId>, pending: set<CpuId>, online: set<CpuId>, n: nat)
    requires IsMask(mask, n) && mask <= online
    ensures PausedOrOfflineIn(mask, pending, online, n) == PausedIn(mask, pending)
  {
  }

  lemma {:induction false} SubsetCard(a: set<CpuId>, b: set<CpuId>)
    requires a <= b
    ensures |a| <= |b|
    decreases |b|
  {
    if a != {} {
      var x :| x in a;
      SubsetCard(a - {x}, b - {x});
    }
  }

  /** Pausing a pending-active CPU of the mask adds exactly one to the paused count. */
  lemma {:induction false} PauseCountsOneMore(mask: set<CpuId>, pending: set<CpuId>, cpu: CpuId)
    requires cpu in mask && cpu in pending
    ensures |PausedIn(mask, pending - {cpu})| == |PausedIn(mask, pending)| + 1
  {
    assert PausedIn(mask, pending - {cpu}) == PausedIn(mask, pending) + {cpu};
    assert cpu !in PausedIn(mask, pending);
  }

  /** pending_active_mask together with the machine's number of possible CPUs. */
  class PauseState {
    const nrCpuIds: nat
    var pendingActive: set<CpuId>

    ghost predicate Valid()
      reads this
    {
      IsMask(pendingActive, nrCpuIds)
    }

    /** The mask starts as CPU_MASK_NONE. */
    constructor (nrCpuIds: nat)
      ensures Valid() && this.nrCpuIds == nrCpuIds && pendingActive == {}
    {
      this.nrCpuIds := nrCpuIds;
      pendingActive := {};
    }

    /**
     * sched_pause_count(mask, include_offline), with cpu_active_mask and
     * cpu_online_mask passed in.
     */
    method PauseCount(mask: set<CpuId>, includeOffline: bool, active: set<CpuId>, online: set<CpuId>)
      returns (count: nat)
      requires Valid() && IsMask(mask, nrCpuIds) && IsMask(active, nrCpuIds)
      modifies this`pendingActive
      ensures Valid()
      ensures old(pendingActive) == {} ==> pendingActive == active
      ensures old(pendingActive) != {} ==> pendingActive == old(pendingActive)
      ensures !includeOffline ==> count == |PausedIn(mask, pendingActive)|
      ensures includeOffline ==> count == |PausedOrOfflineIn(mask, pendingActive, online, nrCpuIds)|
    {
      var countMask: set<CpuId> := {};
      var pauseMask: set<CpuId> := {};
      if pendingActive == {} {
        pendingActive := active;
      }
      if includeOffline {
        pauseMask := Complement(pendingActive, nrCpuIds);
        countMask := Complement(online, nrCpuIds);
        countMask := countMask + pauseMask;
        countMask := countMask * mask;
      } else {
        countMask := mask - pendingActive;
      }
      count := |countMask|;
    }

    /** sched_pause_pending(cpu): clear the CPU's bit. */
    method PausePending(cpu: CpuId)
      requires Valid()
      modifies this`pendingActive
      ensures Valid()
      ensures pendingActive == old(pendingActive) - {cpu}
    {
      pendingActive := pendingActive - {cpu};
    }

    /** sched_unpause_pending(cpu): set the CPU's bit. */
    method UnpausePending(cpu: CpuId)
      requires Valid() && cpu < nrCpuIds
      modifies this`pendingActive
      ensures Valid()
      ensures pendingActive == old(pendingActive) + {cpu}
    {
      pendingActive := pendingActive + {cpu};
    }

    /**
     * Not an operation of the driver: a pause followed by an unpause of the
     * same CPU, written out so the round trip can be stated. Unpausing a CPU
     * right after pausing it restores the mask it had.
     */
    method PauseThenUnpause(cpu: CpuId)
      requires Valid() && cpu < nrCpuIds && cpu in pendingActive
      modifies this`pendingActive
      ensures Valid()
      ensures pendingActive == old(pendingActive)
    {
      PausePending(cpu);
      UnpausePending(cpu);
    }
  }
}
