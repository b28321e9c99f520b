/**
 * kernel/sched/walt/walt.h: the per-CPU run-queue and per-task records the
 * WALT scheduler extensions read, and the inline helpers of the header
 * (utilisation clamps, over-utilisation, fit tests with migration margins,
 * the CPU_RESERVED bit, per-task boost expiry, cumulative window demand).
 *
 * The kernel keeps one `struct rq` (+ `struct walt_rq`) per CPU and one
 * `struct task_struct` (+ `struct walt_task_struct`) per task.  Here they are
 * the datatypes `Rq` and `Task`; the system-wide state is the class `Sched`
 * whose fields are the sequences of those records, indexed by CPU number and
 * by task number.
 */
module Walt {
  import opened Machine

  const MAX_RT_PRIO: int := 100
  const SCHED_CAPACITY_SCALE: nat := 1024
  /** capacity_margin_freq (walt_cfs.c: ~20% margin). */
  const CAPACITY_MARGIN_FREQ: nat := 1280

  /** enum task_boost_type */
  const TASK_BOOST_NONE: nat := 0
  const TASK_BOOST_ON_MID: nat := 1
  const TASK_BOOST_ON_MAX: nat := 2
  const TASK_BOOST_STRICT_MAX: nat := 3

  /** Mask of bit number CPU_RESERVED (= 1) of walt_rq.walt_flags. */
  const CPU_RESERVED_MASK: bv64 := 2

  type CpuId = nat
  type TaskId = nat

  datatype Option<T> = None | Some(value: T)

  /** TASK_RUNNING, TASK_WAKING, and every other p->state. */
  datatype TaskState = Running | Waking | Sleeping

  /** enum sched_boost_policy */
  datatype BoostPolicy = BoostNone | BoostOnBig | BoostOnAll

  /**
   * One task: the fields of task_struct and walt_task_struct that the model
   * reads.  `boostPolicy` is task_boost_policy(p) (global boost state and the
   * task's cgroup), `uclampBoosted` is uclamp_boosted(p), and `kickUpmigrate`
   * is the part of walt_should_kick_upmigrate(p, cpu) that does not depend on
   * the CPU (user hint at max, default colocation group with skip_min, and
   * the task's unfilter count).  `boost` holds a task_boost_type value.
   */
  datatype Task = Task(
    cpu: CpuId,              // task_cpu(p)
    prio: int,               // p->prio
    state: TaskState,        // p->state
    onRq: bool,              // task_on_rq_queued(p)
    isNew: bool,             // p->se.avg.last_update_time == 0
    allowed: set<CpuId>,     // p->cpus_ptr
    demandScaled: nat,       // wts->demand_scaled, i.e. task_util(p)
    uclampMin: nat,          // uclamp_eff_value(p, UCLAMP_MIN)
    uclampMax: nat,          // uclamp_eff_value(p, UCLAMP_MAX)
    misfit: bool,            // wts->misfit
    boost: nat,              // wts->boost
    boostPeriod: nat,        // wts->boost_period
    boostExpires: nat,       // wts->boost_expires
    inIowait: bool,          // p->in_iowait
    inRtg: bool,             // task_in_related_thread_group(p)
    lowLatency: bool,        // wts->low_latency
    lastEnqueuedTs: nat,     // wts->last_enqueued_ts
    boostPolicy: BoostPolicy,
    uclampBoosted: bool,
    kickUpmigrate: bool,
    vruntime: nat)           // p->se.vruntime

  /**
   * One CPU: its static topology (capacity, cluster, margins), the load
   * figures WALT keeps for it, and the load-balancing state of its run queue.
   * The CFS queue `cfsTasks` is rq->cfs_tasks with the list head first; its
   * length is cfs.h_nr_running, and nr_running counts in addition the
   * `nrOther` tasks of higher scheduling classes.
   */
  datatype Rq = Rq(
    capOrig: nat,            // capacity_orig_of(cpu)
    capacity: nat,           // capacity_of(cpu)
    archCap: nat,            // arch_scale_cpu_capacity(cpu)
    cluster: nat,            // wrq->cluster->id
    marginUp: nat,           // sched_capacity_margin_up[cpu]
    marginDown: nat,         // sched_capacity_margin_down[cpu]
    loadBoost: nat,          // sysctl_sched_load_boost[cpu]
    freqDomain: set<CpuId>,  // wrq->freq_domain_cpumask
    active: bool,            // cpu_active(cpu)
    online: bool,            // cpu_online(cpu)
    cumRunnableAvg: nat,     // walt_stats.cumulative_runnable_avg_scaled
    cumWindowDemand: nat,    // wrq->cum_window_demand_scaled
    utilAvg: nat,            // rq->cfs.avg.util_avg
    nrBigTasks: nat,         // walt_stats.nr_big_tasks
    nrRtgHighPrio: nat,      // walt_stats.nr_rtg_high_prio_tasks
    highIrqload: bool,       // sched_cpu_high_irqload(cpu)
    availableIdle: bool,     // available_idle_cpu(cpu)
    idleExitLatency: nat,    // walt_get_idle_exit_latency(rq): UINT_MAX without an idle state
    curr: TaskId,            // rq->curr
    idle: TaskId,            // rq->idle
    cfsTasks: seq<TaskId>,   // rq->cfs_tasks
    nrOther: nat,            // nr_running - cfs.h_nr_running
    activeBalance: bool,     // rq->active_balance
    pushCpu: CpuId,          // rq->push_cpu
    pushTask: Option<TaskId>,// wrq->push_task
    flags: bv64,             // wrq->walt_flags
    misfitTaskLoad: nat,     // rq->misfit_task_load
    idleStamp: nat)          // rq->idle_stamp

  /**
   * System-wide constants: max_possible_capacity, min_max_possible_capacity,
   * num_sched_clusters, cpu_array[order_index][cluster] (each a CPU mask,
   * here an ascending sequence) and asym_cap_sibling_cpus.
   */
  datatype Platform = Platform(
    maxCap: nat,
    minCap: nat,
    numClusters: nat,
    cpuArray: seq<seq<seq<CpuId>>>,
    asymSiblings: seq<CpuId>)

  /** A queued rotation swap: struct walt_lb_rotate_work without its work_struct. */
  datatype RotateWork = RotateWork(srcTask: TaskId, dstTask: TaskId, srcCpu: CpuId, dstCpu: CpuId)

  // ---------------------------------------------------------------------
  // Well-formedness of the records (what the kernel's references guarantee)
  // ---------------------------------------------------------------------

  /** A cpumask iterated with for_each_cpu: strictly ascending CPU numbers. */
  predicate Sorted(s: seq<CpuId>)
  {
    forall i, j :: 0 <= i < j < |s| ==> s[i] < s[j]
  }

  predicate CpusIn(s: seq<CpuId>, n: nat)
  {
    forall k :: 0 <= k < |s| ==> s[k] < n
  }

  predicate TasksIn(s: seq<TaskId>, nt: nat)
  {
    forall k :: 0 <= k < |s| ==> s[k] < nt
  }

  predicate RqOk(r: Rq, n: nat, nt: nat, nc: nat)
  {
    r.capOrig <= SCHED_CAPACITY_SCALE && r.cluster < nc &&
    r.curr < nt && r.idle < nt && TasksIn(r.cfsTasks, nt) &&
    r.pushCpu < n && (r.pushTask.Some? ==> r.pushTask.value < nt) &&
    r.cumWindowDemand < U64
  }

  predicate TaskOk(t: Task, n: nat)
  {
    t.cpu < n && forall c :: c in t.allowed ==> c < n
  }

  predicate PlatformOk(p: Platform, n: nat)
  {
    p.numClusters >= 1 && |p.cpuArray| == p.numClusters &&
    (forall o :: 0 <= o < |p.cpuArray| ==> |p.cpuArray[o]| == p.numClusters) &&
    (forall o, k :: 0 <= o < |p.cpuArray| && 0 <= k < |p.cpuArray[o]| ==>
       |p.cpuArray[o][k]| > 0 && Sorted(p.cpuArray[o][k]) && CpusIn(p.cpuArray[o][k], n)) &&
    Sorted(p.asymSiblings) && CpusIn(p.asymSiblings, n)
  }

  predicate WellFormed(p: Platform, rqs: seq<Rq>, tasks: seq<Task>)
  {
    |rqs| > 0 && PlatformOk(p, |rqs|) &&
    (forall c :: 0 <= c < |rqs| ==> RqOk(rqs[c], |rqs|, |tasks|, p.numClusters)) &&
    (forall t :: 0 <= t < |tasks| ==> TaskOk(tasks[t], |rqs|))
  }

  /** Replacing one CPU's record by a well-formed one keeps the system well-formed. */
  lemma UpdateRqWellFormed(p: Platform, rqs: seq<Rq>, tasks: seq<Task>, c: CpuId, r: Rq)
    requires WellFormed(p, rqs, tasks) && c < |rqs| && RqOk(r, |rqs|, |tasks|, p.numClusters)
    ensures WellFormed(p, rqs[c := r], tasks)
  {
  }

  /** Replacing one task's record by a well-formed one keeps the system well-formed. */
  lemma UpdateTaskWellFormed(p: Platform, rqs: seq<Rq>, tasks: seq<Task>, i: TaskId, t: Task)
    requires WellFormed(p, rqs, tasks) && i < |tasks| && TaskOk(t, |rqs|)
    ensures WellFormed(p, rqs, tasks[i := t])
  {
  }

  // ---------------------------------------------------------------------
  // Run-queue counters and utilisation
  // ---------------------------------------------------------------------

  /** cfs.h_nr_running */
  function HNrRunning(r: Rq): nat { |r.cfsTasks| }

  /** nr_running */
  function NrRunning(r: Rq): nat { |r.cfsTasks| + r.nrOther }

  /** task_util(p) */
  function TaskUtil(t: Task): nat { t.demandScaled }

  /** uclamp_task_util(p): the demand clamped into the task's uclamp range. */
  function UclampTaskUtil(t: Task): (u: nat)
    ensures t.uclampMin <= t.uclampMax ==> t.uclampMin <= u <= t.uclampMax
    ensures t.uclampMin <= t.demandScaled <= t.uclampMax ==> u == t.demandScaled
  {
    Min(Max(t.demandScaled, t.uclampMin), t.uclampMax)
  }

  /** cpu_util(cpu): the cumulative runnable average, never above the CPU's capacity. */
  function CpuUtil(r: Rq): (u: nat)
    ensures u <= r.capOrig && u <= r.cumRunnableAvg
    ensures u == r.cumRunnableAvg || u == r.capOrig
  {
    Min(r.cumRunnableAvg, r.capOrig)
  }

  /**
   * cpu_util_cum(cpu, delta).  The C code adds the u64 window demand into the
   * `int delta`, so the sum is truncated to 32 bits and reinterpreted as
   * signed before the negative check.
   */
  function CpuUtilCum(r: Rq, delta: int): (u: nat)
    ensures u <= r.capOrig
    ensures 0 <= delta + r.cumWindowDemand < S32_LIMIT ==>
              u == Min(delta + r.cumWindowDemand, r.capOrig)
    ensures S32_LIMIT <= delta + r.cumWindowDemand < U32 ==> u == 0
  {
    var sum := ToS32(Wrap32(delta + r.cumWindowDemand));
    if sum < 0 then 0 else if sum >= r.capOrig then r.capOrig else sum
  }

  /** add_capacity_margin(cpu_capacity, cpu): capacity scaled by 1280/1024 and the load boost. */
  function AddCapacityMargin(capacity: nat, loadBoost: nat): nat
  {
    capacity * CAPACITY_MARGIN_FREQ * (100 + loadBoost) / 100 / SCHED_CAPACITY_SCALE
  }

  /** The margin never shrinks a capacity, whatever the load boost. */
  lemma {:induction false} AddCapacityMarginGrows(capacity: nat, loadBoost: nat)
    ensures AddCapacityMargin(capacity, loadBoost) >= capacity
  {
    var x := capacity * CAPACITY_MARGIN_FREQ * (100 + loadBoost);
    assert x == (capacity * CAPACITY_MARGIN_FREQ) * 100 + (capacity * CAPACITY_MARGIN_FREQ) * loadBoost;
    assert x >= (capacity * CAPACITY_MARGIN_FREQ) * 100;
    DivMonotone(x, (capacity * CAPACITY_MARGIN_FREQ) * 100, 100);
    assert (capacity * CAPACITY_MARGIN_FREQ) * 100 / 100 == capacity * CAPACITY_MARGIN_FREQ;
    var y := x / 100;
    assert y >= capacity * CAPACITY_MARGIN_FREQ;
    assert capacity * CAPACITY_MARGIN_FREQ == capacity * SCHED_CAPACITY_SCALE + capacity * 256;
    DivMonotone(y, capacity * SCHED_CAPACITY_SCALE, SCHED_CAPACITY_SCALE);
    assert capacity * SCHED_CAPACITY_SCALE / SCHED_CAPACITY_SCALE == capacity;
  }

  /** Without a load boost the margin is exactly a quarter on top (rounded down). */
  lemma {:induction false} AddCapacityMarginNoBoost(capacity: nat)
    ensures AddCapacityMargin(capacity, 0) == capacity * 5 / 4
  {
    var x := capacity * CAPACITY_MARGIN_FREQ;
    DivUnique(x * 100, 100, x, 0);
    var q, r := capacity * 5 / 4, capacity * 5 % 4;
    assert capacity * 5 == 4 * q + r;
    assert x == 1024 * q + 256 * r;
    DivUnique(x, 1024, q, 256 * r);
  }

  lemma DivMonotone(a: nat, b: nat, d: nat)
    requires d > 0 && a >= b
    ensures a / d >= b / d
  {
    var qa, ra := a / d, a % d;
    var qb, rb := b / d, b % d;
    assert a == d * qa + ra && 0 <= ra < d;
    assert b == d * qb + rb && 0 <= rb < d;
    assert (qa + 1) * d == qa * d + d;
    if qa < qb {
      MulMonotone(qa + 1, qb, d);
    }
  }

  /** Euclidean division is determined by quotient and remainder. */
  lemma DivUnique(x: int, y: int, q: int, r: int)
    requires y > 0 && 0 <= r < y && x == y * q + r
    ensures x / y == q
  {
    var q2, r2 := x / y, x % y;
    assert x == y * q2 + r2 && 0 <= r2 < y;
    if q2 < q {
      assert y * q - y * q2 == y * (q - q2);
      MulMonotoneInt(1, q - q2, y);
    } else if q2 > q {
      assert y * q2 - y * q == y * (q2 - q);
      MulMonotoneInt(1, q2 - q, y);
    }
  }

  lemma MulMonotoneInt(a: int, b: int, m: nat)
    requires a <= b
    ensures a * m <= b * m
  {
    assert b * m == a * m + (b - a) * m;
  }

  /** __cpu_overutilized(cpu, delta): utilisation plus delta exceeds capacity under the up margin. */
  predicate CpuOverutilizedBy(r: Rq, delta: nat)
  {
    r.capOrig * 1024 < (CpuUtil(r) + delta) * r.marginUp
  }

  /** cpu_overutilized(cpu) */
  predicate CpuOverutilized(r: Rq)
  {
    CpuOverutilizedBy(r, 0)
  }

  /** Adding more load never makes an over-utilised CPU fit again. */
  lemma {:induction false} OverutilizedMonotone(r: Rq, d1: nat, d2: nat)
    requires d1 <= d2 && CpuOverutilizedBy(r, d1)
    ensures CpuOverutilizedBy(r, d2)
  {
    MulMonotone(CpuUtil(r) + d1, CpuUtil(r) + d2, r.marginUp);
  }

  lemma MulMonotone(a: nat, b: nat, m: nat)
    requires a <= b
    ensures a * m <= b * m
  {
    assert b * m == a * m + (b - a) * m;
  }

  // ---------------------------------------------------------------------
  // Capacity classes and fit tests
  // ---------------------------------------------------------------------

  predicate IsMinCapacityCpu(p: Platform, r: Rq) { r.archCap == p.minCap }

  predicate IsMaxCapacityCpu(p: Platform, r: Rq) { r.archCap == p.maxCap }

  /** The margin task_fits_capacity applies: the destination's down margin when moving down. */
  function FitMargin(rqs: seq<Rq>, t: Task, cpu: CpuId): (m: nat)
    requires t.cpu < |rqs| && cpu < |rqs|
    ensures rqs[t.cpu].capOrig > rqs[cpu].capOrig ==> m == rqs[cpu].marginDown
    ensures rqs[t.cpu].capOrig <= rqs[cpu].capOrig ==> m == rqs[t.cpu].marginUp
  {
    if rqs[t.cpu].capOrig > rqs[cpu].capOrig then rqs[cpu].marginDown else rqs[t.cpu].marginUp
  }

  /** task_fits_capacity(p, capacity, cpu) */
  predicate TaskFitsCapacity(rqs: seq<Rq>, t: Task, capacity: nat, cpu: CpuId)
    requires t.cpu < |rqs| && cpu < |rqs|
  {
    capacity * 1024 > UclampTaskUtil(t) * FitMargin(rqs, t, cpu)
  }

  /** A task that fits some capacity fits every larger one. */
  lemma {:induction false} TaskFitsCapacityMonotone(rqs: seq<Rq>, t: Task, c1: nat, c2: nat, cpu: CpuId)
    requires t.cpu < |rqs| && cpu < |rqs|
    requires c1 <= c2 && TaskFitsCapacity(rqs, t, c1, cpu)
    ensures TaskFitsCapacity(rqs, t, c2, cpu)
  {
    MulMonotone(c1, c2, 1024);
  }

  /** per_task_boost(p)'s write-back: an expired boost is reset to nothing. */
  function ExpireBoost(t: Task, now: nat): (t': Task)
    ensures t.boostPeriod != 0 && now > t.boostExpires ==>
              t'.boost == 0 && t'.boostPeriod == 0 && t'.boostExpires == 0
    ensures !(t.boostPeriod != 0 && now > t.boostExpires) ==> t' == t
    ensures t' == t.(boost := t'.boost, boostPeriod := t'.boostPeriod, boostExpires := t'.boostExpires)
  {
    if t.boostPeriod != 0 && now > t.boostExpires then
      t.(boost := 0, boostPeriod := 0, boostExpires := 0)
    else t
  }

  /** The value per_task_boost(p) returns at time `now`. */
  function BoostAt(t: Task, now: nat): nat
  {
    ExpireBoost(t, now).boost
  }

  /** Expiring twice is expiring once, and the boost read afterwards does not change. */
  lemma ExpireBoostIdempotent(t: Task, now: nat)
    ensures ExpireBoost(ExpireBoost(t, now), now) == ExpireBoost(t, now)
    ensures BoostAt(ExpireBoost(t, now), now) == BoostAt(t, now)
  {
  }

  /**
   * The write-back cannot be observed by a later read: at any time from
   * `now` on, per_task_boost returns the same value whether or not the
   * expired boost was reset at `now`.
   */
  lemma ExpireBoostUnobservable(t: Task, now: nat, later: nat)
    requires now <= later
    ensures BoostAt(ExpireBoost(t, now), later) == BoostAt(t, later)
  {
  }

  /**
   * task_fits_max(p, cpu).  The write-back of per_task_boost is modelled by
   * Sched.PerTaskBoost; here only the value it returns is used.
   */
  predicate TaskFitsMax(p: Platform, rqs: seq<Rq>, t: Task, cpu: CpuId, now: nat)
    requires t.cpu < |rqs| && cpu < |rqs|
  {
    var capacity := rqs[cpu].capOrig;
    var boost := BoostAt(t, now);
    if capacity == p.maxCap then true
    else if IsMinCapacityCpu(p, rqs[cpu]) then
      if t.boostPolicy == BoostOnBig || boost > 0 || t.uclampBoosted || t.kickUpmigrate then false
      else TaskFitsCapacity(rqs, t, capacity, cpu)
    else if boost > TASK_BOOST_ON_MID then false
    else TaskFitsCapacity(rqs, t, capacity, cpu)
  }

  /** What task_fits_max promises, case by case. */
  lemma TaskFitsMaxCases(p: Platform, rqs: seq<Rq>, t: Task, cpu: CpuId, now: nat)
    requires t.cpu < |rqs| && cpu < |rqs|
    ensures rqs[cpu].capOrig == p.maxCap ==> TaskFitsMax(p, rqs, t, cpu, now)
    ensures (rqs[cpu].capOrig != p.maxCap && IsMinCapacityCpu(p, rqs[cpu]) &&
             (t.boostPolicy == BoostOnBig || BoostAt(t, now) > 0 || t.uclampBoosted || t.kickUpmigrate))
            ==> !TaskFitsMax(p, rqs, t, cpu, now)
    ensures (rqs[cpu].capOrig != p.maxCap && !IsMinCapacityCpu(p, rqs[cpu]) &&
             BoostAt(t, now) > TASK_BOOST_ON_MID) ==> !TaskFitsMax(p, rqs, t, cpu, now)
    ensures TaskFitsMax(p, rqs, t, cpu, now) ==>
            rqs[cpu].capOrig == p.maxCap || TaskFitsCapacity(rqs, t, rqs[cpu].capOrig, cpu)
  {
  }

  /** asym_cap_sibling_group_has_capacity(dst_cpu, margin) */
  predicate AsymCapSiblingGroupHasCapacity(p: Platform, rqs: seq<Rq>, dst: CpuId, margin: nat)
    requires CpusIn(p.asymSiblings, |rqs|)
  {
    if |p.asymSiblings| == 0 || dst in p.asymSiblings then false
    else
      var sib1 := p.asymSiblings[0];
      var sib2 := p.asymSiblings[|p.asymSiblings| - 1];
      if !rqs[sib1].active || !rqs[sib2].active then false
      else if HNrRunning(rqs[sib1]) + HNrRunning(rqs[sib2]) <= 2 then true
      else (rqs[sib1].capacity + rqs[sib2].capacity) * 100 >
           (CpuUtil(rqs[sib1]) + CpuUtil(rqs[sib2])) * margin
  }

  lemma AsymCapSiblingGroupCases(p: Platform, rqs: seq<Rq>, dst: CpuId, margin: nat)
    requires CpusIn(p.asymSiblings, |rqs|)
    ensures |p.asymSiblings| == 0 ==> !AsymCapSiblingGroupHasCapacity(p, rqs, dst, margin)
    ensures dst in p.asymSiblings ==> !AsymCapSiblingGroupHasCapacity(p, rqs, dst, margin)
    ensures (|p.asymSiblings| > 0 && dst !in p.asymSiblings &&
             rqs[p.asymSiblings[0]].active && rqs[p.asymSiblings[|p.asymSiblings| - 1]].active &&
             HNrRunning(rqs[p.asymSiblings[0]]) + HNrRunning(rqs[p.asymSiblings[|p.asymSiblings| - 1]]) <= 2)
            ==> AsymCapSiblingGroupHasCapacity(p, rqs, dst, margin)
  {
  }

  /** asym_cap_siblings(cpu1, cpu2) */
  predicate AsymCapSiblings(p: Platform, c1: CpuId, c2: CpuId)
  {
    c1 in p.asymSiblings && c2 in p.asymSiblings
  }

  /** same_freq_domain(src_cpu, dst_cpu) */
  predicate SameFreqDomain(p: Platform, rqs: seq<Rq>, src: CpuId, dst: CpuId)
    requires src < |rqs|
  {
    src == dst || AsymCapSiblings(p, src, dst) || dst in rqs[src].freqDomain
  }

  /** same_cluster(src_cpu, dst_cpu) */
  predicate SameCluster(rqs: seq<Rq>, c1: CpuId, c2: CpuId)
    requires c1 < |rqs| && c2 < |rqs|
  {
    rqs[c1].cluster == rqs[c2].cluster
  }

  // ---------------------------------------------------------------------
  // The CPU_RESERVED bit
  // ---------------------------------------------------------------------

  /** is_reserved(cpu) */
  predicate IsReserved(r: Rq)
  {
    r.flags & CPU_RESERVED_MASK != 0
  }

  /** The walt_flags left by mark_reserved: the bit set, every other bit kept. */
  function MarkReservedFlags(f: bv64): (g: bv64)
    ensures g & CPU_RESERVED_MASK != 0
    ensures g & !CPU_RESERVED_MASK == f & !CPU_RESERVED_MASK
  {
    f | CPU_RESERVED_MASK
  }

  /** The walt_flags left by clear_reserved: the bit cleared, every other bit kept. */
  function ClearReservedFlags(f: bv64): (g: bv64)
    ensures g & CPU_RESERVED_MASK == 0
    ensures g & !CPU_RESERVED_MASK == f & !CPU_RESERVED_MASK
  {
    f & !CPU_RESERVED_MASK
  }

  function WithReserved(r: Rq): Rq { r.(flags := MarkReservedFlags(r.flags)) }

  function WithoutReserved(r: Rq): Rq { r.(flags := ClearReservedFlags(r.flags)) }

  // ---------------------------------------------------------------------
  // Cumulative window demand
  // ---------------------------------------------------------------------

  /**
   * walt_fixup_cum_window_demand: the u64 field is moved by a signed delta
   * (with 64-bit wrap-around) and reset to 0 when it reads negative as s64.
   */
  function FixedCumWindowDemand(cum: nat, delta: int): (r: nat)
    requires cum < U64 && -(S64_LIMIT as int) <= delta < S64_LIMIT
    ensures r < S64_LIMIT
    ensures 0 <= cum + delta < S64_LIMIT ==> r == cum + delta
    ensures -(S64_LIMIT as int) <= cum + delta < 0 ==> r == 0
  {
    var v := Wrap64(cum + delta);
    if ToS64(v) < 0 then 0 else v
  }

  // ---------------------------------------------------------------------
  // The system state
  // ---------------------------------------------------------------------

  /**
   * The scheduler state the WALT extensions share: every CPU's run queue,
   * every task, walt_rotation_enabled, whether cpu_array has been set up,
   * and the per-CPU rotation work items that are queued.
   */
  class Sched {
    const plat: Platform
    var rqs: seq<Rq>
    var tasks: seq<Task>
    var rotationEnabled: bool
    var cpuArrayReady: bool
    var rotateWork: map<CpuId, RotateWork>

    ghost predicate Valid()
      reads this
    {
      WellFormed(plat, rqs, tasks) &&
      forall c :: c in rotateWork ==> c < |rqs| && RotateWorkOk(rotateWork[c], |rqs|, |tasks|)
    }

    constructor (plat: Platform, rqs: seq<Rq>, tasks: seq<Task>, rotationEnabled: bool)
      requires WellFormed(plat, rqs, tasks)
      ensures Valid()
      ensures this.plat == plat && this.rqs == rqs && this.tasks == tasks
      ensures this.rotationEnabled == rotationEnabled && this.cpuArrayReady
      ensures this.rotateWork == map[]
    {
      this.plat := plat;
      this.rqs := rqs;
      this.tasks := tasks;
      this.rotationEnabled := rotationEnabled;
      this.cpuArrayReady := true;
      this.rotateWork := map[];
    }

    /** mark_reserved(cpu): test-and-set of CPU_RESERVED, returning the old bit. */
    method MarkReserved(cpu: CpuId) returns (was: bool)
      requires Valid() && cpu < |rqs|
      modifies this`rqs
      ensures Valid()
      ensures was == IsReserved(old(rqs[cpu]))
      ensures rqs == old(rqs)[cpu := WithReserved(old(rqs[cpu]))]
      ensures IsReserved(rqs[cpu])
    {
      was := IsReserved(rqs[cpu]);
      rqs := rqs[cpu := WithReserved(rqs[cpu])];
    }

    /** clear_reserved(cpu) */
    method ClearReserved(cpu: CpuId)
      requires Valid() && cpu < |rqs|
      modifies this`rqs
      ensures Valid()
      ensures rqs == old(rqs)[cpu := WithoutReserved(old(rqs[cpu]))]
      ensures !IsReserved(rqs[cpu])
    {
      rqs := rqs[cpu := WithoutReserved(rqs[cpu])];
    }

    /** per_task_boost(p): read the boost, resetting it first once it has expired. */
    method PerTaskBoost(p: TaskId, now: nat) returns (boost: nat)
      requires Valid() && p < |tasks|
      modifies this`tasks
      ensures Valid()
      ensures tasks == old(tasks)[p := ExpireBoost(old(tasks[p]), now)]
      ensures boost == BoostAt(old(tasks[p]), now) == tasks[p].boost
    {
      var t := tasks[p];
      if t.boostPeriod != 0 {
        if now > t.boostExpires {
          t := t.(boostPeriod := 0, boostExpires := 0, boost := 0);
        }
      }
      tasks := tasks[p := t];
      boost := t.boost;
    }

    /** walt_fixup_cum_window_demand(rq, scaled_delta) */
    method FixupCumWindowDemand(cpu: CpuId, delta: int)
      requires Valid() && cpu < |rqs| && -(S64_LIMIT as int) <= delta < S64_LIMIT
      modifies this`rqs
      ensures Valid()
      ensures rqs == old(rqs)[cpu := old(rqs[cpu]).(cumWindowDemand := FixedCumWindowDemand(old(rqs[cpu].cumWindowDemand), delta))]
      ensures rqs[cpu].cumWindowDemand < S64_LIMIT
    {
      var v := Wrap64(rqs[cpu].cumWindowDemand + delta);
      if ToS64(v) < 0 {
        v := 0;
      }
      rqs := rqs[cpu := rqs[cpu].(cumWindowDemand := v)];
    }
  }

  predicate RotateWorkOk(w: RotateWork, n: nat, nt: nat)
  {
    w.srcTask < nt && w.dstTask < nt && w.srcCpu < n && w.dstCpu < n
  }
}
