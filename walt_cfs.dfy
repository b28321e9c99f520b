/**
 * kernel/sched/walt/walt_cfs.c: WALT's placement of waking CFS tasks.
 * The cluster-order indices, the best-target scan over the chosen cluster
 * order, the energy comparison between the candidates and the task's
 * previous CPU, and the small hooks that update the misfit load and the
 * placement vruntime.
 *
 * The energy model (em_cpu_energy over perf domains) is an input: the
 * energy of placing the task on each CPU is given as `energy[cpu]`.
 */
module WaltCfs {
  import opened Machine
  import opened Walt

  /** -EPERM, what walt_find_energy_efficient_cpu returns without a cpu_array or perf domain. */
  const EPERM_RESULT: int := -1

  /**
   * The sysctl knobs these paths read: sysctl_sched_prefer_spread,
   * sysctl_walt_rtg_cfs_boost_prio (99 by default),
   * sysctl_walt_low_latency_task_threshold, sysctl_sched_latency and the
   * GENTLE_FAIR_SLEEPERS scheduler feature.
   */
  datatype Tunables = Tunables(
    preferSpread: nat,
    rtgCfsBoostPrio: int,
    lowLatencyThreshold: nat,
    schedLatency: nat,
    gentleFairSleepers: bool)

  // ---------------------------------------------------------------------
  // Small predicates
  // ---------------------------------------------------------------------

  /** prefer_spread_on_idle(cpu, new_ilb) */
  predicate PreferSpreadOnIdle(tun: Tunables, p: Platform, r: Rq, newIlb: bool)
  {
    match tun.preferSpread
    case 1 => IsMinCapacityCpu(p, r)
    case 2 => true
    case 3 => newIlb && IsMinCapacityCpu(p, r)
    case 4 => newIlb
    case _ => false
  }

  /**
   * The spread policies are ordered: policy 3 spreads only where both 1 and
   * 4 would, and 1 and 4 only where 2 (always) would; any other value never
   * spreads.
   */
  lemma PreferSpreadPolicyOrder(tun: Tunables, p: Platform, r: Rq, newIlb: bool)
    ensures PreferSpreadOnIdle(tun.(preferSpread := 3), p, r, newIlb) <==>
            PreferSpreadOnIdle(tun.(preferSpread := 1), p, r, newIlb) &&
            PreferSpreadOnIdle(tun.(preferSpread := 4), p, r, newIlb)
    ensures PreferSpreadOnIdle(tun.(preferSpread := 1), p, r, newIlb) ==>
            PreferSpreadOnIdle(tun.(preferSpread := 2), p, r, newIlb)
    ensures PreferSpreadOnIdle(tun.(preferSpread := 4), p, r, newIlb) ==>
            PreferSpreadOnIdle(tun.(preferSpread := 2), p, r, newIlb)
    ensures (tun.preferSpread == 0 || tun.preferSpread > 4) ==> !PreferSpreadOnIdle(tun, p, r, newIlb)
  {
  }

  /** bias_to_this_cpu(p, cpu, start_cpu) */
  predicate BiasToThisCpu(rqs: seq<Rq>, t: Task, cpu: CpuId, start: CpuId)
    requires cpu < |rqs| && start < |rqs|
  {
    cpu in t.allowed && rqs[cpu].active && rqs[cpu].capOrig >= rqs[start].capOrig
  }

  /** task_demand_fits(p, cpu): always on a max-capacity CPU, else the capacity fit test. */
  predicate TaskDemandFits(p: Platform, rqs: seq<Rq>, t: Task, cpu: CpuId)
    requires t.cpu < |rqs| && cpu < |rqs|
  {
    rqs[cpu].capOrig == p.maxCap || TaskFitsCapacity(rqs, t, rqs[cpu].capOrig, cpu)
  }

  /** A task that task_fits_max accepts on a CPU also passes task_demand_fits there. */
  lemma FitsMaxFitsDemand(p: Platform, rqs: seq<Rq>, t: Task, cpu: CpuId, now: nat)
    requires t.cpu < |rqs| && cpu < |rqs|
    requires TaskFitsMax(p, rqs, t, cpu, now)
    ensures TaskDemandFits(p, rqs, t, cpu)
  {
    TaskFitsMaxCases(p, rqs, t, cpu, now);
  }

  /** task_rtg_high_prio(p) */
  predicate TaskRtgHighPrio(tun: Tunables, t: Task)
  {
    t.inRtg && t.prio <= tun.rtgCfsBoostPrio
  }

  /** walt_low_latency_task(p) */
  predicate LowLatencyTask(tun: Tunables, t: Task)
  {
    t.lowLatency && TaskUtil(t) < tun.lowLatencyThreshold
  }

  /** An available idle CPU whose idle state is WFI or shallower (exit latency at most 1). */
  predicate ShallowIdle(r: Rq)
  {
    r.availableIdle && r.idleExitLatency <= 1
  }

  // ---------------------------------------------------------------------
  // Utilisation projections
  // ---------------------------------------------------------------------

  /**
   * cpu_util_without(cpu, p): the CPU's utilisation with the task's own
   * contribution taken out when it is counted there.  The subtraction is
   * unsigned and then read as `long`, so a task larger than the CPU's
   * utilisation leaves 0.
   */
  function CpuUtilWithout(rqs: seq<Rq>, t: Task, cpu: CpuId): (u: nat)
    requires cpu < |rqs|
    ensures u <= rqs[cpu].capOrig && u <= CpuUtil(rqs[cpu])
    ensures t.state == Waking || cpu != t.cpu || t.isNew ==> u == CpuUtil(rqs[cpu])
    ensures !(t.state == Waking || cpu != t.cpu || t.isNew) ==>
              u + TaskUtil(t) >= CpuUtil(rqs[cpu]) &&
              (TaskUtil(t) <= CpuUtil(rqs[cpu]) ==> u + TaskUtil(t) == CpuUtil(rqs[cpu]))
  {
    if t.state == Waking then CpuUtil(rqs[cpu])
    else if cpu != t.cpu || t.isNew then CpuUtil(rqs[cpu])
    else
      var util := Max(CpuUtil(rqs[cpu]) - TaskUtil(t), 0);
      Min(util, rqs[cpu].capOrig)
  }

  /**
   * cpu_util_next_walt(cpu, p, dst_cpu): the CPU's cumulative runnable
   * average as it would be if `p` ran on `dst`, capped at the capacity.
   */
  function CpuUtilNextWalt(rqs: seq<Rq>, t: Task, cpu: CpuId, dst: CpuId): (u: nat)
    requires cpu < |rqs|
    ensures u <= rqs[cpu].capOrig
    // the task is added only where it lands and is not counted yet
    ensures dst == cpu && !(t.onRq && t.cpu == cpu) ==>
              u == Min(rqs[cpu].cumRunnableAvg + TaskUtil(t), rqs[cpu].capOrig) && u >= CpuUtil(rqs[cpu])
    // the task is taken out only of the CPU it is queued on, when it leaves
    ensures t.onRq && t.cpu == cpu && dst != cpu ==>
              u == Min(Max(rqs[cpu].cumRunnableAvg - TaskUtil(t), 0), rqs[cpu].capOrig) && u <= CpuUtil(rqs[cpu])
    // everywhere else the CPU keeps its utilisation
    ensures dst != cpu && !(t.onRq && t.cpu == cpu) ==> u == CpuUtil(rqs[cpu])
    ensures dst == cpu && t.onRq && t.cpu == cpu ==> u == CpuUtil(rqs[cpu])
  {
    var util := rqs[cpu].cumRunnableAvg;
    var util' :=
      if t.onRq then
        if t.cpu == cpu then
          if dst != cpu then Max(util - TaskUtil(t), 0) else util
        else if dst == cpu then util + TaskUtil(t)
        else util
      else if dst == cpu then util + TaskUtil(t)
      else util;
    Min(util', rqs[cpu].capOrig)
  }

  /**
   * Moving a queued task from its CPU to another one never raises the
   * projected utilisation of the CPU it leaves and never lowers that of the
   * CPU it joins.
   */
  lemma {:induction false} MigrationShiftsUtil(rqs: seq<Rq>, t: Task, dst: CpuId)
    requires t.cpu < |rqs| && dst < |rqs| && dst != t.cpu && t.onRq
    ensures CpuUtilNextWalt(rqs, t, t.cpu, dst) <= CpuUtilNextWalt(rqs, t, t.cpu, t.cpu)
    ensures CpuUtilNextWalt(rqs, t, dst, dst) >= CpuUtilNextWalt(rqs, t, dst, t.cpu)
  {
    assert CpuUtilNextWalt(rqs, t, t.cpu, t.cpu) == CpuUtil(rqs[t.cpu]);
    assert CpuUtilNextWalt(rqs, t, dst, t.cpu) == CpuUtil(rqs[dst]);
  }

  // ---------------------------------------------------------------------
  // Cluster-order indices
  // ---------------------------------------------------------------------

  /** cpumask_first(&cpu_array[o][k]) */
  function FirstCpu(p: Platform, n: nat, o: nat, k: nat): (c: CpuId)
    requires PlatformOk(p, n) && o < p.numClusters && k < p.numClusters
    ensures c < n && c in p.cpuArray[o][k]
  {
    p.cpuArray[o][k][0]
  }

  /** The first cluster order walt_get_indicies considers before its fit loop. */
  function IndexStart(t: Task, boosted: bool, skipMin: bool): nat
  {
    if boosted || t.boostPolicy == BoostOnBig || skipMin then 1 else 0
  }

  /**
   * walt_get_indicies: which row of cpu_array (order_index) the task starts
   * from, and up to which cluster of it (end_index) the scan must look.
   * `taskBoost` is per_task_boost(p), `fullThrottle` is
   * is_full_throttle_boost() and `skipMin` is walt_task_skip_min_cpu(p).
   */
  method GetIndices(p: Platform, rqs: seq<Rq>, t: Task, taskBoost: nat, boosted: bool,
                    fullThrottle: bool, skipMin: bool) returns (orderIndex: nat, endIndex: nat)
    requires PlatformOk(p, |rqs|) && t.cpu < |rqs|
    ensures orderIndex < p.numClusters && endIndex <= 1
    ensures p.numClusters <= 1 ==> orderIndex == 0 && endIndex == 0
    ensures p.numClusters > 1 && taskBoost > TASK_BOOST_ON_MID ==>
              orderIndex == p.numClusters - 1 && endIndex == 0
    ensures p.numClusters > 1 && taskBoost <= TASK_BOOST_ON_MID && fullThrottle ==>
              orderIndex == p.numClusters - 1 &&
              (endIndex == 1 <==> orderIndex > 1 && TaskDemandFits(p, rqs, t, FirstCpu(p, |rqs|, orderIndex, 1)))
    ensures p.numClusters > 1 && taskBoost <= TASK_BOOST_ON_MID && !fullThrottle ==>
              endIndex == 0 && IndexStart(t, boosted, skipMin) <= orderIndex &&
              (forall o :: IndexStart(t, boosted, skipMin) <= o < orderIndex ==>
                 !TaskDemandFits(p, rqs, t, FirstCpu(p, |rqs|, o, 0))) &&
              (orderIndex < p.numClusters - 1 ==> TaskDemandFits(p, rqs, t, FirstCpu(p, |rqs|, orderIndex, 0)))
  {
    orderIndex, endIndex := 0, 0;
    var nc := p.numClusters;
    if nc <= 1 {
      return;
    }
    if taskBoost > TASK_BOOST_ON_MID {
      orderIndex := nc - 1;
      return;
    }
    if fullThrottle {
      orderIndex := nc - 1;
      if orderIndex > 1 && TaskDemandFits(p, rqs, t, FirstCpu(p, |rqs|, orderIndex, 1)) {
        endIndex := 1;
      }
      return;
    }
    if boosted || t.boostPolicy == BoostOnBig || skipMin {
      orderIndex := 1;
    }
    var i := orderIndex;
    while i < nc - 1
      invariant orderIndex <= i <= nc - 1
      invariant forall o :: orderIndex <= o < i ==> !TaskDemandFits(p, rqs, t, FirstCpu(p, |rqs|, o, 0))
    {
      if TaskDemandFits(p, rqs, t, FirstCpu(p, |rqs|, i, 0)) {
        break;
      }
      i := i + 1;
    }
    orderIndex := i;
  }

  /** walt_target_ok(target_cpu, order_index): not the lone CPU of a single-CPU first cluster below the top order. */
  predicate TargetOk(p: Platform, n: nat, target: CpuId, orderIndex: nat)
    requires PlatformOk(p, n) && orderIndex < p.numClusters
  {
    !(orderIndex != p.numClusters - 1 && |p.cpuArray[orderIndex][0]| == 1 &&
      target == FirstCpu(p, n, orderIndex, 0))
  }

  // ---------------------------------------------------------------------
  // The best-target scan
  // ---------------------------------------------------------------------

  /** struct find_best_target_env, as walt_find_energy_efficient_cpu fills it. */
  datatype FbtEnv = FbtEnv(
    isRtg: bool,
    startCpu: CpuId,
    orderIndex: nat,
    endIndex: nat,
    strictMax: bool,
    skipCpu: int)

  /**
   * What walt_find_best_target leaves: the candidates mask (ascending),
   * the CPUs it reports in its trace, and whether the prev_cpu fast path
   * was taken.
   */
  datatype FbtResult = FbtResult(
    candidates: seq<CpuId>,
    target: int,
    bestIdle: int,
    mostSpare: int,
    fastpath: bool)

  /**
   * The tests every CPU passes before the scan may record it: allowed for
   * the task, active, not reserved for an active migration, not under high
   * IRQ load, and not the CPU the caller asked to skip.
   */
  predicate Eligible(rqs: seq<Rq>, t: Task, skipCpu: int, c: int)
  {
    0 <= c < |rqs| && c in t.allowed && rqs[c].active && !IsReserved(rqs[c]) &&
    !rqs[c].highIrqload && c != skipCpu
  }

  /** An eligible CPU that is available-idle: what best_idle_cpu may hold. */
  predicate IdleEligible(rqs: seq<Rq>, t: Task, skipCpu: int, c: int)
  {
    Eligible(rqs, t, skipCpu, c) && rqs[c].availableIdle
  }

  /** The prev_cpu fast path: an idle, active, online prev_cpu of the start CPU's capacity. */
  predicate PrevCpuFastPath(p: Platform, rqs: seq<Rq>, prev: CpuId, start: CpuId)
    requires prev < |rqs| && start < |rqs|
  {
    (rqs[prev].capOrig == rqs[start].capOrig || AsymCapSiblings(p, prev, start)) &&
    rqs[prev].active && rqs[prev].online && rqs[prev].availableIdle
  }

  /**
   * The initial most_spare_wake_cap for a running task, as written: the
   * ULONG_MAX stored in a `long` reads as -1.
   */
  function MostSpareInitAsWritten(t: Task): (v: int)
    ensures t.state == Running ==> v == -1
    ensures t.state != Running ==> v == 0
  {
    if t.state == Running then ToS64(ULONG_MAX) else 0
  }

  /**
   * As written, a running task still gets a most-spare CPU: any spare
   * capacity, even none, beats the initial -1.
   */
  lemma MostSpareAsWrittenAdmitsRunning(t: Task, spare: nat)
    requires t.state == Running
    ensures spare > MostSpareInitAsWritten(t)
  {
  }

  /** The initial most_spare_wake_cap meant for a running task: larger than any spare capacity. */
  function MostSpareInit(t: Task): (v: int)
    ensures t.state == Running ==> v > SCHED_CAPACITY_SCALE
    ensures t.state != Running ==> v == 0
  {
    if t.state == Running then (S64_LIMIT - 1) as int else 0
  }

  /** With the intended initial value no spare capacity of a CPU beats it for a running task. */
  lemma MostSpareInitExcludesRunning(t: Task, capOrig: nat, wakeUtil: nat)
    requires t.state == Running && capOrig <= SCHED_CAPACITY_SCALE
    ensures !(capOrig - wakeUtil > MostSpareInit(t))
  {
  }

  /** Some CPU of the first cluster the scan visits passes the eligibility tests. */
  predicate ReachesFirst(p: Platform, rqs: seq<Rq>, t: Task, env: FbtEnv)
    requires env.orderIndex < |p.cpuArray| && |p.cpuArray[env.orderIndex]| > 0
  {
    exists k :: 0 <= k < |p.cpuArray[env.orderIndex][0]| &&
                Eligible(rqs, t, env.skipCpu, p.cpuArray[env.orderIndex][0][k])
  }

  /** The candidates mask built from target_cpu and best_idle_cpu, lowest CPU first. */
  function MaskOf(target: int, bestIdle: int): (m: seq<CpuId>)
    ensures forall c :: c in m <==> c >= 0 && (c == target || c == bestIdle)
    ensures Sorted(m)
  {
    if target < 0 && bestIdle < 0 then []
    else if target < 0 then [bestIdle]
    else if bestIdle < 0 || bestIdle == target then [target]
    else if target < bestIdle then [target, bestIdle]
    else [bestIdle, target]
  }

  /**
   * The variables walt_find_best_target carries from CPU to CPU:
   * target_max_spare_cap, best_idle_cuml_util, min_exit_latency,
   * best_idle_cpu, target_cpu, most_spare_wake_cap, most_spare_cap_cpu,
   * active_candidate and target_nr_rtg_high_prio.
   */
  datatype FbtScan = FbtScan(
    targetMaxSpareCap: int,
    bestIdleCumlUtil: nat,
    minExitLatency: nat,
    bestIdle: int,
    target: int,
    mostSpareWakeCap: int,
    mostSpare: int,
    activeCandidate: int,
    targetNrRtgHighPrio: nat)

  /**
   * What the scan keeps true: every CPU it records passed the tests for its
   * role, a running task is never given a busy target, and with the
   * intended initial value it is never given a most-spare CPU either.
   */
  predicate FbtScanOk(rqs: seq<Rq>, t: Task, env: FbtEnv, asWritten: bool, st: FbtScan)
  {
    (st.bestIdle == -1 || IdleEligible(rqs, t, env.skipCpu, st.bestIdle)) &&
    (st.target == -1 || (Eligible(rqs, t, env.skipCpu, st.target) && t.state != Running)) &&
    (st.mostSpare == -1 || Eligible(rqs, t, env.skipCpu, st.mostSpare)) &&
    (st.activeCandidate == -1 ||
     (0 <= st.activeCandidate < |rqs| && rqs[st.activeCandidate].active && st.activeCandidate in t.allowed)) &&
    (!asWritten && t.state == Running ==> st.mostSpare == -1 && st.mostSpareWakeCap == MostSpareInit(t)) &&
    (asWritten && t.state == Running && st.mostSpare == -1 ==> st.mostSpareWakeCap == -1)
  }

  /** The state before the first CPU is visited. */
  function FbtStart(t: Task, env: FbtEnv, asWritten: bool): (st: FbtScan)
  {
    var ioTaskPack := env.orderIndex > 0 && t.inIowait;
    FbtScan(if env.strictMax || ioTaskPack then LONG_MIN else 0, ULONG_MAX, UINT_MAX, -1, -1,
            if asWritten then MostSpareInitAsWritten(t) else MostSpareInit(t), -1, -1, UINT_MAX)
  }

  /**
   * One iteration of the CPU loop of walt_find_best_target on CPU `i`.
   * As written, a running task's first eligible CPU always becomes the
   * most-spare CPU.
   */
  method FbtVisit(p: Platform, rqs: seq<Rq>, tasks: seq<Task>, t: Task, env: FbtEnv, tun: Tunables,
                  now: nat, asWritten: bool, st: FbtScan, i: CpuId) returns (st': FbtScan)
    requires WellFormed(p, rqs, tasks) && t.cpu < |rqs| && i < |rqs|
    requires FbtScanOk(rqs, t, env, asWritten, st)
    ensures FbtScanOk(rqs, t, env, asWritten, st')
    ensures st.mostSpare != -1 ==> st'.mostSpare != -1
    ensures asWritten && t.state == Running && Eligible(rqs, t, env.skipCpu, i) ==> st'.mostSpare != -1
  {
    var eligible;
    st', eligible := FbtSpare(rqs, t, env, asWritten, st, i);
    if eligible {
      st' := FbtPlace(p, rqs, tasks, t, env, tun, now, asWritten, st', i);
    }
  }

  /**
   * The first half of an iteration: the affinity, active, reserved, IRQ
   * load and skip_cpu tests, the first active CPU, and the most-spare
   * update.  `eligible` tells whether the iteration goes on.
   */
  method FbtSpare(rqs: seq<Rq>, t: Task, env: FbtEnv, asWritten: bool, st: FbtScan, i: CpuId)
    returns (st': FbtScan, eligible: bool)
    requires i < |rqs| && rqs[i].capOrig <= SCHED_CAPACITY_SCALE
    requires FbtScanOk(rqs, t, env, asWritten, st)
    ensures FbtScanOk(rqs, t, env, asWritten, st')
    ensures eligible <==> Eligible(rqs, t, env.skipCpu, i)
    ensures st.mostSpare != -1 ==> st'.mostSpare != -1
    ensures asWritten && t.state == Running && eligible ==> st'.mostSpare != -1
  {
    st' := st;
    eligible := false;
    if i !in t.allowed {
      return;
    }
    var r := rqs[i];
    if !r.active {
      return;
    }
    if st'.activeCandidate == -1 {
      st' := st'.(activeCandidate := i);
    }
    if IsReserved(r) || r.highIrqload || env.skipCpu == i {
      return;
    }
    eligible := true;
    var wakeUtil := CpuUtilWithout(rqs, t, i);
    var spareWakeCap := r.capOrig - wakeUtil;
    if spareWakeCap > st'.mostSpareWakeCap {
      st' := st'.(mostSpareWakeCap := spareWakeCap, mostSpare := i);
    }
  }

  /**
   * The second half of an iteration on an eligible CPU: the strict-max
   * test on the CPU's current task, the fit test, then either the
   * shallowest-idle choice or, for a task that is not running, the
   * busy-target choice.
   */
  method FbtPlace(p: Platform, rqs: seq<Rq>, tasks: seq<Task>, t: Task, env: FbtEnv, tun: Tunables,
                  now: nat, asWritten: bool, st: FbtScan, i: CpuId) returns (st': FbtScan)
    requires WellFormed(p, rqs, tasks) && i < |rqs| && Eligible(rqs, t, env.skipCpu, i)
    requires FbtScanOk(rqs, t, env, asWritten, st)
    ensures FbtScanOk(rqs, t, env, asWritten, st')
    ensures st'.mostSpare == st.mostSpare && st'.mostSpareWakeCap == st.mostSpareWakeCap
  {
    st' := st;
    var r := rqs[i];
    var capacityOrig := r.capOrig;
    var minUtil := UclampTaskUtil(t);
    var ioTaskPack := env.orderIndex > 0 && t.inIowait;
    if BoostAt(tasks[r.curr], now) == TASK_BOOST_STRICT_MAX && !env.strictMax {
      return;
    }
    var newUtilCuml := r.utilAvg + minUtil;
    var newUtil := Max(minUtil, CpuUtilWithout(rqs, t, i) + minUtil);
    if !(env.strictMax || ioTaskPack) && newUtil > capacityOrig {
      return;
    }
    var spareCap := capacityOrig - newUtil;
    if r.availableIdle {
      var idleExitLatency := r.idleExitLatency;
      if idleExitLatency > st'.minExitLatency {
        return;
      }
      if st'.minExitLatency == idleExitLatency &&
         (st'.bestIdle == t.cpu || (i != t.cpu && newUtilCuml > st'.bestIdleCumlUtil)) {
        return;
      }
      st' := st'.(minExitLatency := idleExitLatency, bestIdleCumlUtil := newUtilCuml, bestIdle := i);
      return;
    }
    if t.state == Running {
      return;
    }
    if TaskRtgHighPrio(tun, t) {
      if r.nrRtgHighPrio > st'.targetNrRtgHighPrio {
        return;
      }
      if r.nrRtgHighPrio == st'.targetNrRtgHighPrio && spareCap < st'.targetMaxSpareCap {
        return;
      }
    } else if spareCap < st'.targetMaxSpareCap {
      return;
    }
    st' := st'.(targetMaxSpareCap := spareCap, targetNrRtgHighPrio := r.nrRtgHighPrio, target := i);
  }

  /**
   * walt_find_best_target.  Visits the allowed CPUs of
   * cpu_array[order_index][0..], cluster by cluster, keeping the shallowest
   * idle CPU, the non-idle CPU with the most spare capacity (fewest RTG
   * high-priority tasks first for such tasks), the CPU with the most spare
   * capacity before the task is placed, and the first active CPU.
   * With `asWritten` false the scan starts most_spare_wake_cap from the
   * intended value (MostSpareInit), which is what the rest of the model
   * uses; with `asWritten` true it starts from the value the code stores
   * (MostSpareInitAsWritten).
   */
  method FindBestTarget(p: Platform, rqs: seq<Rq>, tasks: seq<Task>, pid: TaskId, env: FbtEnv,
                        tun: Tunables, now: nat, asWritten: bool) returns (res: FbtResult)
    requires WellFormed(p, rqs, tasks) && pid < |tasks|
    requires env.orderIndex < p.numClusters && env.startCpu < |rqs|
    ensures var t := tasks[pid];
            res.fastpath <==> PrevCpuFastPath(p, rqs, t.cpu, env.startCpu)
    ensures res.fastpath ==> res.target == tasks[pid].cpu && res.candidates == [tasks[pid].cpu]
    ensures !res.fastpath ==> res.candidates == MaskOf(res.target, -1)
    // nothing the scan records is ineligible
    ensures !res.fastpath ==>
              (res.bestIdle == -1 || IdleEligible(rqs, tasks[pid], env.skipCpu, res.bestIdle)) &&
              (res.mostSpare == -1 || Eligible(rqs, tasks[pid], env.skipCpu, res.mostSpare))
    // an idle CPU, once found, is the target
    ensures !res.fastpath && res.bestIdle != -1 ==> res.target == res.bestIdle
    // otherwise the target is a scanned busy CPU, the most-spare CPU, or (prev_cpu inactive) the first active CPU
    ensures !res.fastpath && res.target != -1 ==>
              Eligible(rqs, tasks[pid], env.skipCpu, res.target) ||
              (!rqs[tasks[pid].cpu].active && 0 <= res.target < |rqs| && rqs[res.target].active &&
               res.target in tasks[pid].allowed)
    // a running task (active migration) is only placed on an idle CPU or, failing that, the first active one
    ensures !asWritten && !res.fastpath && tasks[pid].state == Running ==>
              res.mostSpare == -1 &&
              (res.target == -1 || res.target == res.bestIdle || !rqs[tasks[pid].cpu].active)
    // as written, a running task with an eligible CPU in the first cluster and no idle CPU
    // is placed on the most-spare CPU instead
    ensures asWritten && !res.fastpath && tasks[pid].state == Running && res.bestIdle == -1 &&
            ReachesFirst(p, rqs, tasks[pid], env) ==>
              res.mostSpare != -1 && res.target == res.mostSpare
  {
    var t := tasks[pid];
    WellFormedCpu(p, rqs, tasks, pid);
    var prev := t.cpu;
    if PrevCpuFastPath(p, rqs, prev, env.startCpu) {
      return FbtResult([prev], prev, -1, -1, true);
    }
    var st := FbtStart(t, env, asWritten);

    var cluster := 0;
    while cluster < p.numClusters
      invariant FbtScanOk(rqs, t, env, asWritten, st)
      invariant asWritten && t.state == Running && cluster > 0 && ReachesFirst(p, rqs, t, env) ==>
                  st.mostSpare != -1
    {
      var visit := p.cpuArray[env.orderIndex][cluster];
      for j := 0 to |visit|
        invariant FbtScanOk(rqs, t, env, asWritten, st)
        invariant asWritten && t.state == Running && cluster > 0 && ReachesFirst(p, rqs, t, env) ==>
                    st.mostSpare != -1
        invariant asWritten && t.state == Running && cluster == 0 &&
                  (exists k :: 0 <= k < j && Eligible(rqs, t, env.skipCpu, visit[k])) ==>
                    st.mostSpare != -1
      {
        st := FbtVisit(p, rqs, tasks, t, env, tun, now, asWritten, st, visit[j]);
      }
      if st.bestIdle != -1 {
        break;
      }
      if cluster >= env.endIndex && st.target != -1 && TargetOk(p, |rqs|, st.target, env.orderIndex) {
        break;
      }
      cluster := cluster + 1;
    }

    var target := st.target;
    if st.bestIdle != -1 {
      target := -1;
    }
    if target == -1 {
      if st.bestIdle != -1 {
        target := st.bestIdle;
      } else if st.mostSpare != -1 {
        target := st.mostSpare;
      } else if !rqs[prev].active {
        target := st.activeCandidate;
      }
    }
    res := FbtResult(MaskOf(target, st.bestIdle), target, st.bestIdle, st.mostSpare, false);
  }

  /** A task's CPU, and every CPU of its affinity mask, exist. */
  lemma WellFormedCpu(p: Platform, rqs: seq<Rq>, tasks: seq<Task>, pid: TaskId)
    requires WellFormed(p, rqs, tasks) && pid < |tasks|
    ensures tasks[pid].cpu < |rqs| && forall c :: c in tasks[pid].allowed ==> c < |rqs|
    ensures PlatformOk(p, |rqs|) && forall c :: 0 <= c < |rqs| ==> rqs[c].curr < |tasks|
  {
    assert TaskOk(tasks[pid], |rqs|);
    forall c | 0 <= c < |rqs|
      ensures rqs[c].curr < |tasks|
    {
      assert RqOk(rqs[c], |rqs|, |tasks|, p.numClusters);
    }
  }

  // ---------------------------------------------------------------------
  // Energy comparison
  // ---------------------------------------------------------------------

  /** select_cpu_same_energy(cpu, best_cpu, prev_cpu): break a tie in energy. */
  predicate SelectCpuSameEnergy(rqs: seq<Rq>, cpu: CpuId, best: CpuId, prev: CpuId)
    requires cpu < |rqs| && best < |rqs|
  {
    if rqs[cpu].capOrig < rqs[best].capOrig then true
    else if best == prev then false
    else if ShallowIdle(rqs[best]) then false
    else if ShallowIdle(rqs[cpu]) then true
    else rqs[best].availableIdle
  }

  /**
   * The tie-break prefers the smaller CPU; among CPUs no smaller it keeps
   * prev_cpu and a shallow-idle incumbent, takes a shallow-idle newcomer,
   * and otherwise prefers a busy CPU to a deep-idle one.
   */
  lemma SelectCpuSameEnergyCases(rqs: seq<Rq>, cpu: CpuId, best: CpuId, prev: CpuId)
    requires cpu < |rqs| && best < |rqs|
    ensures rqs[cpu].capOrig < rqs[best].capOrig ==> SelectCpuSameEnergy(rqs, cpu, best, prev)
    ensures rqs[cpu].capOrig >= rqs[best].capOrig && best == prev ==> !SelectCpuSameEnergy(rqs, cpu, best, prev)
    ensures rqs[cpu].capOrig >= rqs[best].capOrig && ShallowIdle(rqs[best]) ==>
              !SelectCpuSameEnergy(rqs, cpu, best, prev)
    ensures SelectCpuSameEnergy(rqs, cpu, best, prev) && rqs[cpu].capOrig >= rqs[best].capOrig ==>
              best != prev && (ShallowIdle(rqs[cpu]) || (rqs[best].availableIdle && !ShallowIdle(rqs[best])))
  {
  }

  /**
   * The final revert in walt_find_energy_efficient_cpu: go back to prev_cpu
   * when the best CPU is not shallow-idle, prev_cpu's energy is known, and
   * the saving is at most prev_delta >> 4, provided prev_cpu is no bigger
   * than the start CPU.
   */
  predicate RevertToPrev(rqs: seq<Rq>, best: CpuId, prev: CpuId, start: CpuId, prevDelta: nat, bestDelta: nat)
    requires best < |rqs| && prev < |rqs| && start < |rqs| && bestDelta <= prevDelta
  {
    !ShallowIdle(rqs[best]) && prevDelta != ULONG_MAX && best != prev &&
    prevDelta - bestDelta <= prevDelta / 16 &&
    rqs[prev].capOrig <= rqs[start].capOrig
  }

  /**
   * The candidate loop of walt_find_energy_efficient_cpu: starting from
   * prev_cpu at `prevDelta`, keep the candidate of least energy, ties broken
   * by select_cpu_same_energy.  prev_cpu itself is not re-evaluated.
   */
  method SelectByEnergy(rqs: seq<Rq>, candidates: seq<CpuId>, prev: CpuId, prevDelta: nat, energy: seq<nat>)
    returns (best: CpuId, bestDelta: nat)
    requires prev < |rqs| && CpusIn(candidates, |rqs|) && |energy| == |rqs|
    ensures best < |rqs| && bestDelta <= prevDelta
    ensures best == prev ==> bestDelta == prevDelta
    ensures best != prev ==> best in candidates && energy[best] == bestDelta
    ensures forall k :: 0 <= k < |candidates| && candidates[k] != prev ==> energy[candidates[k]] >= bestDelta
  {
    best, bestDelta := prev, prevDelta;
    for i := 0 to |candidates|
      invariant best < |rqs| && bestDelta <= prevDelta
      invariant best == prev ==> bestDelta == prevDelta
      invariant best != prev ==> best in candidates[..i] && energy[best] == bestDelta
      invariant forall k :: 0 <= k < i && candidates[k] != prev ==> energy[candidates[k]] >= bestDelta
    {
      var cpu := candidates[i];
      if cpu == prev {
        continue;
      }
      var curEnergy := energy[cpu];
      if curEnergy < bestDelta {
        best, bestDelta := cpu, curEnergy;
      } else if curEnergy == bestDelta {
        if SelectCpuSameEnergy(rqs, cpu, best, prev) {
          best, bestDelta := cpu, curEnergy;
        }
      }
    }
  }

  /**
   * The wake-up context walt_find_energy_efficient_cpu reads besides the
   * run queues: the sync flag, walt_is_many_wakeup(sibling_count_hint),
   * wake_to_idle(p) || uclamp_latency_sensitive(p), whether placement boost
   * is on for the task, is_full_throttle_boost(), walt_task_skip_min_cpu(p),
   * whether cpu_array is set up, and whether the root domain has a perf domain.
   */
  datatype WakeEnv = WakeEnv(
    sync: bool,
    manyWakeup: bool,
    needIdle: bool,
    placementBoost: bool,
    fullThrottle: bool,
    skipMin: bool,
    cpuArrayReady: bool,
    hasPerfDomain: bool)

  /** How the placement was decided, as the sched_task_util trace reports it. */
  datatype Fastpath = NoFastpath | SyncWakeup | PrevCpuFastpath

  datatype Placement = Placement(
    cpu: int,
    candidates: seq<CpuId>,
    startCpu: CpuId,
    fastpath: Fastpath,
    byEnergy: bool,
    prevDelta: nat,
    bestDelta: nat)

  /**
   * walt_find_energy_efficient_cpu(p, prev_cpu, sync, sibling_count_hint)
   * run on `thisCpu`.  `energy[c]` is walt_compute_energy(p, c, pd).
   */
  method FindEnergyEfficientCpu(p: Platform, rqs: seq<Rq>, tasks: seq<Task>, pid: TaskId, thisCpu: CpuId,
                                env: WakeEnv, tun: Tunables, energy: seq<nat>, now: nat)
    returns (pl: Placement)
    requires WellFormed(p, rqs, tasks) && pid < |tasks| && tasks[pid].cpu < |rqs| && thisCpu < |rqs|
    requires |energy| == |rqs| && forall c :: 0 <= c < |energy| ==> energy[c] < S64_LIMIT
    ensures var prev := tasks[pid].cpu;
            env.manyWakeup && prev != thisCpu && prev in tasks[pid].allowed ==> pl.cpu == prev
    ensures var prev := tasks[pid].cpu;
            !(env.manyWakeup && prev != thisCpu && prev in tasks[pid].allowed) && !env.cpuArrayReady ==>
              pl.cpu == EPERM_RESULT
    ensures pl.cpu == EPERM_RESULT || 0 <= pl.cpu < |rqs|
    ensures pl.fastpath == SyncWakeup ==> pl.cpu == thisCpu
    ensures pl.fastpath == PrevCpuFastpath ==> pl.cpu == tasks[pid].cpu
    ensures pl.cpu >= 0 ==> pl.cpu == tasks[pid].cpu || pl.cpu == thisCpu || pl.cpu in pl.candidates
    ensures pl.startCpu < |rqs| && pl.bestDelta <= pl.prevDelta
    // the energy decision: no candidate is cheaper, prev_cpu's energy is the reference ...
    ensures pl.byEnergy ==> pl.cpu in pl.candidates || pl.cpu == tasks[pid].cpu
    ensures pl.byEnergy ==>
              forall k :: 0 <= k < |pl.candidates| && pl.candidates[k] != tasks[pid].cpu ==>
                pl.candidates[k] < |energy| && energy[pl.candidates[k]] >= pl.bestDelta
    ensures pl.byEnergy && pl.cpu != tasks[pid].cpu ==> energy[pl.cpu] == pl.bestDelta
    ensures pl.byEnergy && tasks[pid].cpu in tasks[pid].allowed ==> pl.prevDelta == energy[tasks[pid].cpu]
    // ... and leaving prev_cpu must save more than a sixteenth of it
    ensures pl.byEnergy && pl.cpu != tasks[pid].cpu && pl.prevDelta != ULONG_MAX &&
            !ShallowIdle(rqs[pl.cpu]) && rqs[tasks[pid].cpu].capOrig <= rqs[pl.startCpu].capOrig ==>
              pl.prevDelta - pl.bestDelta > pl.prevDelta / 16
  {
    var t := tasks[pid];
    var prev := t.cpu;
    WellFormedCpu(p, rqs, tasks, pid);
    var taskBoost := BoostAt(t, now);
    var boosted := t.uclampBoosted || taskBoost > 0;
    if env.manyWakeup && prev != thisCpu && prev in t.allowed {
      return Placement(prev, [], prev, NoFastpath, false, ULONG_MAX, ULONG_MAX);
    }
    if !env.cpuArrayReady {
      return Placement(EPERM_RESULT, [], prev, NoFastpath, false, ULONG_MAX, ULONG_MAX);
    }
    var orderIndex, endIndex := GetIndices(p, rqs, t, taskBoost, boosted, env.fullThrottle, env.skipMin);
    var start := FirstCpu(p, |rqs|, orderIndex, 0);
    var isRtg := t.inRtg;
    var currIsRtg := tasks[rqs[thisCpu].curr].inRtg;
    var sync := env.sync;
    if sync && (env.needIdle || (isRtg && currIsRtg)) {
      sync := false;
    }
    if sync && BiasToThisCpu(rqs, t, thisCpu, start) {
      return Placement(thisCpu, [], start, SyncWakeup, false, ULONG_MAX, ULONG_MAX);
    }
    if !env.hasPerfDomain {
      return Placement(EPERM_RESULT, [], start, NoFastpath, false, ULONG_MAX, ULONG_MAX);
    }
    var fbtEnv := FbtEnv(isRtg, start, orderIndex, endIndex, isRtg && taskBoost == TASK_BOOST_STRICT_MAX,
                         if env.manyWakeup then thisCpu else -1);
    var fbt := FindBestTarget(p, rqs, tasks, pid, fbtEnv, tun, now, false);
    var candidates := fbt.candidates;
    var fastpath := if fbt.fastpath then PrevCpuFastpath else NoFastpath;
    var best, prevDelta, bestDelta, byEnergy := ChooseCpu(p, rqs, t, prev, start, candidates, env, boosted, isRtg,
                                                            energy, now);
    pl := Placement(best, candidates, start, fastpath, byEnergy, prevDelta, bestDelta);
  }

  /**
   * The choice among the candidates walt_find_best_target returned: none
   * keeps prev_cpu, a single idle one (or prev_cpu) is taken, boosted or
   * unfitting cases take the first, and otherwise the least energy wins;
   * finally the move is reverted when it saves too little.
   */
  method ChooseCpu(p: Platform, rqs: seq<Rq>, t: Task, prev: CpuId, start: CpuId, candidates: seq<CpuId>,
                   env: WakeEnv, boosted: bool, isRtg: bool, energy: seq<nat>, now: nat)
    returns (best: CpuId, prevDelta: nat, bestDelta: nat, byEnergy: bool)
    requires prev < |rqs| && start < |rqs| && t.cpu < |rqs| && CpusIn(candidates, |rqs|) && |energy| == |rqs|
    ensures best < |rqs| && (best == prev || best in candidates) && bestDelta <= prevDelta
    ensures byEnergy ==>
              forall k :: 0 <= k < |candidates| && candidates[k] != prev ==> energy[candidates[k]] >= bestDelta
    ensures byEnergy && best != prev ==> energy[best] == bestDelta
    ensures byEnergy && prev in t.allowed ==> prevDelta == energy[prev]
    ensures byEnergy && best != prev && prevDelta != ULONG_MAX &&
            !ShallowIdle(rqs[best]) && rqs[prev].capOrig <= rqs[start].capOrig ==>
              prevDelta - bestDelta > prevDelta / 16
  {
    best := prev;
    prevDelta, bestDelta := ULONG_MAX, ULONG_MAX;
    byEnergy := false;
    if |candidates| == 0 {
      // no candidate: stay on prev_cpu
    } else if |candidates| == 1 && (rqs[candidates[0]].availableIdle || candidates[0] == prev) {
      best := candidates[0];
    } else {
      var delta := if t.state == Waking then TaskUtil(t) else 0;
      if env.placementBoost || env.needIdle || boosted || isRtg || CpuOverutilizedBy(rqs[prev], delta) ||
         !TaskFitsMax(p, rqs, t, prev, now) || !rqs[prev].active {
        best := candidates[0];
      } else {
        prevDelta := if prev in t.allowed then energy[prev] else ULONG_MAX;
        best, bestDelta := SelectByEnergy(rqs, candidates, prev, prevDelta, energy);
        byEnergy := true;
      }
    }
    if RevertToPrev(rqs, best, prev, start, prevDelta, bestDelta) {
      best := prev;
    }
  }

  /** walt_select_task_rq_fair: an error from the search falls back to prev_cpu. */
  method SelectTaskRqFair(p: Platform, rqs: seq<Rq>, tasks: seq<Task>, pid: TaskId, thisCpu: CpuId,
                          env: WakeEnv, tun: Tunables, energy: seq<nat>, now: nat)
    returns (target: CpuId)
    requires WellFormed(p, rqs, tasks) && pid < |tasks| && tasks[pid].cpu < |rqs| && thisCpu < |rqs|
    requires |energy| == |rqs| && forall c :: 0 <= c < |energy| ==> energy[c] < S64_LIMIT
    ensures target < |rqs|
    ensures !env.cpuArrayReady && !env.manyWakeup ==> target == tasks[pid].cpu
  {
    var pl := FindEnergyEfficientCpu(p, rqs, tasks, pid, thisCpu, env, tun, energy, now);
    target := if pl.cpu < 0 then tasks[pid].cpu else pl.cpu;
  }

  // ---------------------------------------------------------------------
  // Misfit status and entity placement
  // ---------------------------------------------------------------------

  /**
   * The misfit_task_load walt_update_misfit_status leaves: 0 without a task
   * or when the task fits the CPU, else task_h_load(p) but at least 1.
   */
  function MisfitLoad(p: Platform, rqs: seq<Rq>, t: Option<Task>, cpu: CpuId, hLoad: nat, now: nat): (m: nat)
    requires cpu < |rqs| && (t.Some? ==> t.value.cpu < |rqs|)
    ensures m == 0 <==> t.None? || TaskFitsMax(p, rqs, t.value, cpu, now)
    ensures m != 0 ==> m >= hLoad
  {
    if t.None? then 0
    else if TaskFitsMax(p, rqs, t.value, cpu, now) then 0
    else Max(hLoad, 1)
  }

  /**
   * walt_update_misfit_status(p, rq, need_update) for the CPU `cpu`.
   * `pid` is the task or none, `hLoad` is task_h_load(p).
   */
  method UpdateMisfitStatus(s: Sched, pid: Option<TaskId>, cpu: CpuId, hLoad: nat, now: nat)
    returns (needUpdate: bool)
    requires s.Valid() && cpu < |s.rqs| && (pid.Some? ==> pid.value < |s.tasks|)
    modifies s`rqs, s`tasks
    ensures s.Valid()
    ensures !needUpdate
    ensures var t := if pid.Some? then Some(old(s.tasks[pid.value])) else None;
            s.rqs == old(s.rqs)[cpu := old(s.rqs[cpu]).(misfitTaskLoad := MisfitLoad(s.plat, old(s.rqs), t, cpu, hLoad, now))]
    // task_fits_max reads the boost through per_task_boost, which resets an expired one
    ensures pid.None? ==> s.tasks == old(s.tasks)
    ensures pid.Some? ==> s.tasks == old(s.tasks)[pid.value := ExpireBoost(old(s.tasks[pid.value]), now)]
  {
    needUpdate := false;
    if pid.None? {
      var r := s.rqs[cpu];
      UpdateRqWellFormed(s.plat, s.rqs, s.tasks, cpu, r.(misfitTaskLoad := 0));
      s.rqs := s.rqs[cpu := r.(misfitTaskLoad := 0)];
      return;
    }
    WellFormedCpu(s.plat, s.rqs, s.tasks, pid.value);
    var t := s.tasks[pid.value];
    var boost := s.PerTaskBoost(pid.value, now);
    var rqs := s.rqs;
    var r := rqs[cpu];
    var load;
    if TaskFitsMax(s.plat, rqs, t, cpu, now) {
      load := 0;
    } else {
      load := Max(hLoad, 1);
    }
    UpdateRqWellFormed(s.plat, rqs, s.tasks, cpu, r.(misfitTaskLoad := load));
    s.rqs := rqs[cpu := r.(misfitTaskLoad := load)];
  }

  /** Whether walt_place_entity pulls the task's vruntime back. */
  predicate PlacementBoosted(tun: Tunables, t: Task, now: nat)
  {
    BoostAt(t, now) == TASK_BOOST_STRICT_MAX || LowLatencyTask(tun, t) || TaskRtgHighPrio(tun, t)
  }

  /** The sleeper threshold: sysctl_sched_latency, halved under GENTLE_FAIR_SLEEPERS. */
  function SleeperThresh(tun: Tunables): nat
  {
    if tun.gentleFairSleepers then tun.schedLatency / 2 else tun.schedLatency
  }

  /**
   * The u64 vruntime after the boost: moved back by sysctl_sched_latency and
   * the sleeper threshold, wrapping below zero.
   */
  function BoostedVruntime(tun: Tunables, v: nat): (r: nat)
    ensures r < U64
    ensures v < U64 && v >= tun.schedLatency + SleeperThresh(tun) ==> r == v - tun.schedLatency - SleeperThresh(tun)
  {
    Wrap64(Wrap64(v - tun.schedLatency) - SleeperThresh(tun))
  }

  /** Adding the two amounts back with u64 arithmetic restores the original vruntime, wrapped or not. */
  lemma {:induction false} BoostedVruntimeRoundTrip(tun: Tunables, v: nat)
    requires v < U64
    ensures Wrap64(BoostedVruntime(tun, v) + SleeperThresh(tun) + tun.schedLatency) == v
  {
    var a := v - tun.schedLatency;
    var b := Wrap64(a) - SleeperThresh(tun);
    WrapShift(b, SleeperThresh(tun) + tun.schedLatency);
    assert b + (SleeperThresh(tun) + tun.schedLatency) == Wrap64(a) + tun.schedLatency;
    WrapShift(a, tun.schedLatency);
    assert a + tun.schedLatency == v;
  }

  /** Reducing before or after adding a constant gives the same u64 value. */
  lemma WrapShift(x: int, k: int)
    ensures Wrap64(Wrap64(x) + k) == Wrap64(x + k)
  {
    var q := x / (U64 as int);
    assert x == q * U64 + Wrap64(x);
    assert x + k == (Wrap64(x) + k) + q * U64;
    ModShift(Wrap64(x) + k, q);
  }

  lemma ModShift(y: int, q: int)
    ensures (y + q * U64) % U64 == y % U64
  {
    var r := y % U64;
    var d := y / U64;
    assert y == d * U64 + r;
    assert y + q * U64 == (d + q) * U64 + r;
    DivUnique(y + q * U64, U64, d + q, r);
  }

  /**
   * walt_place_entity(se, vruntime): for a task entity that is strict-max
   * boosted, low-latency or an RTG high-priority task, move the vruntime
   * back and store it in the entity.  Returns the new *vruntime.
   */
  method PlaceEntity(s: Sched, isTask: bool, pid: TaskId, vruntime: nat, tun: Tunables, now: nat)
    returns (v: nat)
    requires s.Valid() && pid < |s.tasks| && vruntime < U64
    modifies s`tasks
    ensures s.Valid()
    ensures isTask && PlacementBoosted(tun, old(s.tasks[pid]), now) ==>
              v == BoostedVruntime(tun, vruntime) &&
              s.tasks == old(s.tasks)[pid := old(s.tasks[pid]).(vruntime := v)]
    ensures !(isTask && PlacementBoosted(tun, old(s.tasks[pid]), now)) ==> v == vruntime && s.tasks == old(s.tasks)
  {
    v := vruntime;
    if isTask {
      var thresh := tun.schedLatency;
      if tun.gentleFairSleepers {
        thresh := thresh / 2;
      }
      var tasks := s.tasks;
      var t := tasks[pid];
      if BoostAt(t, now) == TASK_BOOST_STRICT_MAX || LowLatencyTask(tun, t) || TaskRtgHighPrio(tun, t) {
        v := Wrap64(v - tun.schedLatency);
        v := Wrap64(v - thresh);
        assert TaskOk(tasks[pid], |s.rqs|);
        UpdateTaskWellFormed(s.plat, s.rqs, tasks, pid, t.(vruntime := v));
        s.tasks := tasks[pid := t.(vruntime := v)];
      }
    }
  }
}
