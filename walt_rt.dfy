/**
 * kernel/sched/walt/walt_rt.c: WALT's choice of a CPU for a waking RT task
 * among the lowest-priority CPUs the RT class found.  Clusters are visited
 * in order; within a cluster the least-utilised CPU wins, ties going to the
 * task's own CPU, then to the shallower idle state, then to the smaller
 * cumulative window demand.  The search ends with the first cluster that
 * yields a CPU.
 */
module WaltRt {
  import opened Machine
  import opened Walt

  /** The running best of the scan: *best_cpu and the three figures it was chosen by. */
  datatype RtBest = RtBest(cpu: int, util: nat, exitLatency: nat, utilCum: nat)

  /** The state the scan starts from, given the caller's *best_cpu. */
  function RtInit(bestCpu: int): RtBest
  {
    RtBest(bestCpu, ULONG_MAX, UINT_MAX, ULONG_MAX)
  }

  /** Active, not under high IRQ load, and not over-utilised once the task's utilisation is added. */
  predicate RtQualifies(rqs: seq<Rq>, t: Task, c: CpuId)
    requires c < |rqs|
  {
    rqs[c].active && !rqs[c].highIrqload && !CpuOverutilizedBy(rqs[c], TaskUtil(t))
  }

  /**
   * One visit of the scan to CPU `c` of `lowest_mask`: whether it replaces
   * the running best.
   */
  function RtStep(rqs: seq<Rq>, t: Task, st: RtBest, c: CpuId): (st': RtBest)
    requires c < |rqs|
    ensures st' == st || st' == RtBest(c, CpuUtil(rqs[c]), rqs[c].idleExitLatency, CpuUtilCum(rqs[c], 0))
    ensures st' != st ==> RtQualifies(rqs, t, c) && CpuUtil(rqs[c]) <= st.util
    // least utilisation first
    ensures RtQualifies(rqs, t, c) && CpuUtil(rqs[c]) < st.util ==> st'.cpu == c
    // on equal utilisation the task's CPU is kept, and otherwise taken
    ensures CpuUtil(rqs[c]) == st.util && st.cpu == t.cpu ==> st' == st
    ensures RtQualifies(rqs, t, c) && CpuUtil(rqs[c]) == st.util && st.cpu != t.cpu && c == t.cpu ==> st'.cpu == c
    // then the shallower idle state, then the smaller cumulative demand
    ensures RtQualifies(rqs, t, c) && CpuUtil(rqs[c]) == st.util && st.cpu != t.cpu && c != t.cpu && st.cpu != c ==>
              (st'.cpu == c <==>
                 (rqs[c].idleExitLatency < st.exitLatency ||
                  (rqs[c].idleExitLatency == st.exitLatency && CpuUtilCum(rqs[c], 0) <= st.utilCum)))
  {
    if !rqs[c].active || rqs[c].highIrqload || CpuOverutilizedBy(rqs[c], TaskUtil(t)) then st
    else
      var util := CpuUtil(rqs[c]);
      if util > st.util then st
      else if st.util == util && st.cpu == t.cpu then st
      else
        var lat := rqs[c].idleExitLatency;
        var cum := CpuUtilCum(rqs[c], 0);
        if c != t.cpu && st.util == util &&
           (st.exitLatency < lat || (st.exitLatency == lat && st.utilCum < cum))
        then st
        else RtBest(c, util, lat, cum)
  }

  /** The scan of one cluster: the CPUs of `cpus` that are in `lowest`, in order. */
  function RtScanCluster(rqs: seq<Rq>, t: Task, lowest: set<CpuId>, st: RtBest, cpus: seq<CpuId>): RtBest
    requires CpusIn(cpus, |rqs|)
  {
    if |cpus| == 0 then st
    else
      var n := |cpus| - 1;
      var prev := RtScanCluster(rqs, t, lowest, st, cpus[..n]);
      if cpus[n] in lowest then RtStep(rqs, t, prev, cpus[n]) else prev
  }

  /** The scan from cluster `k` of row `o` of cpu_array on, stopping after the first cluster that yields a CPU. */
  function RtScanFrom(p: Platform, rqs: seq<Rq>, t: Task, lowest: set<CpuId>, o: nat, st: RtBest, k: nat): RtBest
    requires PlatformOk(p, |rqs|) && o < p.numClusters
    decreases p.numClusters - k
  {
    if k >= p.numClusters then st
    else
      var st' := RtScanCluster(rqs, t, lowest, st, p.cpuArray[o][k]);
      if st'.cpu != -1 then st' else RtScanFrom(p, rqs, t, lowest, o, st', k + 1)
  }

  /** The row of cpu_array the scan uses: the second one under full-throttle boost on big. */
  function RtOrderIndex(p: Platform, boostOnBig: bool): nat
  {
    if boostOnBig && p.numClusters > 1 then 1 else 0
  }

  /**
   * rt_energy_aware_wake_cpu(task, lowest_mask, ret, best_cpu).  `bestCpu0`
   * is *best_cpu on entry, `boostOnBig` is rt_boost_on_big().
   */
  method RtEnergyAwareWakeCpu(p: Platform, rqs: seq<Rq>, t: Task, lowest: set<CpuId>, ret: int,
                              bestCpu0: int, boostOnBig: bool) returns (bestCpu: int)
    requires PlatformOk(p, |rqs|)
    ensures ret == 0 ==> bestCpu == bestCpu0
    ensures ret != 0 ==> bestCpu == RtScanFrom(p, rqs, t, lowest, RtOrderIndex(p, boostOnBig), RtInit(bestCpu0), 0).cpu
  {
    bestCpu := bestCpu0;
    if ret == 0 {
      return;
    }
    var o := RtOrderIndex(p, boostOnBig);
    var st := RtInit(bestCpu0);
    var cluster := 0;
    while cluster < p.numClusters
      invariant cluster <= p.numClusters
      invariant bestCpu == st.cpu
      invariant RtScanFrom(p, rqs, t, lowest, o, RtInit(bestCpu0), 0) == RtScanFrom(p, rqs, t, lowest, o, st, cluster)
      decreases p.numClusters - cluster
    {
      var cpus := p.cpuArray[o][cluster];
      ghost var st0 := st;
      for j := 0 to |cpus|
        invariant st == RtScanCluster(rqs, t, lowest, st0, cpus[..j])
        invariant bestCpu == st.cpu
      {
        assert cpus[..j + 1][..j] == cpus[..j];
        var cpu := cpus[j];
        if cpu !in lowest {
          continue;
        }
        var r := rqs[cpu];
        if !r.active {
          continue;
        }
        if r.highIrqload {
          continue;
        }
        if CpuOverutilizedBy(r, TaskUtil(t)) {
          continue;
        }
        var util := CpuUtil(r);
        if util > st.util {
          continue;
        }
        if st.util == util && bestCpu == t.cpu {
          continue;
        }
        var cpuIdleExitLatency := r.idleExitLatency;
        var utilCum := CpuUtilCum(r, 0);
        if cpu != t.cpu && st.util == util {
          if st.exitLatency < cpuIdleExitLatency {
            continue;
          }
          if st.exitLatency == cpuIdleExitLatency && st.utilCum < utilCum {
            continue;
          }
        }
        st := RtBest(cpu, util, cpuIdleExitLatency, utilCum);
        bestCpu := cpu;
      }
      assert cpus[..|cpus|] == cpus;
      if bestCpu != -1 {
        break;
      }
      cluster := cluster + 1;
    }
  }

  // ---------------------------------------------------------------------
  // What the choice guarantees
  // ---------------------------------------------------------------------

  /** A CPU the cluster scan picks is in the mask and the cluster, qualifies, and carries its own figures. */
  lemma {:induction false} RtScanClusterPicks(rqs: seq<Rq>, t: Task, lowest: set<CpuId>, st: RtBest, cpus: seq<CpuId>)
    requires CpusIn(cpus, |rqs|)
    ensures var r := RtScanCluster(rqs, t, lowest, st, cpus);
            r == st || (r.cpu in lowest && r.cpu in cpus && 0 <= r.cpu < |rqs| && RtQualifies(rqs, t, r.cpu) &&
                        r.util == CpuUtil(rqs[r.cpu]) && r.util <= st.util)
  {
    if |cpus| > 0 {
      var n := |cpus| - 1;
      RtScanClusterPicks(rqs, t, lowest, st, cpus[..n]);
    }
  }

  /** The cluster scan ends on a utilisation no higher than that of any qualifying CPU it visited. */
  lemma {:induction false} RtScanClusterMinimal(rqs: seq<Rq>, t: Task, lowest: set<CpuId>, st: RtBest, cpus: seq<CpuId>)
    requires CpusIn(cpus, |rqs|)
    ensures var r := RtScanCluster(rqs, t, lowest, st, cpus);
            r.util <= st.util &&
            forall k :: 0 <= k < |cpus| && cpus[k] in lowest && RtQualifies(rqs, t, cpus[k]) ==>
              r.util <= CpuUtil(rqs[cpus[k]])
  {
    if |cpus| > 0 {
      var n := |cpus| - 1;
      RtScanClusterMinimal(rqs, t, lowest, st, cpus[..n]);
    }
  }

  /** Once the task's own CPU is the best, an equally loaded CPU never displaces it. */
  lemma {:induction false} RtScanClusterKeepsTaskCpu(rqs: seq<Rq>, t: Task, lowest: set<CpuId>, st: RtBest, cpus: seq<CpuId>)
    requires CpusIn(cpus, |rqs|) && st.cpu == t.cpu
    requires forall k :: 0 <= k < |cpus| && cpus[k] in lowest && RtQualifies(rqs, t, cpus[k]) ==>
               st.util <= CpuUtil(rqs[cpus[k]])
    ensures RtScanCluster(rqs, t, lowest, st, cpus) == st
  {
    if |cpus| > 0 {
      var n := |cpus| - 1;
      RtScanClusterKeepsTaskCpu(rqs, t, lowest, st, cpus[..n]);
    }
  }

  /**
   * If the task's own CPU qualifies and is among the least utilised
   * qualifying CPUs of the cluster, the cluster scan picks it.
   */
  lemma {:induction false} RtTaskCpuWinsTie(rqs: seq<Rq>, t: Task, lowest: set<CpuId>, st: RtBest, cpus: seq<CpuId>, i: nat)
    requires CpusIn(cpus, |rqs|) && i < |cpus| && cpus[i] == t.cpu && t.cpu in lowest && RtQualifies(rqs, t, t.cpu)
    requires CpuUtil(rqs[t.cpu]) < st.util
    requires forall k :: 0 <= k < |cpus| && cpus[k] in lowest && RtQualifies(rqs, t, cpus[k]) ==>
               CpuUtil(rqs[t.cpu]) <= CpuUtil(rqs[cpus[k]])
    ensures RtScanCluster(rqs, t, lowest, st, cpus).cpu == t.cpu
    ensures RtScanCluster(rqs, t, lowest, st, cpus).util == CpuUtil(rqs[t.cpu])
  {
    var n := |cpus| - 1;
    if i == n {
      RtScanClusterPicks(rqs, t, lowest, st, cpus[..n]);
      var prev := RtScanCluster(rqs, t, lowest, st, cpus[..n]);
      if prev.cpu == t.cpu && prev.util == CpuUtil(rqs[t.cpu]) {
      } else {
        assert RtStep(rqs, t, prev, t.cpu).cpu == t.cpu;
      }
    } else {
      RtTaskCpuWinsTie(rqs, t, lowest, st, cpus[..n], i);
      var prev := RtScanCluster(rqs, t, lowest, st, cpus[..n]);
      RtScanClusterKeepsTaskCpu(rqs, t, lowest, prev, cpus[n..]);
      assert cpus[n..] == [cpus[n]];
    }
  }

  /** A CPU the whole search returns, other than the caller's, is a qualifying CPU of the mask. */
  lemma {:induction false} RtScanFromPicks(p: Platform, rqs: seq<Rq>, t: Task, lowest: set<CpuId>, o: nat, st: RtBest, k: nat)
    requires PlatformOk(p, |rqs|) && o < p.numClusters
    ensures var r := RtScanFrom(p, rqs, t, lowest, o, st, k);
            r == st || (r.cpu in lowest && 0 <= r.cpu < |rqs| && RtQualifies(rqs, t, r.cpu) &&
                        exists c :: k <= c < p.numClusters && r.cpu in p.cpuArray[o][c])
    decreases p.numClusters - k
  {
    if k < p.numClusters {
      RtScanClusterPicks(rqs, t, lowest, st, p.cpuArray[o][k]);
      RtScanFromPicks(p, rqs, t, lowest, o, RtScanCluster(rqs, t, lowest, st, p.cpuArray[o][k]), k + 1);
    }
  }
}
