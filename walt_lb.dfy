/**
 * kernel/sched/walt/walt_lb.c: WALT's load balancer.  Busiest-CPU scans over
 * a cluster mask, the newly-idle pull, the tick-path misfit migration with
 * its active-balance handshake, big.LITTLE rotation, and the small hooks
 * that veto or trigger the generic balancer.
 */
module WaltLb {
  import opened Machine
  import opened Walt

  /** Which of the three busiest-CPU scans runs. */
  datatype ScanKind = SimilarCap | HigherCap | LowerCap

  const SMALL_TASK_THRESHOLD: nat := 102

  /** Every CPU's records point at existing tasks, and every task at an existing CPU. */
  predicate Indexed(rqs: seq<Rq>, tasks: seq<Task>)
  {
    (forall c :: 0 <= c < |rqs| ==>
       rqs[c].curr < |tasks| && TasksIn(rqs[c].cfsTasks, |tasks|) && rqs[c].pushCpu < |rqs| &&
       (rqs[c].pushTask.Some? ==> rqs[c].pushTask.value < |tasks|)) &&
    (forall t :: 0 <= t < |tasks| ==> tasks[t].cpu < |rqs|)
  }

  lemma WellFormedIndexed(p: Platform, rqs: seq<Rq>, tasks: seq<Task>)
    requires WellFormed(p, rqs, tasks)
    ensures Indexed(rqs, tasks)
  {
    forall c | 0 <= c < |rqs|
      ensures rqs[c].curr < |tasks| && TasksIn(rqs[c].cfsTasks, |tasks|) && rqs[c].pushCpu < |rqs|
    {
      assert RqOk(rqs[c], |rqs|, |tasks|, p.numClusters);
    }
    forall t | 0 <= t < |tasks|
      ensures tasks[t].cpu < |rqs|
    {
      assert TaskOk(tasks[t], |rqs|);
    }
  }

  // ---------------------------------------------------------------------
  // Busiest-CPU scans
  // ---------------------------------------------------------------------

  /** The per-CPU filter of each scan: the tests a CPU must pass before its utilisation is compared. */
  predicate Candidate(kind: ScanKind, rqs: seq<Rq>, tasks: seq<Task>, rotation: bool, c: CpuId)
    requires c < |rqs| && rqs[c].curr < |tasks|
  {
    var r := rqs[c];
    match kind
    case SimilarCap => HNrRunning(r) >= 2
    case HigherCap =>
      r.active && HNrRunning(r) >= 2 &&
      !(HNrRunning(r) == 2 && TaskUtil(tasks[r.curr]) < SMALL_TASK_THRESHOLD) &&
      (rotation || CpuOverutilized(r))
    case LowerCap =>
      r.active && !r.activeBalance &&
      !(HNrRunning(r) < 2 && r.nrBigTasks == 0) &&
      (rotation || CpuOverutilized(r))
  }

  predicate ScanInputs(rqs: seq<Rq>, tasks: seq<Task>, mask: seq<CpuId>)
  {
    CpusIn(mask, |rqs|) && forall c :: 0 <= c < |rqs| ==> rqs[c].curr < |tasks|
  }

  /**
   * Position in `mask` of the candidate with the highest utilisation; among
   * equal utilisations the one met last wins (the scans replace the pick
   * unless `util < busiest_util`).  -1 when no CPU is a candidate.
   */
  function BestIn(kind: ScanKind, rqs: seq<Rq>, tasks: seq<Task>, rotation: bool, mask: seq<CpuId>): (pos: int)
    requires ScanInputs(rqs, tasks, mask)
    ensures -1 <= pos < |mask|
    ensures pos == -1 <==> forall k :: 0 <= k < |mask| ==> !Candidate(kind, rqs, tasks, rotation, mask[k])
    ensures pos >= 0 ==> Candidate(kind, rqs, tasks, rotation, mask[pos])
    ensures pos >= 0 ==> forall k :: 0 <= k < |mask| && Candidate(kind, rqs, tasks, rotation, mask[k]) ==>
                           CpuUtil(rqs[mask[k]]) <= CpuUtil(rqs[mask[pos]])
    ensures pos >= 0 ==> forall k :: pos < k < |mask| && Candidate(kind, rqs, tasks, rotation, mask[k]) ==>
                           CpuUtil(rqs[mask[k]]) < CpuUtil(rqs[mask[pos]])
  {
    if |mask| == 0 then -1
    else
      var n := |mask| - 1;
      var prev := BestIn(kind, rqs, tasks, rotation, mask[..n]);
      assert forall k :: 0 <= k < n ==> mask[..n][k] == mask[k];
      if Candidate(kind, rqs, tasks, rotation, mask[n]) &&
         (prev == -1 || CpuUtil(rqs[mask[n]]) >= CpuUtil(rqs[mask[prev]]))
      then n else prev
  }

  /** The running sums the higher- and lower-capacity scans keep over the active CPUs of the mask. */
  datatype Totals = Totals(cpus: nat, util: nat, capacity: nat, nr: nat)

  function TotalsOf(rqs: seq<Rq>, mask: seq<CpuId>): Totals
    requires CpusIn(mask, |rqs|)
  {
    if |mask| == 0 then Totals(0, 0, 0, 0)
    else
      var t := TotalsOf(rqs, mask[..|mask| - 1]);
      var r := rqs[mask[|mask| - 1]];
      if !r.active then t else AddCpu(t, r)
  }

  /** The running sums after counting one more active CPU. */
  function AddCpu(t: Totals, r: Rq): Totals
  {
    Totals(t.cpus + 1, t.util + CpuUtil(r), t.capacity + r.capOrig, t.nr + HNrRunning(r))
  }

  /** The totals never count more CPUs than the mask has, and utilisation never exceeds capacity. */
  lemma {:induction false} TotalsBounds(rqs: seq<Rq>, mask: seq<CpuId>)
    requires CpusIn(mask, |rqs|)
    requires forall c :: 0 <= c < |rqs| ==> rqs[c].capOrig <= SCHED_CAPACITY_SCALE
    ensures TotalsOf(rqs, mask).cpus <= |mask|
    ensures TotalsOf(rqs, mask).util <= TotalsOf(rqs, mask).capacity <= SCHED_CAPACITY_SCALE * TotalsOf(rqs, mask).cpus
  {
    if |mask| > 0 {
      TotalsBounds(rqs, mask[..|mask| - 1]);
    }
  }

  /** One more CPU of the mask: the pick moves to it when it is a candidate at least as busy. */
  lemma BestInStep(kind: ScanKind, rqs: seq<Rq>, tasks: seq<Task>, rotation: bool, mask: seq<CpuId>, i: nat)
    requires ScanInputs(rqs, tasks, mask) && i < |mask|
    ensures var prev := BestIn(kind, rqs, tasks, rotation, mask[..i]);
            BestIn(kind, rqs, tasks, rotation, mask[..i + 1]) ==
              if Candidate(kind, rqs, tasks, rotation, mask[i]) &&
                 (prev == -1 || CpuUtil(rqs[mask[i]]) >= CpuUtil(rqs[mask[prev]]))
              then i else prev
  {
    assert mask[..i + 1][..i] == mask[..i];
  }

  /** One more CPU of the mask: the totals grow by it when it is active. */
  lemma TotalsStep(rqs: seq<Rq>, mask: seq<CpuId>, i: nat)
    requires CpusIn(mask, |rqs|) && i < |mask|
    ensures var t := TotalsOf(rqs, mask[..i]);
            var r := rqs[mask[i]];
            TotalsOf(rqs, mask[..i + 1]) ==
              if !r.active then t else AddCpu(t, r)
  {
    assert mask[..i + 1][..i] == mask[..i];
  }

  /**
   * The "sufficiently loaded" test that guards migrations out of a cluster:
   * more runnable CFS tasks than active CPUs, and at least 80% of the
   * cluster's capacity in use.
   */
  predicate AggregateLoaded(rqs: seq<Rq>, mask: seq<CpuId>)
    requires CpusIn(mask, |rqs|)
  {
    var t := TotalsOf(rqs, mask);
    t.nr > t.cpus && t.util * 1280 >= t.capacity * 1024
  }

  /** What each scan returns: the busiest candidate, or -1 once the cluster-load gate rejects it. */
  function ScanResult(kind: ScanKind, rqs: seq<Rq>, tasks: seq<Task>, rotation: bool, mask: seq<CpuId>): (r: int)
    requires ScanInputs(rqs, tasks, mask)
    ensures r == -1 || (0 <= r < |rqs| && r in mask && Candidate(kind, rqs, tasks, rotation, r))
    ensures r != -1 ==> forall k :: 0 <= k < |mask| && Candidate(kind, rqs, tasks, rotation, mask[k]) ==>
                          CpuUtil(rqs[mask[k]]) <= CpuUtil(rqs[r])
    ensures kind == SimilarCap ==>
              (r == -1 <==> forall k :: 0 <= k < |mask| ==> !Candidate(kind, rqs, tasks, rotation, mask[k]))
    ensures kind == HigherCap && !rotation && r != -1 ==> AggregateLoaded(rqs, mask)
    ensures kind == LowerCap && !rotation && r != -1 ==> AggregateLoaded(rqs, mask) || rqs[r].nrBigTasks > 0
    ensures kind != SimilarCap && (rotation || AggregateLoaded(rqs, mask)) ==>
              (r == -1 <==> forall k :: 0 <= k < |mask| ==> !Candidate(kind, rqs, tasks, rotation, mask[k]))
  {
    var pos := BestIn(kind, rqs, tasks, rotation, mask);
    var pick := if pos == -1 then -1 else mask[pos];
    match kind
    case SimilarCap => pick
    case HigherCap => if !rotation && !AggregateLoaded(rqs, mask) then -1 else pick
    case LowerCap =>
      var busyNrBigTasks := if pos == -1 then 0 else rqs[pick].nrBigTasks;
      if !rotation && busyNrBigTasks == 0 && !AggregateLoaded(rqs, mask) then -1 else pick
  }

  /** On a mask in CPU order, ties in utilisation go to the highest-numbered CPU. */
  lemma ScanTiesGoToLastCpu(kind: ScanKind, rqs: seq<Rq>, tasks: seq<Task>, rotation: bool, mask: seq<CpuId>)
    requires ScanInputs(rqs, tasks, mask) && Sorted(mask)
    ensures var r := ScanResult(kind, rqs, tasks, rotation, mask);
            r != -1 ==> forall k :: 0 <= k < |mask| && mask[k] > r && Candidate(kind, rqs, tasks, rotation, mask[k]) ==>
                          CpuUtil(rqs[mask[k]]) < CpuUtil(rqs[r])
  {
    var pos := BestIn(kind, rqs, tasks, rotation, mask);
    var r := ScanResult(kind, rqs, tasks, rotation, mask);
    if r != -1 {
      assert r == mask[pos];
      forall k | 0 <= k < |mask| && mask[k] > r && Candidate(kind, rqs, tasks, rotation, mask[k])
        ensures CpuUtil(rqs[mask[k]]) < CpuUtil(rqs[r])
      {
        if k < pos {
          assert false;
        }
      }
    }
  }

  /** walt_lb_find_busiest_similar_cap_cpu */
  method FindBusiestSimilarCapCpu(rqs: seq<Rq>, tasks: seq<Task>, rotation: bool, mask: seq<CpuId>) returns (busiest: int)
    requires ScanInputs(rqs, tasks, mask)
    ensures busiest == ScanResult(SimilarCap, rqs, tasks, rotation, mask)
  {
    busiest := -1;
    var busiestUtil := 0;
    ghost var pos := -1;
    for i := 0 to |mask|
      invariant pos == BestIn(SimilarCap, rqs, tasks, rotation, mask[..i])
      invariant pos == -1 ==> busiest == -1 && busiestUtil == 0
      invariant pos != -1 ==> busiest == mask[pos] && busiestUtil == CpuUtil(rqs[busiest])
    {
      BestInStep(SimilarCap, rqs, tasks, rotation, mask, i);
      var c := mask[i];
      if HNrRunning(rqs[c]) < 2 {
        continue;
      }
      var util := CpuUtil(rqs[c]);
      if util < busiestUtil {
        continue;
      }
      busiest, busiestUtil, pos := c, util, i;
    }
    assert mask[..|mask|] == mask;
  }

  /** walt_lb_find_busiest_higher_cap_cpu */
  method FindBusiestHigherCapCpu(rqs: seq<Rq>, tasks: seq<Task>, rotation: bool, mask: seq<CpuId>) returns (busiest: int)
    requires ScanInputs(rqs, tasks, mask)
    ensures busiest == ScanResult(HigherCap, rqs, tasks, rotation, mask)
  {
    busiest := -1;
    var busiestUtil := 0;
    var totals := Totals(0, 0, 0, 0);
    ghost var pos := -1;
    for i := 0 to |mask|
      invariant pos == BestIn(HigherCap, rqs, tasks, rotation, mask[..i])
      invariant pos == -1 ==> busiest == -1 && busiestUtil == 0
      invariant pos != -1 ==> busiest == mask[pos] && busiestUtil == CpuUtil(rqs[busiest])
      invariant totals == TotalsOf(rqs, mask[..i])
    {
      BestInStep(HigherCap, rqs, tasks, rotation, mask, i);
      TotalsStep(rqs, mask, i);
      var c := mask[i];
      if !rqs[c].active {
        continue;
      }
      var util := CpuUtil(rqs[c]);
      totals := AddCpu(totals, rqs[c]);
      if HNrRunning(rqs[c]) < 2 {
        continue;
      }
      if HNrRunning(rqs[c]) == 2 && TaskUtil(tasks[rqs[c].curr]) < SMALL_TASK_THRESHOLD {
        continue;
      }
      if !rotation && !CpuOverutilized(rqs[c]) {
        continue;
      }
      if util < busiestUtil {
        continue;
      }
      busiest, busiestUtil, pos := c, util, i;
    }
    assert mask[..|mask|] == mask;
    if !rotation {
      if totals.nr <= totals.cpus || totals.util * 1280 < totals.capacity * 1024 {
        busiest := -1;
      }
    }
  }

  /** walt_lb_find_busiest_lower_cap_cpu */
  method FindBusiestLowerCapCpu(rqs: seq<Rq>, tasks: seq<Task>, rotation: bool, mask: seq<CpuId>) returns (busiest: int)
    requires ScanInputs(rqs, tasks, mask)
    ensures busiest == ScanResult(LowerCap, rqs, tasks, rotation, mask)
  {
    busiest := -1;
    var busiestUtil := 0;
    var busyNrBigTasks := 0;
    var totals := Totals(0, 0, 0, 0);
    ghost var pos := -1;
    for i := 0 to |mask|
      invariant pos == BestIn(LowerCap, rqs, tasks, rotation, mask[..i])
      invariant pos == -1 ==> busiest == -1 && busiestUtil == 0 && busyNrBigTasks == 0
      invariant pos != -1 ==> busiest == mask[pos] && busiestUtil == CpuUtil(rqs[busiest]) &&
                              busyNrBigTasks == rqs[busiest].nrBigTasks
      invariant totals == TotalsOf(rqs, mask[..i])
    {
      BestInStep(LowerCap, rqs, tasks, rotation, mask, i);
      TotalsStep(rqs, mask, i);
      var c := mask[i];
      if rqs[c].active {
        var util := CpuUtil(rqs[c]);
        totals := AddCpu(totals, rqs[c]);
        // the remaining `continue` tests of the loop, then the comparison
        if !rqs[c].activeBalance && !(HNrRunning(rqs[c]) < 2 && rqs[c].nrBigTasks == 0) &&
           (rotation || CpuOverutilized(rqs[c])) && util >= busiestUtil {
          busiest, busiestUtil, pos := c, util, i;
          busyNrBigTasks := rqs[c].nrBigTasks;
        }
      }
    }
    assert mask[..|mask|] == mask;
    if !rotation && busyNrBigTasks == 0 {
      if totals.nr <= totals.cpus || totals.util * 1280 < totals.capacity * 1024 {
        busiest := -1;
      }
    }
  }

  /**
   * The scan walt_lb_find_busiest_cpu dispatches to, from the capacities of
   * the destination and of the mask's first CPU.
   */
  function DispatchKind(dstCapacity: nat, firstCapacity: nat): (k: ScanKind)
    ensures k == SimilarCap <==> dstCapacity == firstCapacity
    ensures k == LowerCap <==> dstCapacity < firstCapacity
    ensures k == HigherCap <==> dstCapacity > firstCapacity
  {
    if dstCapacity == firstCapacity then SimilarCap
    else if dstCapacity < firstCapacity then LowerCap
    else HigherCap
  }

  /** The CPU walt_lb_find_busiest_cpu picks; -1 for an empty mask. */
  function BusiestCpu(rqs: seq<Rq>, tasks: seq<Task>, rotation: bool, dst: CpuId, mask: seq<CpuId>): (r: int)
    requires ScanInputs(rqs, tasks, mask) && dst < |rqs|
    ensures r == -1 || (0 <= r < |rqs| && r in mask)
    ensures |mask| == 0 ==> r == -1
  {
    if |mask| == 0 then -1
    else ScanResult(DispatchKind(rqs[dst].capOrig, rqs[mask[0]].capOrig), rqs, tasks, rotation, mask)
  }

  /** walt_lb_find_busiest_cpu(dst_cpu, src_mask) */
  method FindBusiestCpu(rqs: seq<Rq>, tasks: seq<Task>, rotation: bool, dst: CpuId, mask: seq<CpuId>) returns (busiest: int)
    requires ScanInputs(rqs, tasks, mask) && dst < |rqs|
    ensures busiest == BusiestCpu(rqs, tasks, rotation, dst, mask)
  {
    if |mask| == 0 {
      // cpumask_first of an empty mask: every scan then finds nothing.
      return -1;
    }
    var first := mask[0];
    if rqs[dst].capOrig == rqs[first].capOrig {
      busiest := FindBusiestSimilarCapCpu(rqs, tasks, rotation, mask);
    } else if rqs[dst].capOrig < rqs[first].capOrig {
      busiest := FindBusiestLowerCapCpu(rqs, tasks, rotation, mask);
    } else {
      busiest := FindBusiestHigherCapCpu(rqs, tasks, rotation, mask);
    }
  }

  /** The CPUs of `mask` that are also in `cpus` (cpumask_and), in mask order. */
  function Restrict(mask: seq<CpuId>, cpus: set<CpuId>): (r: seq<CpuId>)
    ensures forall k :: 0 <= k < |r| ==> r[k] in mask && r[k] in cpus
    ensures forall c :: c in mask && c in cpus ==> c in r
    ensures Sorted(mask) ==> Sorted(r)
  {
    if |mask| == 0 then []
    else
      var rest := Restrict(mask[..|mask| - 1], cpus);
      var last := mask[|mask| - 1];
      assert forall c :: c in mask ==> c in mask[..|mask| - 1] || c == last;
      if last in cpus then rest + [last] else rest
  }

  /** walt_find_busiest_queue: the busiest CPU of a sched group, or -1; `done` is always set. */
  method FindBusiestQueue(rqs: seq<Rq>, tasks: seq<Task>, rotation: bool, dst: CpuId,
                          group: seq<CpuId>, envCpus: set<CpuId>) returns (busiest: int, done: bool)
    requires ScanInputs(rqs, tasks, group) && dst < |rqs| && |group| > 0
    ensures done
    ensures busiest == -1 || (0 <= busiest < |rqs| && busiest in group)
    ensures SameCluster(rqs, dst, group[0]) ==> busiest == group[0]
    ensures !SameCluster(rqs, dst, group[0]) ==>
              busiest == BusiestCpu(rqs, tasks, rotation, dst, Restrict(group, envCpus))
    ensures !SameCluster(rqs, dst, group[0]) && busiest != -1 ==> busiest in envCpus
  {
    done := true;
    var first := group[0];
    if SameCluster(rqs, dst, first) {
      busiest := first;
      return;
    }
    var srcMask := Restrict(group, envCpus);
    busiest := FindBusiestCpu(rqs, tasks, rotation, dst, srcMask);
    if busiest != -1 {
      var k :| 0 <= k < |srcMask| && srcMask[k] == busiest;
    }
  }

  // ---------------------------------------------------------------------
  // Detaching and attaching tasks
  // ---------------------------------------------------------------------

  /** A CFS task list with `p` removed (deactivate_task). */
  function Without(l: seq<TaskId>, p: TaskId): (r: seq<TaskId>)
    ensures multiset(r) == multiset(l)[p := 0]
    ensures p !in r
    ensures forall q :: q in r ==> q in l
    ensures |r| <= |l|
  {
    if |l| == 0 then []
    else
      assert l == [l[0]] + l[1..];
      if l[0] == p then Without(l[1..], p) else [l[0]] + Without(l[1..], p)
  }

  /** deactivate_task on `src`: `p` leaves its CFS list. */
  function DetachRqs(rqs: seq<Rq>, p: TaskId, src: CpuId): seq<Rq>
    requires src < |rqs|
  {
    rqs[src := rqs[src].(cfsTasks := Without(rqs[src].cfsTasks, p))]
  }

  /** activate_task on `dst`: `p` is added at the head of its CFS list. */
  function AttachRqs(rqs: seq<Rq>, p: TaskId, dst: CpuId): seq<Rq>
    requires dst < |rqs|
  {
    rqs[dst := rqs[dst].(cfsTasks := [p] + rqs[dst].cfsTasks)]
  }

  /** set_task_cpu(p, cpu) */
  function SetCpu(tasks: seq<Task>, p: TaskId, cpu: CpuId): seq<Task>
    requires p < |tasks|
  {
    tasks[p := tasks[p].(cpu := cpu)]
  }

  /** A task taken off a queue and put back on the same queue leaves its contents as they were. */
  lemma {:induction false} DetachAttachSameQueue(rqs: seq<Rq>, p: TaskId, c: CpuId)
    requires c < |rqs| && multiset(rqs[c].cfsTasks)[p] == 1
    ensures multiset(AttachRqs(DetachRqs(rqs, p, c), p, c)[c].cfsTasks) == multiset(rqs[c].cfsTasks)
    ensures HNrRunning(AttachRqs(DetachRqs(rqs, p, c), p, c)[c]) == HNrRunning(rqs[c])
  {
    var l := rqs[c].cfsTasks;
    var l' := AttachRqs(DetachRqs(rqs, p, c), p, c)[c].cfsTasks;
    assert l' == [p] + Without(l, p);
    var single: multiset<TaskId> := multiset{p};
    var ml: multiset<TaskId> := multiset(l);
    assert multiset(l') == single + ml[p := 0];
    assert multiset(l') == multiset(l);
    assert |multiset(l')| == |l'| && |multiset(l)| == |l|;
  }

  lemma WithoutTasksIn(l: seq<TaskId>, q: TaskId, nt: nat)
    requires TasksIn(l, nt)
    ensures TasksIn(Without(l, q), nt)
  {
    var r := Without(l, q);
    forall k | 0 <= k < |r|
      ensures r[k] < nt
    {
      assert r[k] in l;
    }
  }

  /** Detaching a task from one queue and attaching it to another keeps the system well-formed. */
  lemma MoveWellFormed(p: Platform, rqs: seq<Rq>, tasks: seq<Task>, q: TaskId, src: CpuId, dst: CpuId)
    requires WellFormed(p, rqs, tasks) && q < |tasks| && src < |rqs| && dst < |rqs|
    ensures WellFormed(p, DetachRqs(rqs, q, src), tasks)
    ensures WellFormed(p, DetachRqs(rqs, q, src), SetCpu(tasks, q, dst))
    ensures WellFormed(p, AttachRqs(DetachRqs(rqs, q, src), q, dst), SetCpu(tasks, q, dst))
    ensures forall r: seq<Rq> :: WellFormed(p, r, tasks) && |r| == |rqs| && dst < |r| ==>
                        WellFormed(p, AttachRqs(r, q, dst), SetCpu(tasks, q, dst))
  {
    assert RqOk(rqs[src], |rqs|, |tasks|, p.numClusters);
    WithoutTasksIn(rqs[src].cfsTasks, q, |tasks|);
    UpdateRqWellFormed(p, rqs, tasks, src, rqs[src].(cfsTasks := Without(rqs[src].cfsTasks, q)));
    var r1 := DetachRqs(rqs, q, src);
    assert RqOk(r1[dst], |rqs|, |tasks|, p.numClusters);
    UpdateRqWellFormed(p, r1, tasks, dst, r1[dst].(cfsTasks := [q] + r1[dst].cfsTasks));
    var r2 := AttachRqs(r1, q, dst);
    assert TaskOk(tasks[q], |rqs|);
    UpdateTaskWellFormed(p, r2, tasks, q, tasks[q].(cpu := dst));
    UpdateTaskWellFormed(p, r1, tasks, q, tasks[q].(cpu := dst));
    forall r: seq<Rq> | WellFormed(p, r, tasks) && |r| == |rqs| && dst < |r|
      ensures WellFormed(p, AttachRqs(r, q, dst), SetCpu(tasks, q, dst))
    {
      assert RqOk(r[dst], |rqs|, |tasks|, p.numClusters);
      UpdateRqWellFormed(p, r, tasks, dst, r[dst].(cfsTasks := [q] + r[dst].cfsTasks));
      UpdateTaskWellFormed(p, AttachRqs(r, q, dst), tasks, q, tasks[q].(cpu := dst));
    }
  }

  /** Changing only the reservation bit of a CPU keeps the system well-formed. */
  lemma FlagsWellFormed(p: Platform, rqs: seq<Rq>, tasks: seq<Task>, c: CpuId)
    requires WellFormed(p, rqs, tasks) && c < |rqs|
    ensures WellFormed(p, rqs[c := WithReserved(rqs[c])], tasks)
    ensures WellFormed(p, rqs[c := WithoutReserved(rqs[c])], tasks)
  {
    assert RqOk(rqs[c], |rqs|, |tasks|, p.numClusters);
    UpdateRqWellFormed(p, rqs, tasks, c, WithReserved(rqs[c]));
    UpdateRqWellFormed(p, rqs, tasks, c, WithoutReserved(rqs[c]));
  }

  // ---------------------------------------------------------------------
  // Pulling a task
  // ---------------------------------------------------------------------

  /** _walt_can_migrate_task(p, dst_cpu, to_lower) */
  predicate CanMigrate(rqs: seq<Rq>, tasks: seq<Task>, p: TaskId, toLower: bool, now: nat)
    requires p < |tasks| && tasks[p].cpu < |rqs|
  {
    var t := tasks[p];
    (toLower ==> !t.inIowait && !(BoostAt(t, now) == TASK_BOOST_STRICT_MAX && t.inRtg)) &&
    rqs[t.cpu].pushTask != Some(p)
  }

  /** need_active_lb(p, dst_cpu, src_cpu) */
  predicate NeedActiveLb(rqs: seq<Rq>, tasks: seq<Task>, p: TaskId, dst: CpuId, src: CpuId)
    requires p < |tasks| && dst < |rqs| && src < |rqs|
  {
    !rqs[src].activeBalance && rqs[dst].capOrig > rqs[src].capOrig && tasks[p].misfit
  }

  /**
   * The reverse walk of walt_lb_pull_tasks passes over `p`.  The kernel's
   * running test is task_on_cpu(src_rq, p); with each balancing step atomic
   * under the run-queue locks, the task on the CPU is exactly its `curr`.
   */
  predicate PullSkips(rqs: seq<Rq>, tasks: seq<Task>, dst: CpuId, src: CpuId, now: nat, p: TaskId)
    requires Indexed(rqs, tasks) && p < |tasks| && dst < |rqs| && src < |rqs|
  {
    dst !in tasks[p].allowed ||
    !CanMigrate(rqs, tasks, p, rqs[dst].capOrig < rqs[src].capOrig, now) ||
    (p == rqs[src].curr && !NeedActiveLb(rqs, tasks, p, dst, src))
  }

  /**
   * Position of the task the reverse walk stops at: the last entry of the
   * list that it does not pass over, or -1.
   */
  function LastTaken(rqs: seq<Rq>, tasks: seq<Task>, dst: CpuId, src: CpuId, now: nat, l: seq<TaskId>): (k: int)
    requires Indexed(rqs, tasks) && dst < |rqs| && src < |rqs| && TasksIn(l, |tasks|)
    ensures -1 <= k < |l|
    ensures forall j :: k < j < |l| ==> PullSkips(rqs, tasks, dst, src, now, l[j])
    ensures k >= 0 ==> !PullSkips(rqs, tasks, dst, src, now, l[k])
  {
    if |l| == 0 then -1
    else if PullSkips(rqs, tasks, dst, src, now, l[|l| - 1]) then LastTaken(rqs, tasks, dst, src, now, l[..|l| - 1])
    else |l| - 1
  }

  datatype PullDecision = Detach(p: TaskId) | ActiveBalance(p: TaskId) | NoPull

  /** What walt_lb_pull_tasks decides for the source queue's list. */
  function PullScan(rqs: seq<Rq>, tasks: seq<Task>, dst: CpuId, src: CpuId, now: nat): (d: PullDecision)
    requires Indexed(rqs, tasks) && dst < |rqs| && src < |rqs|
    ensures d == NoPull <==>
              forall j :: 0 <= j < |rqs[src].cfsTasks| ==> PullSkips(rqs, tasks, dst, src, now, rqs[src].cfsTasks[j])
    ensures d != NoPull ==> d.p in rqs[src].cfsTasks && d.p < |tasks| && dst in tasks[d.p].allowed &&
                            CanMigrate(rqs, tasks, d.p, rqs[dst].capOrig < rqs[src].capOrig, now)
    ensures d.Detach? ==> d.p != rqs[src].curr
    ensures d.ActiveBalance? ==> d.p == rqs[src].curr && NeedActiveLb(rqs, tasks, d.p, dst, src) &&
                                 !rqs[src].activeBalance && rqs[dst].capOrig > rqs[src].capOrig
  {
    var l := rqs[src].cfsTasks;
    var k := LastTaken(rqs, tasks, dst, src, now, l);
    if k == -1 then NoPull
    else if l[k] == rqs[src].curr then ActiveBalance(l[k])
    else Detach(l[k])
  }

  /** The state that an operation leaves, and the value it reports. */
  datatype Effect = Effect(rqs: seq<Rq>, tasks: seq<Task>, value: int)

  /** Arming an active balance: the busy CPU records the push, the target is reserved. */
  function StartActiveBalance(rqs: seq<Rq>, p: TaskId, busiest: CpuId, target: CpuId): seq<Rq>
    requires busiest < |rqs| && target < |rqs|
  {
    var rqs1 := rqs[busiest := rqs[busiest].(activeBalance := true, pushCpu := target, pushTask := Some(p))];
    rqs1[target := WithReserved(rqs1[target])]
  }

  /** The state walt_lb_pull_tasks(dst, src) leaves and the count it returns. */
  function AfterPull(rqs: seq<Rq>, tasks: seq<Task>, dst: CpuId, src: CpuId, now: nat): (e: Effect)
    requires Indexed(rqs, tasks) && dst < |rqs| && src < |rqs|
    ensures |e.rqs| == |rqs| && |e.tasks| == |tasks|
    ensures e.rqs[dst].nrOther == rqs[dst].nrOther
  {
    match PullScan(rqs, tasks, dst, src, now)
    case Detach(p) => Effect(AttachRqs(DetachRqs(rqs, p, src), p, dst), SetCpu(tasks, p, dst), 1)
    case ActiveBalance(p) => Effect(StartActiveBalance(rqs, p, src, dst), tasks, 0)
    case NoPull => Effect(rqs, tasks, 0)
  }

  /** Arming an active balance keeps the system well-formed. */
  lemma ArmWellFormed(p: Platform, rqs: seq<Rq>, tasks: seq<Task>, q: TaskId, busiest: CpuId, target: CpuId)
    requires WellFormed(p, rqs, tasks) && q < |tasks| && busiest < |rqs| && target < |rqs|
    ensures WellFormed(p, rqs[busiest := rqs[busiest].(activeBalance := true, pushCpu := target, pushTask := Some(q))], tasks)
    ensures WellFormed(p, StartActiveBalance(rqs, q, busiest, target), tasks)
  {
    assert RqOk(rqs[busiest], |rqs|, |tasks|, p.numClusters);
    var r := rqs[busiest].(activeBalance := true, pushCpu := target, pushTask := Some(q));
    UpdateRqWellFormed(p, rqs, tasks, busiest, r);
    FlagsWellFormed(p, rqs[busiest := r], tasks, target);
  }

  /** The reverse walk of walt_lb_pull_tasks over the source CPU's CFS list. */
  method ScanForPull(rqs: seq<Rq>, tasks: seq<Task>, dst: CpuId, src: CpuId, now: nat) returns (decision: PullDecision)
    requires Indexed(rqs, tasks) && dst < |rqs| && src < |rqs|
    ensures decision == PullScan(rqs, tasks, dst, src, now)
  {
    var l := rqs[src].cfsTasks;
    var toLower := rqs[dst].capOrig < rqs[src].capOrig;
    decision := NoPull;
    var i := |l|;
    assert l[..|l|] == l;
    while i > 0
      invariant 0 <= i <= |l|
      invariant decision == NoPull ==> LastTaken(rqs, tasks, dst, src, now, l) ==
                                       LastTaken(rqs, tasks, dst, src, now, l[..i])
      invariant decision != NoPull ==> decision == PullScan(rqs, tasks, dst, src, now)
      decreases i
    {
      assert l[..i][..i - 1] == l[..i - 1];
      i := i - 1;
      var p := l[i];
      if dst !in tasks[p].allowed {
        continue;
      }
      if !CanMigrate(rqs, tasks, p, toLower, now) {
        continue;
      }
      if p == rqs[src].curr {
        if NeedActiveLb(rqs, tasks, p, dst, src) {
          decision := ActiveBalance(p);
          break;
        }
        continue;
      }
      decision := Detach(p);
      break;
    }
  }

  /** walt_lb_pull_tasks(dst_cpu, src_cpu) */
  method PullTasks(s: Sched, dst: CpuId, src: CpuId, now: nat) returns (pulled: int)
    requires s.Valid() && dst < |s.rqs| && src < |s.rqs| && src != dst
    modifies s`rqs, s`tasks
    ensures s.Valid()
    ensures Indexed(old(s.rqs), old(s.tasks))
    ensures Effect(s.rqs, s.tasks, pulled) == AfterPull(old(s.rqs), old(s.tasks), dst, src, now)
  {
    var rqs, tasks := s.rqs, s.tasks;
    AfterPullWellFormed(s.plat, rqs, tasks, dst, src, now);
    var decision := ScanForPull(rqs, tasks, dst, src, now);
    match decision
    case Detach(p) =>
      s.rqs := AttachRqs(DetachRqs(rqs, p, src), p, dst);
      s.tasks := SetCpu(tasks, p, dst);
      pulled := 1;
    case ActiveBalance(p) =>
      s.rqs := StartActiveBalance(rqs, p, src, dst);
      pulled := 0;
    case NoPull =>
      pulled := 0;
  }

  /** The state walt_lb_pull_tasks leaves is well-formed. */
  lemma AfterPullWellFormed(p: Platform, rqs: seq<Rq>, tasks: seq<Task>, dst: CpuId, src: CpuId, now: nat)
    requires WellFormed(p, rqs, tasks) && dst < |rqs| && src < |rqs|
    ensures Indexed(rqs, tasks)
    ensures WellFormed(p, AfterPull(rqs, tasks, dst, src, now).rqs, AfterPull(rqs, tasks, dst, src, now).tasks)
  {
    WellFormedIndexed(p, rqs, tasks);
    match PullScan(rqs, tasks, dst, src, now)
    case Detach(q) => MoveWellFormed(p, rqs, tasks, q, src, dst);
    case ActiveBalance(q) => ArmWellFormed(p, rqs, tasks, q, src, dst);
    case NoPull =>
  }

  /**
   * A pulled task ends up on the pulling CPU, which it is allowed to run on,
   * at the head of that CPU's list and out of the source list; a task is
   * pulled only when the walk found one to move without an active balance.
   */
  lemma PullMovesAllowedTask(rqs: seq<Rq>, tasks: seq<Task>, dst: CpuId, src: CpuId, now: nat)
    requires Indexed(rqs, tasks) && dst < |rqs| && src < |rqs| && src != dst
    ensures var e := AfterPull(rqs, tasks, dst, src, now);
            var d := PullScan(rqs, tasks, dst, src, now);
            (e.value == 1 <==> d.Detach?) &&
            (e.value == 1 ==> d.p in rqs[src].cfsTasks && d.p != rqs[src].curr && d.p !in e.rqs[src].cfsTasks &&
                              e.tasks[d.p].cpu == dst && dst in e.tasks[d.p].allowed &&
                              e.rqs[dst].cfsTasks == [d.p] + rqs[dst].cfsTasks) &&
            (e.value == 0 ==> e.tasks == tasks)
  {
  }

  // ---------------------------------------------------------------------
  // The active-balance stopper
  // ---------------------------------------------------------------------

  /** The sanity checks walt_lb_active_migration makes before looking at the pushed task. */
  predicate MigrationChecks(rqs: seq<Rq>, busiest: CpuId, thisCpu: CpuId)
    requires busiest < |rqs| && rqs[busiest].pushCpu < |rqs|
  {
    rqs[busiest].active && rqs[rqs[busiest].pushCpu].active && busiest == thisCpu &&
    rqs[busiest].activeBalance && NrRunning(rqs[busiest]) > 1
  }

  /** Whether the stopper moves the pushed task. */
  predicate MigrationGo(rqs: seq<Rq>, tasks: seq<Task>, busiest: CpuId, thisCpu: CpuId)
    requires Indexed(rqs, tasks) && busiest < |rqs| && rqs[busiest].pushTask.Some?
  {
    var p := rqs[busiest].pushTask.value;
    MigrationChecks(rqs, busiest, thisCpu) &&
    tasks[p].onRq && tasks[p].state == Running && tasks[p].cpu == busiest &&
    rqs[rqs[busiest].pushCpu].active
  }

  /** The state walt_lb_active_migration leaves, with 1 when it moved the task. */
  function AfterActiveMigration(rqs: seq<Rq>, tasks: seq<Task>, busiest: CpuId, thisCpu: CpuId): Effect
    requires Indexed(rqs, tasks) && busiest < |rqs| && rqs[busiest].pushTask.Some?
  {
    var p := rqs[busiest].pushTask.value;
    var target := rqs[busiest].pushCpu;
    var go := MigrationGo(rqs, tasks, busiest, thisCpu);
    var rqs3 := Disarm(if go then DetachRqs(rqs, p, busiest) else rqs, busiest, target);
    if go then Effect(AttachRqs(rqs3, p, target), SetCpu(tasks, p, target), 1)
    else Effect(rqs3, tasks, 0)
  }

  /** out_unlock of the stopper: the busy CPU is disarmed and the target's reservation released. */
  function Disarm(rqs: seq<Rq>, busiest: CpuId, target: CpuId): (r: seq<Rq>)
    requires busiest < |rqs| && target < |rqs|
    ensures |r| == |rqs|
  {
    var rqs2 := rqs[busiest := rqs[busiest].(activeBalance := false, pushTask := None)];
    rqs2[target := WithoutReserved(rqs2[target])]
  }

  lemma DisarmWellFormed(p: Platform, rqs: seq<Rq>, tasks: seq<Task>, busiest: CpuId, target: CpuId)
    requires WellFormed(p, rqs, tasks) && busiest < |rqs| && target < |rqs|
    ensures WellFormed(p, Disarm(rqs, busiest, target), tasks)
  {
    assert RqOk(rqs[busiest], |rqs|, |tasks|, p.numClusters);
    UpdateRqWellFormed(p, rqs, tasks, busiest, rqs[busiest].(activeBalance := false, pushTask := None));
    FlagsWellFormed(p, rqs[busiest := rqs[busiest].(activeBalance := false, pushTask := None)], tasks, target);
  }

  /** walt_lb_active_migration(busiest_rq), run by the stopper on `thisCpu`. */
  method ActiveMigration(s: Sched, busiest: CpuId, thisCpu: CpuId) returns (detached: bool)
    requires s.Valid() && busiest < |s.rqs| && s.rqs[busiest].pushTask.Some?
    requires MigrationChecks(s.rqs, busiest, thisCpu) ==> s.rqs[busiest].pushCpu != busiest
    modifies s`rqs, s`tasks
    ensures s.Valid()
    ensures Indexed(old(s.rqs), old(s.tasks))
    ensures Effect(s.rqs, s.tasks, if detached then 1 else 0) ==
            AfterActiveMigration(old(s.rqs), old(s.tasks), busiest, thisCpu)
  {
    var rqs, tasks := s.rqs, s.tasks;
    WellFormedIndexed(s.plat, rqs, tasks);
    AfterActiveMigrationWellFormed(s.plat, rqs, tasks, busiest, thisCpu);
    var target := rqs[busiest].pushCpu;
    var p := rqs[busiest].pushTask.value;
    detached := false;
    ghost var go := MigrationGo(rqs, tasks, busiest, thisCpu);
    if rqs[busiest].active && rqs[target].active && busiest == thisCpu &&
       rqs[busiest].activeBalance && NrRunning(rqs[busiest]) > 1 {
      if tasks[p].onRq && tasks[p].state == Running && tasks[p].cpu == busiest && rqs[target].active {
        rqs := DetachRqs(rqs, p, busiest);
        tasks := SetCpu(tasks, p, target);
        detached := true;
      }
    }
    assert detached == go;
    // out_unlock: the stopper always disarms and releases the target.
    rqs := Disarm(rqs, busiest, target);
    if detached {
      rqs := AttachRqs(rqs, p, target);
    }
    s.rqs, s.tasks := rqs, tasks;
  }

  lemma AfterActiveMigrationWellFormed(p: Platform, rqs: seq<Rq>, tasks: seq<Task>, busiest: CpuId, thisCpu: CpuId)
    requires WellFormed(p, rqs, tasks) && busiest < |rqs| && rqs[busiest].pushTask.Some?
    ensures Indexed(rqs, tasks)
    ensures var e := AfterActiveMigration(rqs, tasks, busiest, thisCpu);
            WellFormed(p, e.rqs, e.tasks) && |e.rqs| == |rqs| && |e.tasks| == |tasks|
  {
    WellFormedIndexed(p, rqs, tasks);
    var q := rqs[busiest].pushTask.value;
    var target := rqs[busiest].pushCpu;
    if MigrationGo(rqs, tasks, busiest, thisCpu) {
      MoveWellFormed(p, rqs, tasks, q, busiest, target);
      DisarmWellFormed(p, DetachRqs(rqs, q, busiest), tasks, busiest, target);
    } else {
      DisarmWellFormed(p, rqs, tasks, busiest, target);
    }
  }

  /**
   * The stopper always leaves the busy CPU disarmed and the target
   * unreserved; when it moves the task, the task now sits on the target, at
   * the head of its list, and is gone from the busy CPU's list.
   */
  lemma ActiveMigrationOutcome(rqs: seq<Rq>, tasks: seq<Task>, busiest: CpuId, thisCpu: CpuId)
    requires Indexed(rqs, tasks) && busiest < |rqs| && rqs[busiest].pushTask.Some?
    requires MigrationChecks(rqs, busiest, thisCpu) ==> rqs[busiest].pushCpu != busiest
    ensures var e := AfterActiveMigration(rqs, tasks, busiest, thisCpu);
            var p := rqs[busiest].pushTask.value;
            var target := rqs[busiest].pushCpu;
            |e.rqs| == |rqs| &&
            !e.rqs[busiest].activeBalance && e.rqs[busiest].pushTask == None && !IsReserved(e.rqs[target]) &&
            (e.value == 1 <==> MigrationGo(rqs, tasks, busiest, thisCpu)) &&
            (e.value == 1 ==> e.tasks[p].cpu == target && e.rqs[target].cfsTasks[0] == p &&
                              p !in e.rqs[busiest].cfsTasks) &&
            (e.value == 0 ==> e.tasks == tasks && e.rqs[busiest].cfsTasks == rqs[busiest].cfsTasks)
  {
  }

  /**
   * The active-balance handshake: once walt_lb_pull_tasks has armed an
   * active balance from `src` to `dst`, the stopper on `src` always disarms
   * it and releases the reservation of `dst`, and moves the task whenever it
   * is still queued and running on `src`.
   */
  lemma ActiveBalanceHandshake(rqs: seq<Rq>, tasks: seq<Task>, dst: CpuId, src: CpuId, now: nat)
    requires Indexed(rqs, tasks) && dst < |rqs| && src < |rqs| && src != dst
    requires PullScan(rqs, tasks, dst, src, now).ActiveBalance?
    ensures var p := PullScan(rqs, tasks, dst, src, now).p;
            var armed := StartActiveBalance(rqs, p, src, dst);
            Indexed(armed, tasks) &&
            var e := AfterActiveMigration(armed, tasks, src, src);
            !e.rqs[src].activeBalance && e.rqs[src].pushTask == None && !IsReserved(e.rqs[dst]) &&
            (rqs[src].active && rqs[dst].active && NrRunning(rqs[src]) > 1 &&
             tasks[p].onRq && tasks[p].state == Running && tasks[p].cpu == src
             ==> e.value == 1 && e.tasks[p].cpu == dst && e.rqs[dst].cfsTasks == [p] + rqs[dst].cfsTasks)
  {
    var p := PullScan(rqs, tasks, dst, src, now).p;
    var armed := StartActiveBalance(rqs, p, src, dst);
    ArmedIndexed(rqs, tasks, p, src, dst);
    assert armed[src].pushTask == Some(p) && armed[src].pushCpu == dst && armed[src].activeBalance;
    assert armed[src].cfsTasks == rqs[src].cfsTasks && armed[src].nrOther == rqs[src].nrOther;
    assert armed[dst].cfsTasks == rqs[dst].cfsTasks;
    ActiveMigrationOutcome(armed, tasks, src, src);
  }

  /** Arming an active balance keeps every index in range. */
  lemma ArmedIndexed(rqs: seq<Rq>, tasks: seq<Task>, p: TaskId, src: CpuId, dst: CpuId)
    requires Indexed(rqs, tasks) && src < |rqs| && dst < |rqs| && p < |tasks|
    ensures Indexed(StartActiveBalance(rqs, p, src, dst), tasks)
  {
  }

  // ---------------------------------------------------------------------
  // Rotation
  // ---------------------------------------------------------------------

  const WALT_ROTATION_THRESHOLD_NS: nat := 16000000

  /** The two scans of walt_lb_check_for_rotation. */
  datatype RotationRole = Waiter | Runner

  /** How long the task running on `c` has been enqueued (u64 `wc - last_enqueued_ts`). */
  function Elapsed(rqs: seq<Rq>, tasks: seq<Task>, c: CpuId, now: nat): nat
    requires c < |rqs| && rqs[c].curr < |tasks|
  {
    Wrap64(now - tasks[rqs[c].curr].lastEnqueuedTs)
  }

  /**
   * Waiter: a min-capacity CPU, not reserved, whose running task is misfit.
   * Runner: a bigger CPU, not reserved, running one non-RT task that has run
   * for at least the rotation threshold.
   */
  predicate RotationEligible(role: RotationRole, p: Platform, rqs: seq<Rq>, tasks: seq<Task>, c: CpuId, now: nat)
    requires c < |rqs| && rqs[c].curr < |tasks|
  {
    match role
    case Waiter => !IsReserved(rqs[c]) && rqs[c].misfitTaskLoad != 0
    case Runner =>
      !IsMinCapacityCpu(p, rqs[c]) && !IsReserved(rqs[c]) && tasks[rqs[c].curr].prio >= MAX_RT_PRIO &&
      NrRunning(rqs[c]) <= 1 && Elapsed(rqs, tasks, c, now) >= WALT_ROTATION_THRESHOLD_NS
  }

  /** Number of leading min-capacity CPUs: the first rotation scan stops at the first other one. */
  function MinCapPrefix(p: Platform, rqs: seq<Rq>): (k: nat)
    ensures k <= |rqs|
    ensures forall c :: 0 <= c < k ==> IsMinCapacityCpu(p, rqs[c])
    ensures k < |rqs| ==> !IsMinCapacityCpu(p, rqs[k])
  {
    MinCapFrom(p, rqs, 0)
  }

  function MinCapFrom(p: Platform, rqs: seq<Rq>, i: nat): (k: nat)
    requires i <= |rqs| && forall c :: 0 <= c < i ==> IsMinCapacityCpu(p, rqs[c])
    ensures i <= k <= |rqs|
    ensures forall c :: 0 <= c < k ==> IsMinCapacityCpu(p, rqs[c])
    ensures k < |rqs| ==> !IsMinCapacityCpu(p, rqs[k])
    decreases |rqs| - i
  {
    if i == |rqs| || !IsMinCapacityCpu(p, rqs[i]) then i else MinCapFrom(p, rqs, i + 1)
  }

  /**
   * Among CPUs 0 .. k-1, the first eligible one whose task has waited or run
   * the longest (strictly more than 0); |rqs| (nr_cpu_ids) when there is none.
   */
  function FirstLongest(role: RotationRole, p: Platform, rqs: seq<Rq>, tasks: seq<Task>, now: nat, k: nat): (d: nat)
    requires k <= |rqs| && forall c :: 0 <= c < |rqs| ==> rqs[c].curr < |tasks|
    ensures d == |rqs| || (d < k && RotationEligible(role, p, rqs, tasks, d, now) && Elapsed(rqs, tasks, d, now) > 0)
    ensures d == |rqs| ==> forall c :: 0 <= c < k && RotationEligible(role, p, rqs, tasks, c, now) ==>
                             Elapsed(rqs, tasks, c, now) == 0
    ensures d < |rqs| ==> forall c :: 0 <= c < k && RotationEligible(role, p, rqs, tasks, c, now) ==>
                            Elapsed(rqs, tasks, c, now) <= Elapsed(rqs, tasks, d, now)
    ensures d < |rqs| ==> forall c :: 0 <= c < d && RotationEligible(role, p, rqs, tasks, c, now) ==>
                            Elapsed(rqs, tasks, c, now) < Elapsed(rqs, tasks, d, now)
  {
    if k == 0 then |rqs|
    else
      var d := FirstLongest(role, p, rqs, tasks, now, k - 1);
      var best := if d == |rqs| then 0 else Elapsed(rqs, tasks, d, now);
      if RotationEligible(role, p, rqs, tasks, k - 1, now) && Elapsed(rqs, tasks, k - 1, now) > best then k - 1 else d
  }

  /** The destination CPU of a rotation from the waiting CPUs' point of view. */
  function RotationDst(p: Platform, rqs: seq<Rq>, tasks: seq<Task>, now: nat): nat
    requires forall c :: 0 <= c < |rqs| ==> rqs[c].curr < |tasks|
  {
    FirstLongest(Runner, p, rqs, tasks, now, |rqs|)
  }

  /** Whether walt_lb_check_for_rotation(src) queues a swap. */
  predicate RotationFires(p: Platform, rqs: seq<Rq>, tasks: seq<Task>, src: CpuId, now: nat)
    requires src < |rqs| && forall c :: 0 <= c < |rqs| ==> rqs[c].curr < |tasks|
  {
    var dst := RotationDst(p, rqs, tasks, now);
    IsMinCapacityCpu(p, rqs[src]) &&
    FirstLongest(Waiter, p, rqs, tasks, now, MinCapPrefix(p, rqs)) == src &&
    dst != |rqs| &&
    tasks[rqs[dst].curr].prio >= MAX_RT_PRIO && rqs[dst].curr != rqs[dst].idle &&
    tasks[rqs[src].curr].prio >= MAX_RT_PRIO && rqs[src].curr != rqs[src].idle
  }

  /** Both ends of a queued rotation are reserved. */
  function ReserveBoth(rqs: seq<Rq>, src: CpuId, dst: CpuId): seq<Rq>
    requires src < |rqs| && dst < |rqs|
  {
    var rqs1 := rqs[src := WithReserved(rqs[src])];
    rqs1[dst := WithReserved(rqs1[dst])]
  }

  lemma ReserveBothWellFormed(p: Platform, rqs: seq<Rq>, tasks: seq<Task>, src: CpuId, dst: CpuId)
    requires WellFormed(p, rqs, tasks) && src < |rqs| && dst < |rqs|
    ensures WellFormed(p, ReserveBoth(rqs, src, dst), tasks)
  {
    FlagsWellFormed(p, rqs, tasks, src);
    FlagsWellFormed(p, rqs[src := WithReserved(rqs[src])], tasks, dst);
  }

  /**
   * A queued rotation pairs a min-capacity CPU with a different, bigger CPU,
   * and once both are reserved neither can take part in another rotation
   * until the work has run.
   */
  lemma RotationReservesBoth(p: Platform, rqs: seq<Rq>, tasks: seq<Task>, src: CpuId, now: nat, src2: CpuId, now2: nat)
    requires src < |rqs| && src2 < |rqs| && forall c :: 0 <= c < |rqs| ==> rqs[c].curr < |tasks|
    requires RotationFires(p, rqs, tasks, src, now)
    ensures var dst := RotationDst(p, rqs, tasks, now);
            dst < |rqs| && dst != src && IsMinCapacityCpu(p, rqs[src]) && !IsMinCapacityCpu(p, rqs[dst]) &&
            var rqs' := ReserveBoth(rqs, src, dst);
            (RotationFires(p, rqs', tasks, src2, now2) ==>
               src2 != src && src2 != dst &&
               RotationDst(p, rqs', tasks, now2) != src && RotationDst(p, rqs', tasks, now2) != dst)
  {
    var dst := RotationDst(p, rqs, tasks, now);
    var rqs' := ReserveBoth(rqs, src, dst);
    assert IsReserved(rqs'[src]) && IsReserved(rqs'[dst]);
    if RotationFires(p, rqs', tasks, src2, now2) {
      var w := FirstLongest(Waiter, p, rqs', tasks, now2, MinCapPrefix(p, rqs'));
      assert w == src2;
      var d2 := RotationDst(p, rqs', tasks, now2);
      assert RotationEligible(Runner, p, rqs', tasks, d2, now2);
    }
  }

  /** The first loop of walt_lb_check_for_rotation: the min-capacity CPU whose misfit task waited longest. */
  method FindDeservedCpu(p: Platform, rqs: seq<Rq>, tasks: seq<Task>, now: nat) returns (deserved: nat)
    requires forall c :: 0 <= c < |rqs| ==> rqs[c].curr < |tasks|
    ensures deserved == FirstLongest(Waiter, p, rqs, tasks, now, MinCapPrefix(p, rqs))
  {
    var n := |rqs|;
    var maxWait := 0;
    deserved := n;
    var i := 0;
    // The walk stops at the first CPU that is not of minimum capacity.
    while i < n && IsMinCapacityCpu(p, rqs[i])
      invariant 0 <= i <= n
      invariant forall c :: 0 <= c < i ==> IsMinCapacityCpu(p, rqs[c])
      invariant deserved == FirstLongest(Waiter, p, rqs, tasks, now, i)
      invariant maxWait == (if deserved == n then 0 else Elapsed(rqs, tasks, deserved, now))
    {
      if !IsReserved(rqs[i]) && rqs[i].misfitTaskLoad != 0 {
        var wait := Wrap64(now - tasks[rqs[i].curr].lastEnqueuedTs);
        if wait > maxWait {
          maxWait := wait;
          deserved := i;
        }
      }
      i := i + 1;
    }
    assert i == MinCapPrefix(p, rqs);
  }

  /** The second loop of walt_lb_check_for_rotation: the bigger CPU whose lone task ran longest. */
  method FindRotationDst(p: Platform, rqs: seq<Rq>, tasks: seq<Task>, now: nat) returns (dst: nat)
    requires forall c :: 0 <= c < |rqs| ==> rqs[c].curr < |tasks|
    ensures dst == RotationDst(p, rqs, tasks, now)
  {
    var n := |rqs|;
    var maxRun := 0;
    dst := n;
    for i := 0 to n
      invariant dst == FirstLongest(Runner, p, rqs, tasks, now, i)
      invariant maxRun == (if dst == n then 0 else Elapsed(rqs, tasks, dst, now))
    {
      if IsMinCapacityCpu(p, rqs[i]) {
        continue;
      }
      if IsReserved(rqs[i]) {
        continue;
      }
      if tasks[rqs[i].curr].prio < MAX_RT_PRIO {
        continue;
      }
      if NrRunning(rqs[i]) > 1 {
        continue;
      }
      var run := Wrap64(now - tasks[rqs[i].curr].lastEnqueuedTs);
      if run < WALT_ROTATION_THRESHOLD_NS {
        continue;
      }
      if run > maxRun {
        maxRun := run;
        dst := i;
      }
    }
  }

  /** walt_lb_check_for_rotation(src_rq): returns whether a swap was queued. */
  method CheckForRotation(s: Sched, src: CpuId, now: nat) returns (queued: bool)
    requires s.Valid() && src < |s.rqs|
    modifies s`rqs, s`rotateWork
    ensures s.Valid()
    ensures Indexed(old(s.rqs), s.tasks)
    ensures queued == RotationFires(s.plat, old(s.rqs), s.tasks, src, now)
    ensures queued ==>
              var dst := RotationDst(s.plat, old(s.rqs), s.tasks, now);
              dst < |s.rqs| &&
              s.rqs == ReserveBoth(old(s.rqs), src, dst) &&
              s.rotateWork == old(s.rotateWork)[src := RotateWork(old(s.rqs[src].curr), old(s.rqs[dst].curr), src, dst)]
    ensures !queued ==> s.rqs == old(s.rqs) && s.rotateWork == old(s.rotateWork)
  {
    var rqs, tasks := s.rqs, s.tasks;
    WellFormedIndexed(s.plat, rqs, tasks);
    queued := false;
    if !IsMinCapacityCpu(s.plat, rqs[src]) {
      return;
    }
    var n := |rqs|;
    var deserved := FindDeservedCpu(s.plat, rqs, tasks, now);
    if deserved != src {
      return;
    }
    var dst := FindRotationDst(s.plat, rqs, tasks, now);
    if dst == n {
      return;
    }
    var srcRq, dstRq := rqs[src], rqs[dst];
    if tasks[dstRq.curr].prio >= MAX_RT_PRIO && dstRq.curr != dstRq.idle &&
       tasks[srcRq.curr].prio >= MAX_RT_PRIO && srcRq.curr != srcRq.idle {
      ReserveBothWellFormed(s.plat, rqs, tasks, src, dst);
      s.rqs := ReserveBoth(rqs, src, dst);
      s.rotateWork := s.rotateWork[src := RotateWork(srcRq.curr, dstRq.curr, src, dst)];
      queued := true;
    }
  }

  /**
   * Whether migrate_swap exchanges the two tasks: different, active CPUs,
   * each task still on its recorded CPU and allowed on the other one.
   */
  predicate SwapGo(rqs: seq<Rq>, tasks: seq<Task>, w: RotateWork)
    requires w.srcCpu < |rqs| && w.dstCpu < |rqs| && w.srcTask < |tasks| && w.dstTask < |tasks|
  {
    w.srcCpu != w.dstCpu && rqs[w.srcCpu].active && rqs[w.dstCpu].active &&
    w.dstCpu in tasks[w.srcTask].allowed && w.srcCpu in tasks[w.dstTask].allowed &&
    tasks[w.srcTask].cpu == w.srcCpu && tasks[w.dstTask].cpu == w.dstCpu
  }

  /** The state walt_lb_rotate_work_func leaves: the swap, then both reservations released. */
  function AfterRotateWork(rqs: seq<Rq>, tasks: seq<Task>, w: RotateWork): Effect
    requires w.srcCpu < |rqs| && w.dstCpu < |rqs| && w.srcTask < |tasks| && w.dstTask < |tasks|
  {
    var go := SwapGo(rqs, tasks, w);
    var rqs1 := if go then
                  AttachRqs(DetachRqs(AttachRqs(DetachRqs(rqs, w.srcTask, w.srcCpu), w.srcTask, w.dstCpu),
                                      w.dstTask, w.dstCpu), w.dstTask, w.srcCpu)
                else rqs;
    var tasks1 := if go then SetCpu(SetCpu(tasks, w.srcTask, w.dstCpu), w.dstTask, w.srcCpu) else tasks;
    var rqs2 := rqs1[w.srcCpu := WithoutReserved(rqs1[w.srcCpu])];
    Effect(rqs2[w.dstCpu := WithoutReserved(rqs2[w.dstCpu])], tasks1, if go then 1 else 0)
  }

  /** walt_lb_rotate_work_func for the work queued on `cpu`. */
  method RotateWorkFunc(s: Sched, cpu: CpuId)
    requires s.Valid() && cpu in s.rotateWork
    modifies s`rqs, s`tasks, s`rotateWork
    ensures s.Valid()
    ensures var w := old(s.rotateWork[cpu]);
            RotateWorkOk(w, |old(s.rqs)|, |old(s.tasks)|) &&
            Effect(s.rqs, s.tasks, AfterRotateWork(old(s.rqs), old(s.tasks), w).value) ==
              AfterRotateWork(old(s.rqs), old(s.tasks), w)
    ensures s.rotateWork == old(s.rotateWork) - {cpu}
  {
    var rqs, tasks := s.rqs, s.tasks;
    var w := s.rotateWork[cpu];
    AfterRotateWorkWellFormed(s.plat, rqs, tasks, w);
    if SwapGo(rqs, tasks, w) {
      rqs := AttachRqs(DetachRqs(rqs, w.srcTask, w.srcCpu), w.srcTask, w.dstCpu);
      tasks := SetCpu(tasks, w.srcTask, w.dstCpu);
      rqs := AttachRqs(DetachRqs(rqs, w.dstTask, w.dstCpu), w.dstTask, w.srcCpu);
      tasks := SetCpu(tasks, w.dstTask, w.srcCpu);
    }
    rqs := rqs[w.srcCpu := WithoutReserved(rqs[w.srcCpu])];
    rqs := rqs[w.dstCpu := WithoutReserved(rqs[w.dstCpu])];
    s.rqs, s.tasks := rqs, tasks;
    s.rotateWork := s.rotateWork - {cpu};
  }

  lemma AfterRotateWorkWellFormed(p: Platform, rqs: seq<Rq>, tasks: seq<Task>, w: RotateWork)
    requires WellFormed(p, rqs, tasks) && RotateWorkOk(w, |rqs|, |tasks|)
    ensures var e := AfterRotateWork(rqs, tasks, w);
            WellFormed(p, e.rqs, e.tasks) && |e.rqs| == |rqs| && |e.tasks| == |tasks|
  {
    var r, t := rqs, tasks;
    if SwapGo(rqs, tasks, w) {
      MoveWellFormed(p, r, t, w.srcTask, w.srcCpu, w.dstCpu);
      r, t := AttachRqs(DetachRqs(r, w.srcTask, w.srcCpu), w.srcTask, w.dstCpu), SetCpu(t, w.srcTask, w.dstCpu);
      MoveWellFormed(p, r, t, w.dstTask, w.dstCpu, w.srcCpu);
      r, t := AttachRqs(DetachRqs(r, w.dstTask, w.dstCpu), w.dstTask, w.srcCpu), SetCpu(t, w.dstTask, w.srcCpu);
    }
    FlagsWellFormed(p, r, t, w.srcCpu);
    r := r[w.srcCpu := WithoutReserved(r[w.srcCpu])];
    FlagsWellFormed(p, r, t, w.dstCpu);
  }

  /** After the rotation work, neither end of the swap is reserved any more. */
  lemma RotateWorkReleases(rqs: seq<Rq>, tasks: seq<Task>, w: RotateWork)
    requires RotateWorkOk(w, |rqs|, |tasks|)
    ensures var e := AfterRotateWork(rqs, tasks, w);
            !IsReserved(e.rqs[w.srcCpu]) && !IsReserved(e.rqs[w.dstCpu]) &&
            (e.value == 1 ==> e.tasks[w.srcTask].cpu == w.dstCpu && e.tasks[w.dstTask].cpu == w.srcCpu) &&
            (e.value == 0 ==> e.tasks == tasks)
  {
  }

  // ---------------------------------------------------------------------
  // Tick path
  // ---------------------------------------------------------------------

  /** The tick path only acts for a running misfit task that may run on more than one CPU. */
  predicate TickActs(rqs: seq<Rq>, tasks: seq<Task>, cpu: CpuId)
    requires cpu < |rqs| && rqs[cpu].curr < |tasks|
  {
    var t := tasks[rqs[cpu].curr];
    rqs[cpu].misfitTaskLoad != 0 && t.state == Running && |t.allowed| != 1
  }

  /**
   * walt_lb_tick(rq) on `cpu`.  `newCpu` is what
   * walt_find_energy_efficient_cpu(p, prev_cpu, 0, 1) returns, and
   * `stopperQueued` what stop_one_cpu_nowait returns.
   */
  method Tick(s: Sched, cpu: CpuId, newCpu: int, stopperQueued: bool, now: nat)
    requires s.Valid() && cpu < |s.rqs| && newCpu < |s.rqs|
    modifies s`rqs, s`rotateWork
    ensures s.Valid()
    ensures Indexed(old(s.rqs), s.tasks)
    ensures !TickActs(old(s.rqs), s.tasks, cpu) ==> s.rqs == old(s.rqs) && s.rotateWork == old(s.rotateWork)
    ensures TickActs(old(s.rqs), s.tasks, cpu) && s.rotationEnabled ==>
              if RotationFires(s.plat, old(s.rqs), s.tasks, cpu, now) then
                var dst := RotationDst(s.plat, old(s.rqs), s.tasks, now);
                dst < |s.rqs| &&
                s.rqs == ReserveBoth(old(s.rqs), cpu, dst) &&
                s.rotateWork == old(s.rotateWork)[cpu := RotateWork(old(s.rqs[cpu].curr), old(s.rqs[dst].curr), cpu, dst)]
              else s.rqs == old(s.rqs) && s.rotateWork == old(s.rotateWork)
    ensures TickActs(old(s.rqs), s.tasks, cpu) && !s.rotationEnabled ==>
              s.rotateWork == old(s.rotateWork) &&
              if newCpu >= 0 && !SameCluster(old(s.rqs), newCpu, cpu) && !old(s.rqs[cpu].activeBalance) then
                var armed := StartActiveBalance(old(s.rqs), old(s.rqs[cpu].curr), cpu, newCpu);
                s.rqs == (if stopperQueued then armed else armed[newCpu := WithoutReserved(armed[newCpu])])
              else s.rqs == old(s.rqs)
    ensures old(s.rqs[cpu].activeBalance) && !s.rotationEnabled ==> s.rqs == old(s.rqs)
  {
    var rqs := s.rqs;
    WellFormedIndexed(s.plat, rqs, s.tasks);
    var p := rqs[cpu].curr;
    if rqs[cpu].misfitTaskLoad == 0 {
      return;
    }
    if s.tasks[p].state != Running || |s.tasks[p].allowed| == 1 {
      return;
    }
    if s.rotationEnabled {
      var _ := CheckForRotation(s, cpu, now);
      return;
    }
    if newCpu < 0 || SameCluster(rqs, newCpu, cpu) {
      return;
    }
    if rqs[cpu].activeBalance {
      return;
    }
    PushMisfit(s, p, cpu, newCpu, stopperQueued);
  }

  /**
   * The tail of walt_lb_tick: arm the active balance of `cpu` towards
   * `newCpu`, reserve `newCpu`, and release it again when the stopper work
   * could not be queued.
   */
  method PushMisfit(s: Sched, p: TaskId, cpu: CpuId, newCpu: CpuId, stopperQueued: bool)
    requires s.Valid() && p < |s.tasks| && cpu < |s.rqs| && newCpu < |s.rqs|
    modifies s`rqs
    ensures s.Valid()
    ensures var armed := StartActiveBalance(old(s.rqs), p, cpu, newCpu);
            s.rqs == (if stopperQueued then armed else armed[newCpu := WithoutReserved(armed[newCpu])])
  {
    var rqs := s.rqs;
    ArmWellFormed(s.plat, rqs, s.tasks, p, cpu, newCpu);
    s.rqs := rqs[cpu := rqs[cpu].(activeBalance := true, pushCpu := newCpu, pushTask := Some(p))];
    var _ := s.MarkReserved(newCpu);
    if !stopperQueued {
      s.ClearReserved(newCpu);
    }
  }

  // ---------------------------------------------------------------------
  // Newly idle balance
  // ---------------------------------------------------------------------

  /**
   * The source CPU the cluster walk of walt_newidle_balance settles on: the
   * first cluster (in this CPU's order) whose scan finds a busiest CPU, or
   * the last scan's -1.  When this CPU already has tasks the walk stops
   * after the first cluster.
   */
  function NewidleSource(p: Platform, rqs: seq<Rq>, tasks: seq<Task>, rotation: bool, thisCpu: CpuId, k: nat): (b: int)
    requires WellFormed(p, rqs, tasks) && thisCpu < |rqs| && k < p.numClusters
    ensures b == -1 || 0 <= b < |rqs|
    decreases p.numClusters - k
  {
    var order := rqs[thisCpu].cluster;
    assert RqOk(rqs[thisCpu], |rqs|, |tasks|, p.numClusters);
    WellFormedIndexed(p, rqs, tasks);
    var b := BusiestCpu(rqs, tasks, rotation, thisCpu, p.cpuArray[order][k]);
    if b != -1 || NrRunning(rqs[thisCpu]) > 0 || k + 1 == p.numClusters then b
    else NewidleSource(p, rqs, tasks, rotation, thisCpu, k + 1)
  }

  /** Every cluster mask of cpu_array is a valid input to the busiest-CPU scans. */
  lemma ClusterScanInputs(p: Platform, rqs: seq<Rq>, tasks: seq<Task>, order: nat, k: nat)
    requires WellFormed(p, rqs, tasks) && order < p.numClusters && k < p.numClusters
    ensures ScanInputs(rqs, tasks, p.cpuArray[order][k])
  {
    WellFormedIndexed(p, rqs, tasks);
  }

  /** The cluster walk of walt_newidle_balance. */
  method FindNewidleSource(p: Platform, rqs: seq<Rq>, tasks: seq<Task>, rotation: bool, thisCpu: CpuId)
    returns (busy: int)
    requires WellFormed(p, rqs, tasks) && thisCpu < |rqs|
    ensures busy == NewidleSource(p, rqs, tasks, rotation, thisCpu, 0)
  {
    assert RqOk(rqs[thisCpu], |rqs|, |tasks|, p.numClusters);
    var order := rqs[thisCpu].cluster;
    var cluster := 0;
    while true
      invariant 0 <= cluster < p.numClusters
      invariant NewidleSource(p, rqs, tasks, rotation, thisCpu, 0) ==
                NewidleSource(p, rqs, tasks, rotation, thisCpu, cluster)
      decreases p.numClusters - cluster
    {
      ClusterScanInputs(p, rqs, tasks, order, cluster);
      busy := FindBusiestCpu(rqs, tasks, rotation, thisCpu, p.cpuArray[order][cluster]);
      if busy != -1 || NrRunning(rqs[thisCpu]) > 0 || cluster + 1 == p.numClusters {
        break;
      }
      cluster := cluster + 1;
    }
  }

  /** The final bookkeeping of walt_newidle_balance after the pull attempt. */
  function NewidleResult(r: Rq, pulled: int): int
  {
    var v := if HNrRunning(r) > 0 && pulled == 0 then 1 else pulled;
    if NrRunning(r) != HNrRunning(r) then -1 else v
  }

  /** Entering newly-idle balance: the misfit load is cleared and the idle stamp set. */
  function IdleEntry(rqs: seq<Rq>, thisCpu: CpuId, clock: nat): seq<Rq>
    requires thisCpu < |rqs|
  {
    rqs[thisCpu := rqs[thisCpu].(misfitTaskLoad := 0, idleStamp := clock)]
  }

  /**
   * The rest of walt_newidle_balance once the cluster walk has settled on
   * `busy`: the pull (unless a sanity check fails), then *pulled_task and
   * the idle stamp.
   */
  function NewidleFinish(rqs: seq<Rq>, tasks: seq<Task>, thisCpu: CpuId, busy: int, now: nat): (e: Effect)
    requires Indexed(rqs, tasks) && thisCpu < |rqs| && busy < |rqs|
    ensures |e.rqs| == |rqs| && |e.tasks| == |tasks|
  {
    var e := if busy < 0 || NrRunning(rqs[thisCpu]) > 0 || busy == thisCpu then Effect(rqs, tasks, 0)
             else AfterPull(rqs, tasks, thisCpu, busy, now);
    var v := NewidleResult(e.rqs[thisCpu], e.value);
    Effect(if v != 0 then e.rqs[thisCpu := e.rqs[thisCpu].(idleStamp := 0)] else e.rqs, e.tasks, v)
  }

  /**
   * The state walt_newidle_balance leaves, and the *pulled_task it reports,
   * on an active CPU of an overloaded root domain.
   */
  function AfterNewidle(p: Platform, rqs: seq<Rq>, tasks: seq<Task>, rotation: bool, thisCpu: CpuId,
                        clock: nat, now: nat): Effect
    requires WellFormed(p, rqs, tasks) && thisCpu < |rqs|
  {
    var rqs0 := IdleEntry(rqs, thisCpu, clock);
    assert RqOk(rqs[thisCpu], |rqs|, |tasks|, p.numClusters);
    UpdateRqWellFormed(p, rqs, tasks, thisCpu, rqs0[thisCpu]);
    WellFormedIndexed(p, rqs0, tasks);
    NewidleFinish(rqs0, tasks, thisCpu, NewidleSource(p, rqs0, tasks, rotation, thisCpu, 0), now)
  }

  /**
   * What walt_newidle_balance reports: -1 when a task of a higher
   * scheduling class is queued, otherwise 1 exactly when CFS work is now
   * queued here (pulled or already present); the idle stamp is reset
   * exactly when the result is non-zero, and the misfit load stays cleared.
   */
  lemma NewidleOutcome(rqs: seq<Rq>, tasks: seq<Task>, thisCpu: CpuId, busy: int, now: nat)
    requires Indexed(rqs, tasks) && thisCpu < |rqs| && busy < |rqs|
    ensures var e := NewidleFinish(rqs, tasks, thisCpu, busy, now);
            var r := e.rqs[thisCpu];
            -1 <= e.value <= 1 &&
            r.nrOther == rqs[thisCpu].nrOther && r.misfitTaskLoad == rqs[thisCpu].misfitTaskLoad &&
            (e.value == -1 <==> r.nrOther > 0) &&
            (e.value == 1 <==> r.nrOther == 0 && HNrRunning(r) > 0) &&
            r.idleStamp == (if e.value != 0 then 0 else rqs[thisCpu].idleStamp)
  {
    if !(busy < 0 || NrRunning(rqs[thisCpu]) > 0 || busy == thisCpu) {
      var e := AfterPull(rqs, tasks, thisCpu, busy, now);
      assert e.value == 1 ==> HNrRunning(e.rqs[thisCpu]) > 0;
      assert e.rqs[thisCpu].misfitTaskLoad == rqs[thisCpu].misfitTaskLoad;
    }
  }

  lemma NewidleFinishWellFormed(p: Platform, rqs: seq<Rq>, tasks: seq<Task>, thisCpu: CpuId, busy: int, now: nat)
    requires WellFormed(p, rqs, tasks) && thisCpu < |rqs| && busy < |rqs|
    ensures Indexed(rqs, tasks)
    ensures var e := NewidleFinish(rqs, tasks, thisCpu, busy, now);
            WellFormed(p, e.rqs, e.tasks)
  {
    WellFormedIndexed(p, rqs, tasks);
    var e := if busy < 0 || NrRunning(rqs[thisCpu]) > 0 || busy == thisCpu then Effect(rqs, tasks, 0)
             else AfterPull(rqs, tasks, thisCpu, busy, now);
    if !(busy < 0 || NrRunning(rqs[thisCpu]) > 0 || busy == thisCpu) {
      AfterPullWellFormed(p, rqs, tasks, thisCpu, busy, now);
    }
    assert WellFormed(p, e.rqs, e.tasks);
    assert RqOk(e.rqs[thisCpu], |rqs|, |tasks|, p.numClusters);
    UpdateRqWellFormed(p, e.rqs, e.tasks, thisCpu, e.rqs[thisCpu].(idleStamp := 0));
  }

  /**
   * walt_newidle_balance(this_rq).  `pulledIn` and `doneIn` are the
   * caller's values of *pulled_task and *done, `overload` is rd->overload
   * and `clock` is rq_clock(this_rq).
   */
  method NewidleBalance(s: Sched, thisCpu: CpuId, overload: bool, clock: nat, now: nat, pulledIn: int, doneIn: bool)
    returns (pulled: int, done: bool)
    requires s.Valid() && thisCpu < |s.rqs|
    modifies s`rqs, s`tasks
    ensures s.Valid()
    ensures !s.cpuArrayReady ==>
              pulled == pulledIn && done == doneIn && s.rqs == old(s.rqs) && s.tasks == old(s.tasks)
    ensures s.cpuArrayReady ==> done
    ensures s.cpuArrayReady && (!old(s.rqs[thisCpu].active) || !overload) ==>
              pulled == 0 && s.tasks == old(s.tasks) && s.rqs == IdleEntry(old(s.rqs), thisCpu, clock)
    ensures s.cpuArrayReady && old(s.rqs[thisCpu].active) && overload ==>
              Effect(s.rqs, s.tasks, pulled) ==
              AfterNewidle(s.plat, old(s.rqs), old(s.tasks), s.rotationEnabled, thisCpu, clock, now)
  {
    if !s.cpuArrayReady {
      return pulledIn, doneIn;
    }
    done := true;
    pulled := 0;
    var rqs, tasks := s.rqs, s.tasks;
    assert RqOk(rqs[thisCpu], |rqs|, |tasks|, s.plat.numClusters);
    UpdateRqWellFormed(s.plat, rqs, tasks, thisCpu, IdleEntry(rqs, thisCpu, clock)[thisCpu]);
    rqs := IdleEntry(rqs, thisCpu, clock);
    if !rqs[thisCpu].active || !overload {
      s.rqs := rqs;
      return;
    }
    s.rqs := rqs;
    var busy := FindNewidleSource(s.plat, rqs, tasks, s.rotationEnabled, thisCpu);
    pulled := PullAndReport(s, thisCpu, busy, now);
  }

  /** The part of walt_newidle_balance after the cluster walk, from the sanity checks on. */
  method PullAndReport(s: Sched, thisCpu: CpuId, busy: int, now: nat) returns (pulled: int)
    requires s.Valid() && thisCpu < |s.rqs| && -1 <= busy < |s.rqs|
    modifies s`rqs, s`tasks
    ensures s.Valid()
    ensures Indexed(old(s.rqs), old(s.tasks))
    ensures Effect(s.rqs, s.tasks, pulled) == NewidleFinish(old(s.rqs), old(s.tasks), thisCpu, busy, now)
  {
    NewidleFinishWellFormed(s.plat, s.rqs, s.tasks, thisCpu, busy, now);
    pulled := 0;
    if !(busy == -1 || NrRunning(s.rqs[thisCpu]) > 0 || busy == thisCpu) {
      pulled := PullTasks(s, thisCpu, busy, now);
    }
    var rqs := s.rqs;
    if HNrRunning(rqs[thisCpu]) > 0 && pulled == 0 {
      pulled := 1;
    }
    if NrRunning(rqs[thisCpu]) != HNrRunning(rqs[thisCpu]) {
      pulled := -1;
    }
    if pulled != 0 {
      s.rqs := rqs[thisCpu := rqs[thisCpu].(idleStamp := 0)];
    }
  }

  // ---------------------------------------------------------------------
  // Hooks on the generic balancer
  // ---------------------------------------------------------------------

  /** walt_migrate_queued_task: detach `p` from `cpu` towards `newCpu`; *detached becomes 1. */
  method MigrateQueuedTask(s: Sched, cpu: CpuId, p: TaskId, newCpu: CpuId) returns (detached: int)
    requires s.Valid() && cpu < |s.rqs| && p < |s.tasks| && newCpu < |s.rqs|
    modifies s`rqs, s`tasks
    ensures s.Valid()
    ensures detached == 1
    ensures s.rqs == DetachRqs(old(s.rqs), p, cpu) && s.tasks == SetCpu(old(s.tasks), p, newCpu)
    ensures p !in s.rqs[cpu].cfsTasks && s.tasks[p].cpu == newCpu
  {
    var rqs, tasks := s.rqs, s.tasks;
    MoveWellFormed(s.plat, rqs, tasks, p, cpu, newCpu);
    s.rqs, s.tasks := DetachRqs(rqs, p, cpu), SetCpu(tasks, p, newCpu);
    detached := 1;
  }

  /**
   * walt_nohz_balancer_kick: `done` is always set, and the kick flags
   * (NOHZ_KICK_MASK) are requested exactly when the CPU has two or more
   * runnable tasks and is over-utilised.
   */
  method NohzBalancerKick(r: Rq) returns (kick: bool, done: bool)
    ensures done
    ensures kick ==> NrRunning(r) >= 2 && r.capOrig * 1024 < CpuUtil(r) * r.marginUp
    ensures NrRunning(r) >= 2 && CpuOverutilized(r) ==> kick
    ensures NrRunning(r) < 2 ==> !kick
  {
    done := true;
    kick := NrRunning(r) >= 2 && CpuOverutilized(r);
  }

  /** walt_can_migrate_task: clears *can_migrate when WALT vetoes the move, else leaves it. */
  function CanMigrateTaskHook(rqs: seq<Rq>, tasks: seq<Task>, p: TaskId, dst: CpuId, canMigrate: bool, now: nat): (r: bool)
    requires Indexed(rqs, tasks) && p < |tasks| && dst < |rqs|
    ensures r ==> canMigrate
    // the three vetoes: the task under active migration, and an iowait or
    // strict-max related-thread-group task moving to a smaller CPU
    ensures r <==> canMigrate && rqs[tasks[p].cpu].pushTask != Some(p) &&
                   !(rqs[dst].capOrig < rqs[tasks[p].cpu].capOrig &&
                     (tasks[p].inIowait || (BoostAt(tasks[p], now) == TASK_BOOST_STRICT_MAX && tasks[p].inRtg)))
    ensures rqs[tasks[p].cpu].pushTask != Some(p) && rqs[dst].capOrig >= rqs[tasks[p].cpu].capOrig ==> r == canMigrate
  {
    var toLower := rqs[dst].capOrig < rqs[tasks[p].cpu].capOrig;
    if CanMigrate(rqs, tasks, p, toLower, now) then canMigrate else false
  }
}
