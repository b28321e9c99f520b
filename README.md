# WALT load balancing and msm GPU helpers, modelled in Dafny

This project models the core of an Android/Qualcomm kernel tree.

- The WALT ("Window Assisted Load Tracking") scheduler extensions: the
  load balancer (`kernel/sched/walt/walt_lb.c`), the placement of waking CFS
  tasks (`walt_cfs.c`) and RT tasks (`walt_rt.c`), the header helpers they
  share (`walt.h`), and the paused-CPU counting of `qc_vas.c`.
- Four small drivers: the msm fence timeline (`msm_fence.c`), the msm GEM
  shrinker (`msm_gem_shrinker.c`), and two devfreq governors, the GPU bus
  monitor `gpubw_mon` and `Echelon`.

The kernel keeps one run-queue record per CPU and one record per task. Here
they are the datatypes `Walt.Rq` and `Walt.Task`. The class `Walt.Sched` holds
the sequences of those records, the platform topology (`cpu_array`,
capacities, asymmetric siblings) and the queued rotation work. Every
state-changing operation of the balancer is a method on a `Sched`. It is
proved against a function that gives the state it leaves (`AfterPull`,
`AfterActiveMigration`, `AfterRotateWork`, `NewidleFinish`, ...). Lemmas
about those functions state what the kernel relies on:

- the pulled task is allowed on the pulling CPU;
- the stopper always disarms the busy CPU and releases the target's reservation;
- a rotation reserves both of its CPUs, and the rotation work releases them;
- every operation keeps the records well formed (`Walt.WellFormed`).

The loops of the C code are `while`/`for` loops. Each has invariants that tie
it to a recursive specification (`WaltLb.BestIn`, `WaltLb.FirstLongest`,
`WaltRt.RtScanCluster`, `MsmGemShrinker.ScanStop`, ...).

Module layout, one file per source file:

| file | module | source |
|---|---|---|
| machine.dfy | Machine | C fixed-width arithmetic (u32/u64 wrap, s32/s64 casts, truncating division) |
| walt.dfy | Walt | kernel/sched/walt/walt.h |
| walt_lb.dfy | WaltLb | kernel/sched/walt/walt_lb.c |
| walt_cfs.dfy | WaltCfs | kernel/sched/walt/walt_cfs.c |
| walt_rt.dfy | WaltRt | kernel/sched/walt/walt_rt.c |
| qc_vas.dfy | QcVas | kernel/sched/walt/qc_vas.c |
| msm_fence.dfy | MsmFence | drivers/gpu/drm/msm/msm_fence.c |
| msm_gem_shrinker.dfy | MsmGemShrinker | drivers/gpu/drm/msm/msm_gem_shrinker.c |
| gpubw_mon.dfy | GpuBwMon | drivers/devfreq/governor_gpubw_mon.c |
| echelon.dfy | Echelon | drivers/devfreq/governor_echelon.c |

Where the code and its comments (or a natural reading of them) disagree, the
model follows the code.

- The busiest-CPU scans skip a CPU only when `util < busiest_util`, so among
  equal utilisations the LAST CPU scanned wins (`WaltLb.ScanTiesGoToLastCpu`).
- `walt_lb_find_busiest_cpu` sends a smaller destination to the lower-capacity
  scan and a bigger one to the higher-capacity scan. The comments above those
  scans say the opposite; `WaltLb.DispatchKind` follows the code.
- The rotation destination must be running a task that is NOT real-time
  (`prio >= MAX_RT_PRIO`), and so must the source.
- `walt_lb_find_busiest_cpu` on an empty mask returns -1 on every branch.

Three places in the source are defects (see "## Findings"). For each, the
model keeps the code as written in a separate member that exhibits the
defect. The whole-operation members use the corrected form:
`WaltCfs.FindBestTarget` (as called by `FindEnergyEfficientCpu`) starts the
most-spare search from the intended initial value; `MsmGemShrinker.Shrinker`'s
`TryLock`, `Count`, `Scan` and `VmapPurge` use the balanced `Lock`; and
`Echelon.Decide` and `Echelon.Governor.Func` use the wrap-free `StepLimit`.

## Model

| member | source | states |
|---|---|---|
| Walt.UclampTaskUtil | kernel/sched/walt/walt.h:684-689 | the task's utilisation clamped into its uclamp range: within [min, max] when the range is proper, unchanged when already inside it |
| Walt.CpuUtil | kernel/sched/walt/walt.h:504-510 | cpu_util is the cumulative runnable average capped at capacity_orig: never above either, and equal to one of them |
| Walt.CpuUtilCum | kernel/sched/walt/walt.h:512-523 | cpu_util_cum always lies in [0, capacity_orig]: it is min(delta + cum_window_demand, capacity) when that sum is a non-negative int, and 0 when the int sum wraps negative |
| Walt.AddCapacityMarginGrows | kernel/sched/walt/walt.h:527-535 | add_capacity_margin never returns less than the capacity it was given |
| Walt.AddCapacityMarginNoBoost | kernel/sched/walt/walt.h:527-535 | without load boost the margin is exactly capacity * 1280 / 1024 = capacity * 5 / 4 (integer division) |
| Walt.OverutilizedMonotone | kernel/sched/walt/walt.h:617-626 | __cpu_overutilized is monotone in delta: a CPU over-utilised with delta d1 is over-utilised with any larger delta |
| Walt.FitMargin | kernel/sched/walt/walt.h:807-822 | task_fits_capacity uses the destination's down margin when the task's CPU is bigger than the destination, and the task CPU's up margin otherwise |
| Walt.TaskFitsCapacityMonotone | kernel/sched/walt/walt.h:807-822 | a task that fits a capacity fits every larger capacity |
| Walt.TaskFitsMaxCases | kernel/sched/walt/walt.h:824-845 | task_fits_max is true on a max-capacity CPU; false on a min-capacity CPU for an ON_BIG-policy, boosted, uclamp-boosted or kick-upmigrate task; false on a mid CPU for boost above ON_MID; otherwise it requires task_fits_capacity |
| Walt.AsymCapSiblingGroupCases | kernel/sched/walt/walt.h:634-660 | false when the sibling mask is empty or holds dst; true when both siblings are active and run at most 2 CFS tasks together |
| Walt.MarkReservedFlags | kernel/sched/walt/walt.h:932-938 | setting CPU_RESERVED: the bit is set afterwards and every other bit of walt_flags is unchanged |
| Walt.ClearReservedFlags | kernel/sched/walt/walt.h:940-946 | clearing CPU_RESERVED: the bit is clear afterwards and every other bit is unchanged |
| Walt.FixedCumWindowDemand | kernel/sched/walt/walt.h:958-965 | walt_fixup_cum_window_demand never leaves the demand negative as s64: it is demand + delta when that is non-negative and 0 when it goes below zero |
| Walt.ExpireBoost | kernel/sched/walt/walt.h:697-709 | once the clock passes boost_expires of a timed boost, boost, boost_period and boost_expires are zeroed; otherwise the task is unchanged; no other field changes |
| Walt.ExpireBoostIdempotent | kernel/sched/walt/walt.h:697-709 | expiring twice equals expiring once, and the boost read afterwards is the boost per_task_boost returned |
| Walt.ExpireBoostUnobservable | kernel/sched/walt/walt.h:697-709 | the reset of an expired boost cannot be seen later: from then on per_task_boost returns the same value with or without the reset |
| Walt.Sched.MarkReserved | kernel/sched/walt/walt.h:932-938 | mark_reserved returns the previous value of the bit, sets it, and changes only that CPU's flags |
| Walt.Sched.ClearReserved | kernel/sched/walt/walt.h:940-946 | clear_reserved clears the bit of that CPU only |
| Walt.Sched.PerTaskBoost | kernel/sched/walt/walt.h:697-709 | per_task_boost writes the expired boost back to the task and returns the boost value in force at that time |
| Walt.Sched.FixupCumWindowDemand | kernel/sched/walt/walt.h:958-965 | the CPU's cum_window_demand becomes FixedCumWindowDemand of the old value; it stays below 2^63 |
| WaltLb.BestIn | kernel/sched/walt/walt_lb.c:315-340 | position of the busiest candidate: -1 iff no CPU of the mask passes the scan's filter; otherwise a candidate of maximal utilisation, with every later candidate strictly less utilised |
| WaltLb.TotalsBounds | kernel/sched/walt/walt_lb.c:343-401 | the running totals of the scans count at most one CPU per mask entry, and total util <= total capacity <= 1024 per counted CPU |
| WaltLb.ScanResult | kernel/sched/walt/walt_lb.c:315-463 | each scan returns -1 or a candidate of the mask with maximal utilisation. The similar scan is -1 iff there is no candidate. With rotation off, the higher-capacity scan only returns a CPU when the cluster is loaded (total_nr > total_cpus and util*1280 >= capacity*1024); the lower-capacity scan also returns one when the pick has big tasks |
| WaltLb.ScanTiesGoToLastCpu | kernel/sched/walt/walt_lb.c:331-334 | on a mask in CPU order, every higher-numbered candidate has strictly less utilisation than the pick: ties go to the last CPU |
| WaltLb.FindBusiestSimilarCapCpu | kernel/sched/walt/walt_lb.c:315-340 | the loop returns ScanResult for the similar-capacity filter (h_nr_running >= 2) |
| WaltLb.FindBusiestHigherCapCpu | kernel/sched/walt/walt_lb.c:343-401 | the loop returns ScanResult for the higher-capacity filter: active, >= 2 tasks, not 2 tasks with a current task below SMALL_TASK_THRESHOLD 102, over-utilised unless rotating; only active CPUs are totalled |
| WaltLb.FindBusiestLowerCapCpu | kernel/sched/walt/walt_lb.c:403-463 | the loop returns ScanResult for the lower-capacity filter: active, not active-balancing, >= 2 tasks or big tasks, over-utilised unless rotating; an active-balancing CPU still counts in the totals |
| WaltLb.DispatchKind | kernel/sched/walt/walt_lb.c:465-481 | the scan is chosen by comparing the destination's capacity with that of the mask's first CPU: equal gives similar, smaller gives lower, bigger gives higher |
| WaltLb.BusiestCpu | kernel/sched/walt/walt_lb.c:465-481 | the result is -1 or a CPU of the mask, and -1 for an empty mask |
| WaltLb.FindBusiestCpu | kernel/sched/walt/walt_lb.c:465-481 | the dispatch returns BusiestCpu |
| WaltLb.Restrict | kernel/sched/walt/walt_lb.c:643-644 | cpumask_and of the group span and env_cpus: exactly the common CPUs, still in CPU order |
| WaltLb.FindBusiestQueue | kernel/sched/walt/walt_lb.c:617-655 | done is always set; a same-cluster group yields its first CPU; otherwise the busiest CPU of group ∩ env_cpus, which is -1 or a CPU of both |
| WaltLb.Without | kernel/sched/walt/walt_lb.c:12-21 | removing a task from a run-queue list: the multiset loses every copy of it and keeps everything else |
| WaltLb.DetachAttachSameQueue | kernel/sched/walt/walt_lb.c:12-27 | detaching a task from a CPU and attaching it back keeps that CPU's queue as a multiset and its h_nr_running |
| WaltLb.MoveWellFormed | kernel/sched/walt/walt_lb.c:12-27 | detach, set_task_cpu and attach keep the records well formed |
| WaltLb.LastTaken | kernel/sched/walt/walt_lb.c:253-305 | the reverse walk over cfs_tasks stops at the last task it does not pass over; every task after it is passed over |
| WaltLb.PullScan | kernel/sched/walt/walt_lb.c:209-305 | the pull decision: none iff every queued task is disallowed, refused by _walt_can_migrate_task (push_task, iowait or strict-max RTG to a smaller CPU), or running without need_active_lb; a detached task is not the running one; an active balance is started only for the running misfit task towards a strictly bigger CPU not already active-balancing |
| WaltLb.ScanForPull | kernel/sched/walt/walt_lb.c:253-305 | the list walk returns PullScan |
| WaltLb.AfterPull | kernel/sched/walt/walt_lb.c:246-313 | the pull keeps the number of CPUs and tasks and never touches the destination's higher-class count |
| WaltLb.PullTasks | kernel/sched/walt/walt_lb.c:246-313 | walt_lb_pull_tasks leaves exactly the state and count of AfterPull |
| WaltLb.AfterPullWellFormed | kernel/sched/walt/walt_lb.c:246-313 | the pull keeps the records well formed |
| WaltLb.PullMovesAllowedTask | kernel/sched/walt/walt_lb.c:246-313 | the pull returns 1 iff it detached a non-running task; that task is now on dst, allowed there, at the head of dst's list and gone from src; with 0 no task changes queue or CPU (the boost reset of line 217 is left out, see below) |
| WaltLb.ArmWellFormed | kernel/sched/walt/walt_lb.c:287-299 | arming an active balance (active_balance, push_cpu, push_task, dst reserved) keeps the records well formed |
| WaltLb.ActiveMigration | kernel/sched/walt/walt_lb.c:29-80 | the stopper leaves exactly the state of AfterActiveMigration and reports whether it moved the task |
| WaltLb.AfterActiveMigrationWellFormed | kernel/sched/walt/walt_lb.c:29-80 | the stopper keeps the records well formed |
| WaltLb.ActiveMigrationOutcome | kernel/sched/walt/walt_lb.c:29-80 | on every path the busy CPU ends with active_balance clear and no push_task, and the target is unreserved; the task moves iff both CPUs are active, the stopper runs on the busy CPU, nr_running > 1 and the task is still queued and running there; when it moves it heads the target's list |
| WaltLb.DisarmWellFormed | kernel/sched/walt/walt_lb.c:68-79 | the stopper's out_unlock path keeps the records well formed |
| WaltLb.ActiveBalanceHandshake | kernel/sched/walt/walt_lb.c:29-80 | after walt_lb_pull_tasks arms an active balance, the stopper on src disarms it and releases dst. When both CPUs are active, src runs more than one task and the task is still queued and running on src, the task lands at the head of dst's list |
| WaltLb.MinCapPrefix | kernel/sched/walt/walt_lb.c:131-133 | the first rotation loop stops at the first CPU that is not of minimum capacity |
| WaltLb.FirstLongest | kernel/sched/walt/walt_lb.c:131-185 | the rotation scans pick the first eligible CPU with the strictly longest wait or run (> 0), or nr_cpu_ids when no eligible CPU has waited |
| WaltLb.FindDeservedCpu | kernel/sched/walt/walt_lb.c:131-150 | the first loop returns the min-capacity, non-reserved misfit CPU whose task waited longest |
| WaltLb.FindRotationDst | kernel/sched/walt/walt_lb.c:155-182 | the second loop returns the bigger, non-reserved CPU running a lone non-RT task for at least 16 ms whose run is longest |
| WaltLb.CheckForRotation | kernel/sched/walt/walt_lb.c:117-207 | a swap is queued iff RotationFires; then both CPUs are reserved and the work records both current tasks; otherwise nothing changes |
| WaltLb.ReserveBothWellFormed | kernel/sched/walt/walt_lb.c:193-194 | reserving both ends of a rotation keeps the records well formed |
| WaltLb.RotationReservesBoth | kernel/sched/walt/walt_lb.c:117-207 | a queued rotation pairs a min-capacity CPU with a different, bigger CPU; once both are reserved neither can be the source or destination of another rotation |
| WaltLb.RotateWorkFunc | kernel/sched/walt/walt_lb.c:92-104 | the rotation work leaves exactly the state of AfterRotateWork and is removed from the queued work |
| WaltLb.AfterRotateWorkWellFormed | kernel/sched/walt/walt_lb.c:92-104 | the swap and the releases keep the records well formed |
| WaltLb.RotateWorkReleases | kernel/sched/walt/walt_lb.c:92-104 | after the rotation work neither CPU is reserved; when the swap happened each task sits on the other's CPU, otherwise no task record changes |
| WaltLb.Tick | kernel/sched/walt/walt_lb.c:484-539 | no-op unless the running task is misfit and may run on more than one CPU. With rotation on it is CheckForRotation: when the rotation fires, both CPUs are reserved and the source CPU's rotate work records both running tasks and both CPUs. Otherwise it arms an active balance only towards a non-negative CPU of another cluster, never on a CPU already active-balancing, and it releases the reservation when the stopper cannot be queued |
| WaltLb.PushMisfit | kernel/sched/walt/walt_lb.c:512-533 | the arming tail of the tick: active_balance, push_cpu and push_task are set and the new CPU reserved; the reservation is cleared again when the stopper was not queued |
| WaltLb.NewidleSource | kernel/sched/walt/walt_lb.c:584-591 | the cluster walk's source is -1 or a CPU |
| WaltLb.ClusterScanInputs | kernel/sched/walt/walt_lb.c:585-586 | every cpu_array cluster mask is a valid input for the busiest-CPU scans |
| WaltLb.FindNewidleSource | kernel/sched/walt/walt_lb.c:584-591 | the do/while walk returns NewidleSource: the first cluster in this CPU's order that yields a busiest CPU, stopping early when this CPU already has tasks |
| WaltLb.NewidleFinish | kernel/sched/walt/walt_lb.c:594-614 | the sanity checks and the bookkeeping after the pull keep the number of CPUs and tasks |
| WaltLb.NewidleOutcome | kernel/sched/walt/walt_lb.c:594-614 | *pulled_task is -1 iff a higher-class task is queued, 1 iff CFS work is now queued here and no higher-class task, else 0; the idle stamp is reset iff the result is non-zero |
| WaltLb.NewidleFinishWellFormed | kernel/sched/walt/walt_lb.c:594-614 | the end of new-idle balance keeps the records well formed |
| WaltLb.NewidleBalance | kernel/sched/walt/walt_lb.c:541-615 | without cpu_array nothing changes; otherwise done is set, the misfit load cleared and the idle stamp set; an inactive CPU or a root domain without overload pulls nothing; otherwise the state is AfterNewidle |
| WaltLb.PullAndReport | kernel/sched/walt/walt_lb.c:594-614 | the end of new-idle balance leaves exactly the state and result of NewidleFinish |
| WaltLb.MigrateQueuedTask | kernel/sched/walt/walt_lb.c:657-676 | the task leaves the CPU's queue, its CPU becomes new_cpu, and *detached is 1 |
| WaltLb.NohzBalancerKick | kernel/sched/walt/walt_lb.c:686-699 | done is always set; the kick is requested iff the CPU runs at least 2 tasks and is over-utilised |
| WaltLb.CanMigrateTaskHook | kernel/sched/walt/walt_lb.c:701-712 | the hook only ever vetoes: the result is *can_migrate unless the task is the CPU's push_task, or it moves to a smaller CPU while in iowait or while strict-max boosted in a related thread group; these three vetoes are exactly the cases it clears |
| WaltCfs.PreferSpreadPolicyOrder | kernel/sched/walt/walt_cfs.c:27-41 | prefer_spread_on_idle: 1 means min-capacity CPUs, 2 always, 3 new_ilb on min-capacity, 4 new_ilb; any other value is false |
| WaltCfs.FitsMaxFitsDemand | kernel/sched/walt/walt_cfs.c:54-63 | task_demand_fits holds whenever task_fits_max does on a mid or min CPU |
| WaltCfs.CpuUtilWithout | kernel/sched/walt/walt_cfs.c:90-115 | at most capacity_orig and cpu_util; equal to cpu_util when the task is waking, on another CPU or new; otherwise cpu_util minus the task's demand, floored at 0 |
| WaltCfs.CpuUtilNextWalt | kernel/sched/walt/walt_cfs.c:421-460 | the projection is at most capacity_orig. The task's util is added only on the destination when it is not already counted there, and subtracted (floored) only from its own CPU when it leaves |
| WaltCfs.MigrationShiftsUtil | kernel/sched/walt/walt_cfs.c:421-460 | moving the task away never raises its CPU's projected utilisation, and moving it in never lowers the destination's |
| WaltCfs.FirstCpu | kernel/sched/walt/walt_cfs.c:153-187 | the first CPU of a cpu_array cluster is a CPU of that cluster |
| WaltCfs.GetIndices | kernel/sched/walt/walt_cfs.c:153-187 | both indices are 0 with at most one cluster. Boost above ON_MID gives the last cluster. Full-throttle boost gives the last cluster, with end_index 1 iff order_index > 1 and the task's demand fits the first CPU of that order's second cluster. Otherwise order_index is the first cluster from the start index where the demand fits, capped at the last |
| WaltCfs.MostSpareInitAsWritten | kernel/sched/walt/walt_cfs.c:207-226 | as written, the ULONG_MAX given to the `long` most_spare_wake_cap of a running task reads as -1 |
| WaltCfs.MostSpareAsWrittenAdmitsRunning | kernel/sched/walt/walt_cfs.c:225-281 | as written, any spare capacity beats that initial -1, so a running task still gets a most-spare CPU |
| WaltCfs.MostSpareInit | kernel/sched/walt/walt_cfs.c:225-226 | the intended initial value for a running task exceeds any CPU capacity; otherwise it is 0 |
| WaltCfs.MostSpareInitExcludesRunning | kernel/sched/walt/walt_cfs.c:225-281 | with the intended value no CPU's spare capacity ever beats it for a running task |
| WaltCfs.MaskOf | kernel/sched/walt/walt_cfs.c:409-417 | the candidates mask holds exactly the non-negative ones of target_cpu and best_idle_cpu, in CPU order |
| WaltCfs.FindBestTarget | kernel/sched/walt/walt_cfs.c:195-418 | the prev_cpu fast path is taken iff prev is idle, active, online and like the start CPU, and yields prev alone. Otherwise inactive, reserved, high-irqload and skip_cpu CPUs are never recorded as idle, target or most-spare, and a found idle CPU becomes the target. With the corrected initial most_spare_wake_cap (the form the model uses) a running task gets no most-spare CPU; with the value as written, a running task with an eligible CPU in the first cluster and no idle CPU is placed on the most-spare CPU |
| WaltCfs.FbtVisit | kernel/sched/walt/walt_cfs.c:242-380 | one CPU of the scan keeps every recorded CPU eligible for its role and a running task without a busy target; once a most-spare CPU is recorded it stays recorded; as written, an eligible CPU always gives a running task a most-spare CPU |
| WaltCfs.FbtSpare | kernel/sched/walt/walt_cfs.c:240-281 | the iteration goes on iff the CPU is allowed, active, not reserved, not under high IRQ load and not skip_cpu; with the corrected initial value no CPU becomes most-spare for a running task |
| WaltCfs.FbtPlace | kernel/sched/walt/walt_cfs.c:283-379 | on an eligible CPU only best_idle_cpu (an idle CPU) or target_cpu (a busy CPU, never for a running task) can change; the most-spare record is untouched |
| WaltCfs.SelectCpuSameEnergyCases | kernel/sched/walt/walt_cfs.c:516-535 | a strictly smaller candidate wins an energy tie; otherwise an incumbent prev_cpu or shallow-idle best is kept, and a win needs a shallow-idle candidate or a deep-idle best |
| WaltCfs.SelectByEnergy | kernel/sched/walt/walt_cfs.c:634-653 | the loop keeps prev_cpu at prev_delta or a candidate of least energy; no candidate other than prev has less energy than best_delta |
| WaltCfs.ChooseCpu | kernel/sched/walt/walt_cfs.c:606-667 | the result is prev_cpu or a candidate. When decided by energy, best_delta is the least candidate energy and prev_delta is prev's energy. A move away from prev that is not to a shallow-idle CPU saves more than prev_delta/16 whenever prev is no bigger than the start CPU |
| WaltCfs.FindEnergyEfficientCpu | kernel/sched/walt/walt_cfs.c:538-680 | a many-wakeup keeps an allowed prev_cpu; without cpu_array it returns -EPERM; a sync wake-up biased to this CPU returns it; the fast path returns prev; otherwise the candidate, energy and one-sixteenth rules of ChooseCpu hold |
| WaltCfs.SelectTaskRqFair | kernel/sched/walt/walt_cfs.c:683-692 | the target is always a CPU: prev_cpu when the search fails |
| WaltCfs.MisfitLoad | kernel/sched/walt/walt_cfs.c:710-730 | the misfit load is 0 iff there is no task or the task fits the CPU's max; otherwise it is at least task_h_load and at least 1 |
| WaltCfs.UpdateMisfitStatus | kernel/sched/walt/walt_cfs.c:710-730 | need_update is always false; the CPU's misfit_task_load becomes MisfitLoad and no other CPU field changes; the task's expired boost is reset as per_task_boost does inside task_fits_max (walt.h:828) |
| WaltCfs.BoostedVruntime | kernel/sched/walt/walt_cfs.c:737-757 | the boosted vruntime is a u64, exactly vruntime - latency - thresh when no wrap occurs |
| WaltCfs.BoostedVruntimeRoundTrip | kernel/sched/walt/walt_cfs.c:750-752 | adding the latency and the threshold back in u64 restores the original vruntime, wrapped or not |
| WaltCfs.PlaceEntity | kernel/sched/walt/walt_cfs.c:737-757 | a strict-max boosted, low-latency or RTG high-priority task has its vruntime moved back and stored in the entity; anything else is untouched |
| WaltRt.RtStep | kernel/sched/walt/walt_rt.c:30-77 | one CPU of the RT scan: only a qualifying CPU with util no higher than the best replaces it. A strictly lower util wins. On a tie the incumbent task CPU is kept, else the task's CPU wins, else the shallower idle state, then the smaller cumulative demand |
| WaltRt.RtScanClusterPicks | kernel/sched/walt/walt_rt.c:30-78 | a cluster scan keeps the caller's CPU or picks a qualifying CPU of lowest_mask and the cluster: active, no high IRQ load, not over-utilised with the task's util |
| WaltRt.RtScanClusterMinimal | kernel/sched/walt/walt_rt.c:44-46 | the pick has minimal util among the qualifying CPUs of the cluster |
| WaltRt.RtScanClusterKeepsTaskCpu | kernel/sched/walt/walt_rt.c:52-53 | once the task's own CPU holds the minimum, the scan keeps it |
| WaltRt.RtTaskCpuWinsTie | kernel/sched/walt/walt_rt.c:55-72 | a task CPU of minimal util wins over other CPUs of equal util |
| WaltRt.RtScanFromPicks | kernel/sched/walt/walt_rt.c:29-82 | the cluster walk returns the caller's CPU or a qualifying CPU of lowest_mask from one of the clusters visited |
| WaltRt.RtEnergyAwareWakeCpu | kernel/sched/walt/walt_rt.c:11-85 | with ret == 0 *best_cpu is unchanged; otherwise the nested loop returns the cluster walk, which stops after the first cluster that sets *best_cpu |
| QcVas.Complement | kernel/sched/walt/qc_vas.c:29-30 | cpumask_complement: exactly the CPUs below nr_cpu_ids that are not in the mask |
| QcVas.PauseCountBounds | kernel/sched/walt/qc_vas.c:26-39 | the count with offline CPUs is at least the count without and at most the mask's weight |
| QcVas.PauseCountAllOnline | kernel/sched/walt/qc_vas.c:26-39 | with every CPU of the mask online both counts agree |
| QcVas.PauseCountsOneMore | kernel/sched/walt/qc_vas.c:42-45 | pausing a pending-active CPU of the mask raises its paused count by one |
| QcVas.PauseState.PauseCount | kernel/sched/walt/qc_vas.c:16-40 | an empty pending mask is first replaced by the active mask; the result is the weight of mask minus pending, or of mask ∩ (offline ∪ not pending) |
| QcVas.PauseState.PausePending | kernel/sched/walt/qc_vas.c:42-45 | clears only that CPU's bit |
| QcVas.PauseState.UnpausePending | kernel/sched/walt/qc_vas.c:47-50 | sets only that CPU's bit |
| QcVas.PauseState.PauseThenUnpause | kernel/sched/walt/qc_vas.c:42-50 | unpausing after pausing restores the pending mask |
| MsmFence.TimelineCompletedWindow | drivers/gpu/drm/msm/msm_fence.c:47-50 | the wrap-aware test holds iff the value is ahead of the timeline by less than 2^31, or behind it by more than 2^31 |
| MsmFence.TimelineCompletedOrder | drivers/gpu/drm/msm/msm_fence.c:47-50 | every seqno has completed against itself, and two different seqnos not exactly 2^31 apart are never both completed against each other |
| MsmFence.FenceContext.constructor | drivers/gpu/drm/msm/msm_fence.c:23-40 | a fresh context starts with timeline_value 0 and last_fence 0 |
| MsmFence.FenceContext.WaitTimelineNoWait | drivers/gpu/drm/msm/msm_fence.c:53-66 | -EINVAL iff the timeline is beyond timeline_value; otherwise 0 iff completed and -EBUSY iff not |
| MsmFence.FenceContext.UpdateTimeline | drivers/gpu/drm/msm/msm_fence.c:92-99 | timeline_value becomes max(old, timeline): never decreases and reaches the timeline |
| MsmFence.UpdateSignals | drivers/gpu/drm/msm/msm_fence.c:92-131 | for u32 values where the new value is at most the old timeline or less than 2^31 ahead of it, the updated timeline counts as completed |
| MsmFence.FenceContext.FenceAlloc | drivers/gpu/drm/msm/msm_fence.c:142-157 | a failed kzalloc returns -ENOMEM and leaves last_fence unchanged; otherwise the fence gets seqno ++last_fence in u32 |
| MsmFence.NextSeqnoIsLater | drivers/gpu/drm/msm/msm_fence.c:127-154 | the next seqno is not yet signalled when the timeline holds the previous one, and signalling it signals the previous one: seqnos increase in the wrap-aware order |
| MsmGemShrinker.TotalPurgeableAppend | drivers/gpu/drm/msm/msm_gem_shrinker.c:42-45 | the purgeable page count splits over concatenation |
| MsmGemShrinker.Purge | drivers/gpu/drm/msm/msm_gem_shrinker.c:67 | a purged object keeps its size and is neither purgeable nor vunmapable |
| MsmGemShrinker.Vunmap | drivers/gpu/drm/msm/msm_gem_shrinker.c:96 | an unmapped object keeps size and purgeability and is no longer vunmapable |
| MsmGemShrinker.ScanStopIsFirst | drivers/gpu/drm/msm/msm_gem_shrinker.c:64-71 | the scan stops at the first prefix whose purgeable pages reach nr_to_scan, or at the end of the list |
| MsmGemShrinker.PurgePrefix | drivers/gpu/drm/msm/msm_gem_shrinker.c:64-71 | exactly the purgeable objects before the stop are purged, in list order; nothing else changes |
| MsmGemShrinker.VmapStopBound | drivers/gpu/drm/msm/msm_gem_shrinker.c:93-100 | the vmap walk unmaps at most 15 objects, and fewer only when it reached the end of the list |
| MsmGemShrinker.VunmapPrefix | drivers/gpu/drm/msm/msm_gem_shrinker.c:93-100 | exactly the vunmapable objects before the stop are unmapped |
| MsmGemShrinker.PurgePrefixTotal | drivers/gpu/drm/msm/msm_gem_shrinker.c:64-79 | the purgeable pages left plus the pages freed equal the pages purgeable before |
| MsmGemShrinker.VunmapPrefixCount | drivers/gpu/drm/msm/msm_gem_shrinker.c:93-105 | the vunmapable objects left plus those unmapped equal those vunmapable before |
| MsmGemShrinker.VunmapBatch | drivers/gpu/drm/msm/msm_gem_shrinker.c:93-100 | the loop with its early break leaves VunmapPrefix at VmapStop and counts the objects unmapped |
| MsmGemShrinker.LockAsWrittenReleasesCallersLock | drivers/gpu/drm/msm/msm_gem_shrinker.c:21-29 | as written, the recursive case succeeds with unlock = true, so the caller's unlock frees the mutex its outer frame still holds |
| MsmGemShrinker.Lock | drivers/gpu/drm/msm/msm_gem_shrinker.c:21-29 | the lock succeeds iff the mutex is not held by another owner; unlock is reported iff this call took it; afterwards it is held by the caller |
| MsmGemShrinker.LockBalanced | drivers/gpu/drm/msm/msm_gem_shrinker.c:21-29 | lock followed by the conditional unlock leaves the mutex as it was, in every state |
| MsmGemShrinker.Shrinker.TryLock | drivers/gpu/drm/msm/msm_gem_shrinker.c:21-29 | the trylock reports and performs the corrected Lock (see Findings): the recursive case does not ask the caller to unlock |
| MsmGemShrinker.Shrinker.Count | drivers/gpu/drm/msm/msm_gem_shrinker.c:31-51 | 0 when the lock fails, otherwise the sum of size >> PAGE_SHIFT over the purgeable inactive objects; the mutex is as before (with the corrected Lock) |
| MsmGemShrinker.Shrinker.Scan | drivers/gpu/drm/msm/msm_gem_shrinker.c:53-80 | SHRINK_STOP and no change when the lock fails; otherwise the list is PurgePrefix at ScanStop and freed is the pages purged (with the corrected Lock) |
| MsmGemShrinker.Shrinker.VmapPurge | drivers/gpu/drm/msm/msm_gem_shrinker.c:82-111 | NOTIFY_DONE always; *ptr untouched when the lock fails; otherwise at most 15 objects are unmapped and *ptr grows by exactly that number (u64) (with the corrected Lock) |
| MsmGemShrinker.ScanBudgetCases | drivers/gpu/drm/msm/msm_gem_shrinker.c:64-71 | a budget above everything purgeable purges every purgeable object; a zero budget purges nothing |
| MsmGemShrinker.ScanOvershootsByOneObject | drivers/gpu/drm/msm/msm_gem_shrinker.c:64-71 | the scan frees less than nr_to_scan before its last object, so it overshoots by at most one object |
| MsmGemShrinker.ScanReducesCount | drivers/gpu/drm/msm/msm_gem_shrinker.c:31-80 | after a scan, count drops by exactly what scan reports freed |
| MsmGemShrinker.VmapUnmapsAtMostBatch | drivers/gpu/drm/msm/msm_gem_shrinker.c:93-105 | the vunmapable count drops by at most 15 |
| GpuBwMon.FreqLevelIsFirst | drivers/devfreq/governor_gpubw_mon.c:43-53 | -EINVAL iff the frequency is not in the table; otherwise the first index holding it |
| GpuBwMon.GetFreqLevel | drivers/devfreq/governor_gpubw_mon.c:43-53 | the loop returns FreqLevel |
| GpuBwMon.CutoffBounds | drivers/devfreq/governor_gpubw_mon.c:38-39 | while p * norm_max fits in 32 bits, a percentage in [0, 100] gives a cut-off of at most norm_max and 100 gives norm_max; a negative percentage wraps to (2^32 + p * norm_max) / 100 |
| GpuBwMon.NegativePercentCutoff | drivers/devfreq/governor_gpubw_mon.c:38-39 | -5 percent of 100 gives a cut-off of 42949667, not -5 |
| GpuBwMon.CutoffMonotone | drivers/devfreq/governor_gpubw_mon.c:38-39 | cut-offs are monotone in non-negative percentages while the larger product fits in 32 bits |
| GpuBwMon.HysteresisBand | drivers/devfreq/governor_gpubw_mon.c:221-231 | with non-decreasing ib, each level's down threshold lies strictly below its up threshold, and the top up threshold is 100 |
| GpuBwMon.DownFollowsUpBelow | drivers/devfreq/governor_gpubw_mon.c:227-231 | p_down[i] is the level below's p_up minus HIST |
| GpuBwMon.FillPercentTables | drivers/devfreq/governor_gpubw_mon.c:221-234 | the loop fills p_up and p_down with PUpOf/PDownOf at every level |
| GpuBwMon.BusMon.UpdateCutoff | drivers/devfreq/governor_gpubw_mon.c:31-41 | bus.max = norm_max and up[i], down[i] = p_up[i], p_down[i] * norm_max / 100 for every level, the product taken in u32 |
| GpuBwMon.BusMon.Start | drivers/devfreq/governor_gpubw_mon.c:199-240 | -ENOMEM and no change when allocation fails; otherwise p_up[num-1] = 100, p_down[0] = 0, p_down[1] >= 2*HIST, the cut-offs installed (up[num-1] = max when 100 * max fits in 32 bits), sampling_ms = LONG_FLOOR and the accumulators unchanged |
| GpuBwMon.WaitActivePercentCases | drivers/devfreq/governor_gpubw_mon.c:152-154 | 0 without RAM wait, 100 without RAM time, else 100*wait/time |
| GpuBwMon.GpuPercentBounded | drivers/devfreq/governor_gpubw_mon.c:156 | the GPU busy percentage is at most 100 |
| GpuBwMon.NextSampling | drivers/devfreq/governor_gpubw_mon.c:158-162 | 10 ms above 90 % GPU load, 50 ms below 20 %, unchanged in between |
| GpuBwMon.ActLevel | drivers/devfreq/governor_gpubw_mon.c:168-170 | act_level is clamped into [0, num-1] |
| GpuBwMon.HintAfter | drivers/devfreq/governor_gpubw_mon.c:164-179 | a new fast hint needs GPU load above the cap; a new slow hint needs a non-zero level and cycles below the down threshold; high load with cycles above up always gives fast |
| GpuBwMon.RoundUpStepIsLeastMultiple | drivers/devfreq/governor_gpubw_mon.c:181-184 | the rounded vote is the least multiple of 160 not below its input |
| GpuBwMon.BwVoteIsStepped | drivers/devfreq/governor_gpubw_mon.c:181-184 | ab_mbytes is a multiple of 160 and at least the raw bandwidth |
| GpuBwMon.PercentAbBounded | drivers/devfreq/governor_gpubw_mon.c:185-189 | the ab percentage is at most 100, and exactly 100 at norm_ab_max |
| GpuBwMon.BusMon.ChooseHint | drivers/devfreq/governor_gpubw_mon.c:164-179 | a floating bus that must rise gets the fast hint; otherwise the hint of HintAfter against the clamped level's thresholds |
| GpuBwMon.BusMon.Vote | drivers/devfreq/governor_gpubw_mon.c:181-190 | the vote obeys VoteOutcome and norm_ab_max stays positive |
| GpuBwMon.BusMon.DecideWindow | drivers/devfreq/governor_gpubw_mon.c:149-190 | a closed window yields NextSampling, the HintOutcome hint and the VoteOutcome vote |
| GpuBwMon.BusMon.CloseWindow | drivers/devfreq/governor_gpubw_mon.c:149-194 | closing a window resets all four accumulators to 0 and installs the sampling interval, hint and vote |
| GpuBwMon.BusMon.GetTarget | drivers/devfreq/governor_gpubw_mon.c:111-197 | before start the frequency passes through and nothing changes; afterwards, below the sampling window the accumulators only grow, and at its end the window is closed |
| GpuBwMon.BusMon.Suspend | drivers/devfreq/governor_gpubw_mon.c:279-287 | a started governor zeroes total, GPU and RAM time; ram_wait is kept |
| Echelon.Effective | drivers/devfreq/governor_echelon.c:47-73 | non-zero tunables override the defaults 85/30/50/2; every effective tunable is positive |
| Echelon.Ceiling | drivers/devfreq/governor_echelon.c:43 | max_freq, or UINT_MAX when it is 0 |
| Echelon.LoadTestsExact | drivers/devfreq/governor_echelon.c:76-96 | for a threshold of at most 128 and a sample the overflow guard has reduced, the u64 load tests are exact: busy*100 vs total*threshold never wraps |
| Echelon.Clamp | drivers/devfreq/governor_echelon.c:115-118 | with min <= max the frequency ends in [min, max], unchanged when inside, at the violated bound otherwise; with min > max it ends at max |
| Echelon.StepLimit | drivers/devfreq/governor_echelon.c:121-125 | the intended limiter: the frequency stays within step of current_frequency, set exactly step away when further |
| Echelon.StepLimitWithinStep | drivers/devfreq/governor_echelon.c:121-125 | the frequency is left alone iff it is within step of current_frequency; otherwise it ends exactly step away, on its side |
| Echelon.StepLimitAsWrittenAgrees | drivers/devfreq/governor_echelon.c:121-125 | the code as written agrees with the intended limiter whenever *freq >= step and no sum overflows |
| Echelon.StepLimitAsWrittenMovesNearFrequency | drivers/devfreq/governor_echelon.c:121-125 | as written, *freq = 1, current_frequency = 2, step = 2 gives 4 where the intended limiter leaves 1 |
| Echelon.Predicted | drivers/devfreq/governor_echelon.c:88-96 | high load predicts max, low load min + downscale_factor (u64), otherwise the incoming frequency |
| Echelon.HysteresisStep | drivers/devfreq/governor_echelon.c:99-112 | a flag that is set holds the frequency at its bound and suppresses a repeat; a high load not yet flagged drives to max and sets scaling_up; a low load not yet flagged drives to min + factor and sets scaling_down |
| Echelon.HysteresisKeepsPrediction | drivers/devfreq/governor_echelon.c:88-112 | with no load test firing both ways, the hysteresis keeps the predicted frequency |
| Echelon.ThresholdsExclusive | drivers/devfreq/governor_echelon.c:88-92 | with down <= up the two load tests never both fire |
| Echelon.DevStatus.GuardOverflow | drivers/devfreq/governor_echelon.c:76-79 | a sample with either field at or above 2^24 is shifted right by 7 in both fields, otherwise left; afterwards both fields are below 2^24, or both are below 2^64 / 128 |
| Echelon.OutcomeInRange | drivers/devfreq/governor_echelon.c:115-138 | with current_frequency in [min, max], the final frequency is in [min, max] |
| Echelon.Decide | drivers/devfreq/governor_echelon.c:88-138 | the prediction, hysteresis, clamp, step limit and thermal override give Outcome: above 80000 millicelsius the frequency is min (with the corrected StepLimit) |
| Echelon.Governor.Func | drivers/devfreq/governor_echelon.c:38-145 | an update_stats error is returned with nothing changed; otherwise 0, the overflow guard applied, total_time 0 gives the ceiling with the flags unchanged, and any other sample gives Decide's frequency and flags (with the corrected StepLimit) |

## Left out

- Locking and concurrency: rq locks, `double_lock_balance`, `walt_lb_migration_lock`, RCU and the fence spinlock are atomic steps. The stopper (`stop_one_cpu_nowait`) and the rotation worker (`queue_work_on`) are methods called separately on recorded state; whether the stopper could be queued is the `stopperQueued` parameter.
- Generic scheduler primitives: `activate_task`/`deactivate_task`, `set_task_cpu`, `check_preempt_curr`, `migrate_swap` and task reference counting. Queue moves are abstract list updates: detaching removes every copy of the task, attaching prepends it. `wake_up_if_idle` is not modelled.
- Clocks, the energy model and platform queries are inputs: `sched_clock()` and `rq_clock()` (`now`, `clock`), `walt_compute_energy` (`energy[cpu]`), `task_h_load` (`hLoad`), idle-state queries, `available_idle_cpu` and IRQ load.
- WaltLb.Tick: the CPU that `walt_find_energy_efficient_cpu(p, prev_cpu, 0, 1)` returns is the `newCpu` parameter, not a call into WaltCfs.
- Task boost policy, uclamp boost and the CPU-independent part of `walt_should_kick_upmigrate` are fields of the task record.
- WaltCfs.PlaceEntity and WaltCfs.FindEnergyEfficientCpu read `per_task_boost` through `BoostAt`. They do not write the expired boost back to the task as `per_task_boost` does; Walt.Sched.PerTaskBoost models that write.
- WaltCfs.FindBestTarget: the `per_task_boost` read of each candidate CPU's current task (walt_cfs.c:283) uses `BoostAt` and does not write the reset back.
- WaltLb.PullTasks: `_walt_can_migrate_task` calls `per_task_boost` (walt_lb.c:217) for each task it examines towards a smaller CPU; the model reads the value with `BoostAt` and leaves the task's expired boost fields as they were. Walt.ExpireBoostUnobservable shows that no later boost read can tell the difference.
- WaltLb.PullMovesAllowedTask: "no task record changes" on a result of 0 leaves out the same boost reset.
- WaltLb.CanMigrateTaskHook: a function of the task records; it leaves out the same boost reset at walt_lb.c:217.
- Tracepoints, logging (`pr_debug`, `pr_info`, `DRM_ERROR`), hook and governor registration (`walt_lb_init`, `walt_cfs_init`, `walt_rt_init`, `walt_lb_rotate_work_init`, `msm_gem_shrinker_init`/`cleanup`, the governor init/exit functions), and `walt_debug.c`.
- `walt_binder_low_latency_set`/`clear` in walt_cfs.c: binder transaction hooks outside the placement path.
- msm_fence.c: blocking waits with a timeout, `dma_fence` initialisation, and the context name/allocation failure of `msm_fence_context_alloc`.
- msm_gem.h and msm_gem.c are not part of this model. A GEM object is its size and two flags standing for `is_purgeable` and `is_vunmapable`.
- MsmGemShrinker.Shrinker.Count: the u64 sum is not wrapped; page counts are unbounded integers.
- MsmGemShrinker.Shrinker.Scan: `freed` is not wrapped at 64 bits.
- GpuBwMon: msm_adreno_devfreq.h is not part of this model. Apart from the u32 product of `_update_cutoff` (its `norm_max` is an `unsigned int`), field widths and C's usual arithmetic conversions are not reproduced; the other arithmetic uses unbounded integers with C's truncating division.
- GpuBwMon.BusMon.Start: `up[num-1] == max` is promised only when `100 * max` fits in 32 bits; beyond that the u32 product wraps.
- GpuBwMon.BusMon.constructor: it requires at least one bus level (`num >= 1`) and a non-zero top level bandwidth, which the device tree provides.
- GpuBwMon.BusMon.Start: with a single bus level the code's write to `p_down[1]` lands out of bounds; the model drops that write.
- GpuBwMon.BusMon.GetTarget: the value of `index[-EINVAL]`, read when the frequency is not in the table, is the `strayIndex` parameter. `devfreq_update_stats`' result is the `result` parameter.
- GpuBwMon: `norm_ab_max` is a static shared by all devices; the model keeps it per instance. The u64 wrap of the accumulators is not modelled.
- GpuBwMon: the sysfs attributes (`cur_ab`, `sampling_interval` show/store) are left out. A stored zero interval would make the next window divide by zero.
- GpuBwMon.BusMon.Start: the `kzalloc` failure is the `allocOk` parameter.
- Echelon: the thermal zone lookup and reading are the `thermal` parameter. `devfreq_update_stats`' result is `updateErr`.
- Echelon: the static `scaling_up`/`scaling_down` flags are one `Governor` object; the kernel shares them across every device using the governor.
- Echelon: the event handler only forwards to devfreq's monitor start/stop/interval/suspend/resume and is not modelled.

## Findings

| source | as written | input that shows it | evidently intended | confidence | as-written member | corrected member |
|---|---|---|---|---|---|---|
| kernel/sched/walt/walt_cfs.c:207-226 | `most_spare_wake_cap` is a `long`; assigning `ULONG_MAX` for a running task stores -1, so the first eligible CPU with any spare capacity becomes `most_spare_cap_cpu`; WaltCfs.FindBestTarget run with the value as written then places a running task with no idle CPU on it | a running task (`p->state == TASK_RUNNING`) and an eligible CPU with spare capacity 0 | no CPU is chosen by spare capacity for a running task, since no spare capacity can beat the initial value | medium, not executed | WaltCfs.MostSpareAsWrittenAdmitsRunning | WaltCfs.MostSpareInitExcludesRunning |
| drivers/devfreq/governor_echelon.c:121-125 | `*freq - max_scale_step` and `*freq + max_scale_step` are unsigned long; when `*freq < max_scale_step` the difference wraps and the second branch fires | `*freq = 1`, `current_frequency = 2`, `max_scale_step = 2`: result 4 | the frequency already within the step of the current one is left alone (result 1) | high, not executed | Echelon.StepLimitAsWrittenMovesNearFrequency | Echelon.StepLimitWithinStep |
| drivers/gpu/drm/msm/msm_gem_shrinker.c:21-29 | the recursive trylock case (`MUTEX_TRYLOCK_RECURSIVE`) also sets `*unlock = true` | the shrinker entered while the current task already holds `struct_mutex` | `*unlock = false` in the recursive case, so the caller does not release the outer frame's lock | high, not executed | MsmGemShrinker.LockAsWrittenReleasesCallersLock | MsmGemShrinker.LockBalanced |
