/**
 * drivers/gpu/drm/msm/msm_gem_shrinker.c: the msm GEM memory shrinker and
 * vmap-purge notifier.  Under dev->struct_mutex, taken by a recursive
 * trylock, `count` sums the pages of the purgeable objects on the inactive
 * list, `scan` purges purgeable objects in list order until it has freed
 * the requested number of pages, and `vmap` drops the kernel mappings of
 * at most 15 objects and adds their number to the caller's counter.
 *
 * msm_gem.h and msm_gem.c are not part of this model: an object is its
 * size and two flags standing for is_purgeable and is_vunmapable; purging
 * an object clears both (its pages and mapping are gone) and unmapping it
 * clears the second.
 */
module MsmGemShrinker {
  import opened Machine

  const PAGE_SHIFT: nat := 12
  const PAGE_SIZE: nat := 4096
  /** SHRINK_STOP: ~0UL. */
  const SHRINK_STOP: nat := ULONG_MAX
  const NOTIFY_DONE: int := 0
  /** The vmap notifier unmaps at most this many objects per call. */
  const VMAP_BATCH: nat := 15

  datatype GemObject = GemObject(size: nat, purgeable: bool, vunmapable: bool)

  /** `size >> PAGE_SHIFT` */
  function Pages(o: GemObject): nat
  {
    o.size / PAGE_SIZE
  }

  /** The pages an object contributes to the shrinker: none unless it is purgeable. */
  function PurgeablePages(o: GemObject): nat
  {
    if o.purgeable then Pages(o) else 0
  }

  /** The purgeable pages of a list, summed over it. */
  function TotalPurgeable(s: seq<GemObject>): nat
  {
    if s == [] then 0 else TotalPurgeable(s[..|s| - 1]) + PurgeablePages(s[|s| - 1])
  }

  /** The number of vunmapable objects of a list. */
  function CountVunmapable(s: seq<GemObject>): nat
  {
    if s == [] then 0 else CountVunmapable(s[..|s| - 1]) + (if s[|s| - 1].vunmapable then 1 else 0)
  }

  /** The sums are additive over concatenation. */
  lemma {:induction false} TotalPurgeableAppend(a: seq<GemObject>, b: seq<GemObject>)
    ensures TotalPurgeable(a + b) == TotalPurgeable(a) + TotalPurgeable(b)
    decreases |b|
  {
    if b == [] {
      assert a + b == a;
    } else {
      assert (a + b)[..|a + b| - 1] == a + b[..|b| - 1];
      TotalPurgeableAppend(a, b[..|b| - 1]);
    }
  }

  /** msm_gem_purge: the object loses its pages and its mapping. */
  function Purge(o: GemObject): (r: GemObject)
    ensures r.size == o.size && !r.purgeable && !r.vunmapable
  {
    o.(purgeable := false, vunmapable := false)
  }

  /** msm_gem_vunmap: the object loses its kernel mapping. */
  function Vunmap(o: GemObject): (r: GemObject)
    ensures r.size == o.size && r.purgeable == o.purgeable && !r.vunmapable
  {
    o.(vunmapable := false)
  }

  /**
   * Where scan stops: the first position, from `i` on, at which the pages
   * freed by purging the purgeable objects before it reach `nrToScan`, or
   * the end of the list.
   */
  function ScanStopFrom(s: seq<GemObject>, nrToScan: nat, i: nat): (k: nat)
    requires i <= |s|
    ensures i <= k <= |s|
    decreases |s| - i
  {
    if i == |s| || TotalPurgeable(s[..i]) >= nrToScan then i else ScanStopFrom(s, nrToScan, i + 1)
  }

  function ScanStop(s: seq<GemObject>, nrToScan: nat): (k: nat)
    ensures k <= |s|
  {
    ScanStopFrom(s, nrToScan, 0)
  }

  /**
   * The stop is the first position whose prefix frees enough, or the end
   * of the list when no prefix does.
   */
  lemma {:induction false} ScanStopFromIsFirst(s: seq<GemObject>, nrToScan: nat, i: nat)
    requires i <= |s|
    requires forall j :: 0 <= j < i ==> TotalPurgeable(s[..j]) < nrToScan
    ensures var k := ScanStopFrom(s, nrToScan, i);
      (k == |s| || TotalPurgeable(s[..k]) >= nrToScan)
      && forall j :: 0 <= j < k ==> TotalPurgeable(s[..j]) < nrToScan
    decreases |s| - i
  {
    if i < |s| && TotalPurgeable(s[..i]) < nrToScan {
      ScanStopFromIsFirst(s, nrToScan, i + 1);
    }
  }

  lemma ScanStopIsFirst(s: seq<GemObject>, nrToScan: nat)
    ensures var k := ScanStop(s, nrToScan);
      (k == |s| || TotalPurgeable(s[..k]) >= nrToScan)
      && forall j :: 0 <= j < k ==> TotalPurgeable(s[..j]) < nrToScan
  {
    ScanStopFromIsFirst(s, nrToScan, 0);
  }

  /** The list after purging the purgeable objects before position `k`. */
  function PurgePrefix(s: seq<GemObject>, k: nat): (r: seq<GemObject>)
    requires k <= |s|
    ensures |r| == |s|
    ensures forall i :: 0 <= i < |s| ==> r[i] == (if i < k && s[i].purgeable then Purge(s[i]) else s[i])
  {
    seq(|s|, i requires 0 <= i < |s| => if i < k && s[i].purgeable then Purge(s[i]) else s[i])
  }

  /**
   * Where vmap stops: just after the object that brings the number of
   * vunmapable objects seen to 15, or the end of the list.
   */
  function VmapStopFrom(s: seq<GemObject>, i: nat): (k: nat)
    requires i <= |s|
    ensures i <= k <= |s|
    decreases |s| - i
  {
    if i == |s| || CountVunmapable(s[..i]) >= VMAP_BATCH then i else VmapStopFrom(s, i + 1)
  }

  function VmapStop(s: seq<GemObject>): (k: nat)
    ensures k <= |s|
  {
    VmapStopFrom(s, 0)
  }

  /** vmap stops at the first prefix holding 15 vunmapable objects, so it never unmaps more. */
  lemma {:induction false} VmapStopFromBound(s: seq<GemObject>, i: nat)
    requires i <= |s| && CountVunmapable(s[..i]) <= VMAP_BATCH
    ensures var k := VmapStopFrom(s, i);
      CountVunmapable(s[..k]) <= VMAP_BATCH
      && (k == |s| || CountVunmapable(s[..k]) == VMAP_BATCH)
    decreases |s| - i
  {
    if i < |s| && CountVunmapable(s[..i]) < VMAP_BATCH {
      assert s[..i + 1][..i] == s[..i];
      VmapStopFromBound(s, i + 1);
    }
  }

  lemma VmapStopBound(s: seq<GemObject>)
    ensures CountVunmapable(s[..VmapStop(s)]) <= VMAP_BATCH
    ensures VmapStop(s) == |s| || CountVunmapable(s[..VmapStop(s)]) == VMAP_BATCH
  {
    assert s[..0] == [];
    VmapStopFromBound(s, 0);
  }

  /** The list after unmapping the vunmapable objects before position `k`. */
  function VunmapPrefix(s: seq<GemObject>, k: nat): (r: seq<GemObject>)
    requires k <= |s|
    ensures |r| == |s|
    ensures forall i :: 0 <= i < |s| ==> r[i] == (if i < k && s[i].vunmapable then Vunmap(s[i]) else s[i])
  {
    seq(|s|, i requires 0 <= i < |s| => if i < k && s[i].vunmapable then Vunmap(s[i]) else s[i])
  }

  /**
   * Purging the purgeable objects of a prefix takes exactly their pages off
   * what the next count reports.
   */
  lemma {:induction false} PurgePrefixTotal(s: seq<GemObject>, k: nat)
    requires k <= |s|
    ensures TotalPurgeable(PurgePrefix(s, k)) + TotalPurgeable(s[..k]) == TotalPurgeable(s)
    decreases |s|
  {
    if s != [] {
      var n := |s| - 1;
      var r := PurgePrefix(s, k);
      if k == |s| {
        assert s[..k] == s;
        PurgePrefixTotal(s[..n], n);
        assert PurgePrefix(s[..n], n) == r[..n];
        assert s[..n][..n] == s[..n];
      } else {
        PurgePrefixTotal(s[..n], k);
        assert PurgePrefix(s[..n], k) == r[..n];
        assert s[..n][..k] == s[..k];
      }
    }
  }

  /** Likewise, unmapping a prefix takes exactly its vunmapable objects off the count. */
  lemma {:induction false} VunmapPrefixCount(s: seq<GemObject>, k: nat)
    requires k <= |s|
    ensures CountVunmapable(VunmapPrefix(s, k)) + CountVunmapable(s[..k]) == CountVunmapable(s)
    decreases |s|
  {
    if s != [] {
      var n := |s| - 1;
      var r := VunmapPrefix(s, k);
      if k == |s| {
        assert s[..k] == s;
        VunmapPrefixCount(s[..n], n);
        assert VunmapPrefix(s[..n], n) == r[..n];
        assert s[..n][..n] == s[..n];
      } else {
        VunmapPrefixCount(s[..n], k);
        assert VunmapPrefix(s[..n], k) == r[..n];
        assert s[..n][..k] == s[..k];
      }
    }
  }

  /**
   * The list walk of msm_gem_shrinker_vmap: unmap vunmapable objects in
   * list order, stopping after the 15th.
   */
  method VunmapBatch(s: seq<GemObject>) returns (r: seq<GemObject>, unmapped: nat)
    ensures r == VunmapPrefix(s, VmapStop(s))
    ensures unmapped == CountVunmapable(s[..VmapStop(s)])
  {
    r := s;
    unmapped := 0;
    var i := 0;
    while i < |r|
      invariant 0 <= i <= |s| && |r| == |s|
      invariant r == VunmapPrefix(s, i)
      invariant unmapped == CountVunmapable(s[..i])
      invariant VmapStopFrom(s, i) == VmapStop(s)
      invariant unmapped < VMAP_BATCH
    {
      assert s[..i + 1][..i] == s[..i];
      if r[i].vunmapable {
        r := r[i := Vunmap(r[i])];
        unmapped := unmapped + 1;
        if unmapped >= VMAP_BATCH {
          i := i + 1;
          assert VmapStopFrom(s, i) == i;
          return;
        }
      }
      i := i + 1;
    }
  }

  /** The owner of dev->struct_mutex as seen from the shrinker's task. */
  datatype MutexState = Free | HeldBySelf | HeldByOther

  /** What the lock helper returns: whether to go on, and whether to unlock at the end. */
  datatype LockResult = LockResult(ok: bool, unlock: bool, after: MutexState)

  /** mutex_trylock_recursive followed by the lock helper as written: `unlock` is set on every success. */
  function LockAsWritten(m: MutexState): LockResult
  {
    match m
    case HeldByOther => LockResult(false, false, m)
    case Free => LockResult(true, true, HeldBySelf)
    case HeldBySelf => LockResult(true, true, HeldBySelf)
  }

  /** The lock helper as intended: only a lock actually taken here is to be released. */
  function Lock(m: MutexState): (r: LockResult)
    ensures r.ok <==> m != HeldByOther
    ensures r.unlock <==> m == Free
    ensures r.ok ==> r.after == HeldBySelf
    ensures !r.ok ==> r.after == m
  {
    match m
    case HeldByOther => LockResult(false, false, m)
    case Free => LockResult(true, true, HeldBySelf)
    case HeldBySelf => LockResult(true, false, HeldBySelf)
  }

  /** The mutex state at the end of a shrinker call: released when the helper said so. */
  function Release(r: LockResult): MutexState
  {
    if r.unlock then Free else r.after
  }

  /** With the intended helper every shrinker call leaves the mutex as it found it. */
  lemma LockBalanced(m: MutexState)
    ensures Release(Lock(m)) == m
  {
  }

  /**
   * As written, a shrinker call made while this task already holds
   * struct_mutex (the recursive case) releases the caller's lock.
   */
  lemma LockAsWrittenReleasesCallersLock()
    ensures LockAsWritten(HeldBySelf).ok && LockAsWritten(HeldBySelf).unlock
    ensures Release(LockAsWritten(HeldBySelf)) == Free
    ensures Release(Lock(HeldBySelf)) == HeldBySelf
  {
  }

  /** The driver's inactive list and the state of its struct_mutex. */
  class Shrinker {
    var inactive: seq<GemObject>
    var mutex: MutexState

    constructor (inactive: seq<GemObject>, mutex: MutexState)
      ensures this.inactive == inactive && this.mutex == mutex
    {
      this.inactive := inactive;
      this.mutex := mutex;
    }

    /** msm_gem_shrinker_lock (intended form): take the mutex unless another task holds it. */
    method TryLock() returns (ok: bool, unlock: bool)
      modifies this`mutex
      ensures ok == Lock(old(mutex)).ok && unlock == Lock(old(mutex)).unlock
      ensures mutex == Lock(old(mutex)).after
    {
      var r := Lock(mutex);
      ok, unlock := r.ok, r.unlock;
      mutex := r.after;
    }

    /** mutex_unlock(&dev->struct_mutex) */
    method Unlock()
      modifies this`mutex
      ensures mutex == Free
    {
      mutex := Free;
    }

    /** msm_gem_shrinker_count */
    method Count() returns (count: nat)
      modifies this`mutex
      ensures mutex == old(mutex)
      ensures old(mutex) == HeldByOther ==> count == 0
      ensures old(mutex) != HeldByOther ==> count == TotalPurgeable(inactive)
    {
      var ok, unlock := TryLock();
      if !ok {
        return 0;
      }
      count := 0;
      var i := 0;
      while i < |inactive|
        invariant 0 <= i <= |inactive|
        invariant count == TotalPurgeable(inactive[..i])
      {
        assert inactive[..i + 1][..i] == inactive[..i];
        if inactive[i].purgeable {
          count := count + Pages(inactive[i]);
        }
        i := i + 1;
      }
      assert inactive[..i] == inactive;
      if unlock {
        Unlock();
      }
    }

    /**
     * msm_gem_shrinker_scan: purge purgeable objects in list order,
     * checking before each object whether `nrToScan` pages have been freed.
     */
    method Scan(nrToScan: nat) returns (freed: nat)
      modifies this
      ensures mutex == old(mutex)
      ensures old(mutex) == HeldByOther ==> freed == SHRINK_STOP && inactive == old(inactive)
      ensures old(mutex) != HeldByOther ==>
        var k := ScanStop(old(inactive), nrToScan);
        && inactive == PurgePrefix(old(inactive), k)
        && freed == TotalPurgeable(old(inactive)[..k])
    {
      var ok, unlock := TryLock();
      if !ok {
        return SHRINK_STOP;
      }
      ghost var s := inactive;
      freed := 0;
      var i := 0;
      while i < |inactive|
        invariant 0 <= i <= |s| && |inactive| == |s| && mutex == Lock(old(mutex)).after
        invariant inactive == PurgePrefix(s, i)
        invariant freed == TotalPurgeable(s[..i])
        invariant ScanStopFrom(s, nrToScan, i) == ScanStop(s, nrToScan)
      {
        if freed >= nrToScan {
          break;
        }
        assert s[..i + 1][..i] == s[..i];
        if inactive[i].purgeable {
          freed := freed + Pages(inactive[i]);
          inactive := inactive[i := Purge(inactive[i])];
        }
        i := i + 1;
      }
      if unlock {
        Unlock();
      }
    }

    /**
     * msm_gem_shrinker_vmap: unmap vunmapable objects in list order,
     * stopping after the 15th, and add their number to `*ptr`.
     */
    method VmapPurge(ptrIn: nat) returns (ret: int, ptr: nat)
      requires ptrIn < U64
      modifies this
      ensures ret == NOTIFY_DONE && mutex == old(mutex)
      ensures old(mutex) == HeldByOther ==> ptr == ptrIn && inactive == old(inactive)
      ensures old(mutex) != HeldByOther ==>
        var k := VmapStop(old(inactive));
        && inactive == VunmapPrefix(old(inactive), k)
        && ptr == Wrap64(ptrIn + CountVunmapable(old(inactive)[..k]))
    {
      ret := NOTIFY_DONE;
      ptr := ptrIn;
      var ok, unlock := TryLock();
      if !ok {
        return;
      }
      var unmapped;
      inactive, unmapped := VunmapBatch(inactive);
      if unlock {
        Unlock();
      }
      ptr := Wrap64(ptr + unmapped);
    }
  }

  /**
   * A scan whose budget exceeds what count reports purges every purgeable
   * object and frees exactly the counted pages; a zero budget frees nothing.
   */
  lemma ScanBudgetCases(s: seq<GemObject>, nrToScan: nat)
    ensures nrToScan > TotalPurgeable(s) ==>
      ScanStop(s, nrToScan) == |s| && TotalPurgeable(s[..ScanStop(s, nrToScan)]) == TotalPurgeable(s)
    ensures nrToScan == 0 ==> ScanStop(s, nrToScan) == 0 && PurgePrefix(s, 0) == s
  {
    ScanStopIsFirst(s, nrToScan);
    var k := ScanStop(s, nrToScan);
    if nrToScan > TotalPurgeable(s) && k < |s| {
      assert s[..k] + s[k..] == s;
      TotalPurgeableAppend(s[..k], s[k..]);
    }
    assert s[..|s|] == s;
    assert s[..0] == [];
  }

  /**
   * scan overshoots by at most one object: before the last object it
   * looked at, it had freed fewer than `nrToScan` pages.
   */
  lemma ScanOvershootsByOneObject(s: seq<GemObject>, nrToScan: nat)
    ensures var k := ScanStop(s, nrToScan);
      k > 0 ==> TotalPurgeable(s[..k]) - PurgeablePages(s[k - 1]) < nrToScan
  {
    ScanStopIsFirst(s, nrToScan);
    var k := ScanStop(s, nrToScan);
    if k > 0 {
      assert s[..k][..k - 1] == s[..k - 1];
    }
  }

  /** After a scan, the next count reports exactly the freed pages fewer. */
  lemma ScanReducesCount(s: seq<GemObject>, nrToScan: nat)
    ensures var k := ScanStop(s, nrToScan);
      TotalPurgeable(PurgePrefix(s, k)) == TotalPurgeable(s) - TotalPurgeable(s[..k])
  {
    PurgePrefixTotal(s, ScanStop(s, nrToScan));
  }

  /**
   * vmap unmaps at most 15 objects, and afterwards exactly that many fewer
   * objects are vunmapable.
   */
  lemma VmapUnmapsAtMostBatch(s: seq<GemObject>)
    ensures var k := VmapStop(s);
      && CountVunmapable(s[..k]) <= VMAP_BATCH
      && CountVunmapable(VunmapPrefix(s, k)) == CountVunmapable(s) - CountVunmapable(s[..k])
  {
    VmapStopBound(s);
    VunmapPrefixCount(s, VmapStop(s));
  }
}
