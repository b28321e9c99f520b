/**
 * drivers/gpu/drm/msm/msm_fence.c: the fence timeline of an msm GPU ring.
 * A context hands out fences with sequence numbers `++last_fence` and
 * records in `timeline_value` the last sequence number the GPU retired.
 * Both are u32; whether a sequence number has retired is decided by a
 * wrap-aware comparison (the 32-bit difference read as signed).
 */
module MsmFence {
  import opened Machine

  const EINVAL: int := 22
  const EBUSY: int := 16
  const ENOMEM: int := 12

  /** timeline_completed: `(int32_t)(timeline_value - timeline) >= 0`. */
  predicate TimelineCompleted(value: nat, timeline: nat)
  {
    ToS32(Wrap32(value - timeline)) >= 0
  }

  /**
   * For u32 values the wrap-aware test says: `timeline` is at most 2^31 - 1
   * steps behind `value`, counting modulo 2^32.
   */
  lemma TimelineCompletedWindow(value: nat, timeline: nat)
    requires value < U32 && timeline < U32
    ensures value >= timeline ==> (TimelineCompleted(value, timeline) <==> value - timeline < S32_LIMIT)
    ensures value < timeline ==> (TimelineCompleted(value, timeline) <==> timeline - value > S32_LIMIT)
  {
    if value < timeline {
      assert Wrap32(value - timeline) == value - timeline + U32;
    }
  }

  /** A timeline has completed its own value, and sequence numbers are ordered within a window of 2^31. */
  lemma TimelineCompletedOrder(value: nat, timeline: nat)
    requires value < U32 && timeline < U32
    ensures TimelineCompleted(value, value)
    ensures (value != timeline && Wrap32(value - timeline) != S32_LIMIT) ==>
              !(TimelineCompleted(value, timeline) && TimelineCompleted(timeline, value))
  {
    TimelineCompletedWindow(value, timeline);
    TimelineCompletedWindow(timeline, value);
  }

  /** A fence: the dma-fence context number it was created on and its sequence number. */
  datatype Fence = Fence(context: nat, seqno: nat)

  /** What msm_fence_alloc returns: a fence, or an `ERR_PTR` error code. */
  datatype AllocResult = Allocated(fence: Fence) | AllocError(err: int)

  /** struct msm_fence_context: the u32 timeline value and the last sequence number handed out. */
  class FenceContext {
    const context: nat
    var timelineValue: nat
    var lastFence: nat

    ghost predicate Valid()
      reads this
    {
      timelineValue < U32 && lastFence < U32
    }

    /** msm_fence_context_alloc: a zeroed context on a fresh dma-fence context number. */
    constructor (context: nat)
      ensures Valid() && this.context == context && timelineValue == 0 && lastFence == 0
    {
      this.context := context;
      timelineValue := 0;
      lastFence := 0;
    }

    /**
     * msm_wait_timeline without a timeout: -EINVAL for a sequence number
     * not handed to the GPU yet by the plain comparison, else 0 when it has
     * retired and -EBUSY when it has not.
     */
    method WaitTimelineNoWait(timeline: nat) returns (ret: int)
      requires Valid() && timeline < U32
      ensures ret == -EINVAL <==> timeline > timelineValue
      ensures ret == 0 <==> timeline <= timelineValue && timelineValue - timeline < S32_LIMIT
      ensures ret == -EBUSY <==> timeline <= timelineValue && timelineValue - timeline >= S32_LIMIT
    {
      if timeline > timelineValue {
        return -EINVAL;
      }
      TimelineCompletedWindow(timelineValue, timeline);
      ret := if TimelineCompleted(timelineValue, timeline) then 0 else -EBUSY;
    }

    /** msm_update_timeline: the plain maximum of the old value and the retired sequence number. */
    method UpdateTimeline(timeline: nat)
      requires Valid() && timeline < U32
      modifies this`timelineValue
      ensures Valid()
      ensures timelineValue == Max(timeline, old(timelineValue))
      ensures timelineValue >= old(timelineValue) && timelineValue >= timeline
    {
      timelineValue := Max(timeline, timelineValue);
    }

    /**
     * msm_fence_alloc: the fence gets the next sequence number, `++last_fence`
     * in u32 arithmetic. `allocOk` false stands for a failed `kzalloc`, which
     * returns -ENOMEM before the counter is touched.
     */
    method FenceAlloc(allocOk: bool) returns (r: AllocResult)
      requires Valid()
      modifies this`lastFence
      ensures Valid()
      ensures !allocOk ==> r == AllocError(-ENOMEM) && lastFence == old(lastFence)
      ensures allocOk ==> r == Allocated(Fence(context, lastFence)) && lastFence == Wrap32(old(lastFence) + 1)
    {
      if !allocOk {
        return AllocError(-ENOMEM);
      }
      lastFence := Wrap32(lastFence + 1);
      r := Allocated(Fence(context, lastFence));
    }

    /** msm_fence_signaled */
    predicate Signaled(f: Fence)
      reads this
    {
      TimelineCompleted(timelineValue, f.seqno)
    }
  }

  /**
   * Each new sequence number is one step after the previous one in the
   * wrap-aware order: a timeline that reached the previous fence has
   * completed that fence but not the new one.
   */
  lemma {:induction false} NextSeqnoIsLater(last: nat)
    requires last < U32
    ensures TimelineCompleted(last, last)
    ensures !TimelineCompleted(last, Wrap32(last + 1))
    ensures TimelineCompleted(Wrap32(last + 1), last)
  {
    if last + 1 == U32 {
      assert Wrap32(last + 1) == 0;
      assert Wrap32(last - 0) == last;
    } else {
      assert Wrap32(last - (last + 1)) == U32 - 1;
    }
  }

  /**
   * After msm_update_timeline(timeline) a fence with that sequence number is
   * signalled, unless the old value was already 2^31 or more ahead of it.
   */
  lemma UpdateSignals(value: nat, timeline: nat)
    requires value < U32 && timeline < U32
    requires value <= timeline || value - timeline < S32_LIMIT
    ensures TimelineCompleted(Max(timeline, value), timeline)
  {
    TimelineCompletedWindow(Max(timeline, value), timeline);
  }
}
