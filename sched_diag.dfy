/** The scheduler diagnostics of sched_diag.c: one static `struct sched_stats`
    holding four counters, and hooks the scheduler calls when a thread
    becomes ready, leaves the run queue, or is switched in. Each hook runs
    under a spinlock, so each is one atomic update here.

    `context_switches` and `preemptions` are `uint64_t`; they are unbounded
    here. `readyq_len_max` and `readyq_len_cur` are `uint32_t`, and the
    increment of the current length wraps at 2^32 as C's does. */
module SchedDiag {

  const U32_LIMIT: nat := 0x1_0000_0000

  /** The value of a `struct sched_stats`. */
  datatype Stats = Stats(contextSwitches: nat, preemptions: nat, readyqLenMax: nat, readyqLenCur: nat)

  /** A `const struct k_thread *` as the context-switch hook sees it: null,
      or a thread with its `base.prio` (a lower value is a higher priority). */
  datatype ThreadRef = NullThread | ThreadAt(prio: int)

  /** What the hooks keep true from a reset on: the current ready-queue
      length never exceeds its recorded maximum, both fit in 32 bits, and
      there are no more preemptions than context switches. */
  predicate Consistent(s: Stats)
  {
    s.readyqLenCur <= s.readyqLenMax < U32_LIMIT && s.preemptions <= s.contextSwitches
  }

  /** The counters after `sched_diag_reset`, and those of the static struct
      before any hook runs. */
  function Zero(): (s: Stats)
    ensures Consistent(s)
    ensures s.contextSwitches == s.preemptions == s.readyqLenMax == s.readyqLenCur == 0
  {
    Stats(0, 0, 0, 0)
  }

  /** `sched_diag_on_enqueue`: one more thread is ready, and the maximum
      follows the current length upwards. */
  function Enqueued(s: Stats): (t: Stats)
    ensures t.contextSwitches == s.contextSwitches && t.preemptions == s.preemptions
    ensures s.readyqLenCur + 1 < U32_LIMIT ==> t.readyqLenCur == s.readyqLenCur + 1
    ensures s.readyqLenCur + 1 == U32_LIMIT ==> t.readyqLenCur == 0
    ensures t.readyqLenMax >= s.readyqLenMax && t.readyqLenMax >= t.readyqLenCur
    ensures t.readyqLenMax == s.readyqLenMax || t.readyqLenMax == t.readyqLenCur
    ensures Consistent(s) ==> Consistent(t)
  {
    var cur := (s.readyqLenCur + 1) % U32_LIMIT;
    s.(readyqLenCur := cur, readyqLenMax := if cur > s.readyqLenMax then cur else s.readyqLenMax)
  }

  /** `sched_diag_on_dequeue`: one thread fewer is ready; the length stays
      at zero rather than going below it, and the maximum is left alone. */
  function Dequeued(s: Stats): (t: Stats)
    ensures t.contextSwitches == s.contextSwitches && t.preemptions == s.preemptions
    ensures t.readyqLenMax == s.readyqLenMax
    ensures t.readyqLenCur == if s.readyqLenCur > 0 then s.readyqLenCur - 1 else 0
    ensures Consistent(s) ==> Consistent(t)
  {
    if s.readyqLenCur > 0 then s.(readyqLenCur := s.readyqLenCur - 1) else s
  }

  /** The preemption heuristic: both threads are known and the incoming one
      has a strictly lower priority value. */
  predicate IsPreemption(from: ThreadRef, to: ThreadRef)
  {
    from.ThreadAt? && to.ThreadAt? && to.prio < from.prio
  }

  /** `sched_diag_on_context_switch`: every switch counts; a preemption
      counts too. */
  function Switched(s: Stats, from: ThreadRef, to: ThreadRef): (t: Stats)
    ensures t.contextSwitches == s.contextSwitches + 1
    ensures t.preemptions == s.preemptions + (if IsPreemption(from, to) then 1 else 0)
    ensures t.readyqLenMax == s.readyqLenMax && t.readyqLenCur == s.readyqLenCur
    ensures Consistent(s) ==> Consistent(t)
  {
    var t := s.(contextSwitches := s.contextSwitches + 1);
    if from != NullThread && to != NullThread && to.prio < from.prio then
      t.(preemptions := t.preemptions + 1)
    else t
  }

  // ---------------------------------------------------------------------------
  // Sequences of hook calls

  datatype Event = Reset | Enqueue | Dequeue | ContextSwitch(from: ThreadRef, to: ThreadRef)

  function Step(s: Stats, e: Event): Stats
  {
    match e
    case Reset => Zero()
    case Enqueue => Enqueued(s)
    case Dequeue => Dequeued(s)
    case ContextSwitch(from, to) => Switched(s, from, to)
  }

  /** The counters after the hooks `evs` ran, in order, starting from `s`. */
  function Replay(s: Stats, evs: seq<Event>): Stats
  {
    if evs == [] then s else Step(Replay(s, evs[..|evs| - 1]), evs[|evs| - 1])
  }

  function CountSwitches(evs: seq<Event>): nat
  {
    if evs == [] then 0
    else CountSwitches(evs[..|evs| - 1]) + (if evs[|evs| - 1].ContextSwitch? then 1 else 0)
  }

  function CountPreemptions(evs: seq<Event>): nat
  {
    if evs == [] then 0
    else
      var e := evs[|evs| - 1];
      CountPreemptions(evs[..|evs| - 1]) + (if e.ContextSwitch? && IsPreemption(e.from, e.to) then 1 else 0)
  }

  predicate NoReset(evs: seq<Event>)
  {
    forall i :: 0 <= i < |evs| ==> evs[i] != Reset
  }

  /** Whatever the hooks do, the counters stay consistent. */
  lemma {:induction false} ReplayConsistent(s: Stats, evs: seq<Event>)
    requires Consistent(s)
    ensures Consistent(Replay(s, evs))
  {
    if evs != [] {
      ReplayConsistent(s, evs[..|evs| - 1]);
    }
  }

  /** Without a reset in between, `context_switches` counts the switches and
      `preemptions` counts those that were preemptions. */
  lemma {:induction false} ReplayCounts(s: Stats, evs: seq<Event>)
    requires NoReset(evs)
    ensures Replay(s, evs).contextSwitches == s.contextSwitches + CountSwitches(evs)
    ensures Replay(s, evs).preemptions == s.preemptions + CountPreemptions(evs)
  {
    if evs != [] {
      ReplayCounts(s, evs[..|evs| - 1]);
    }
  }

  /** Without a reset in between, the maximum never decreases. */
  lemma {:induction false} MaxMonotone(s: Stats, evs: seq<Event>)
    requires NoReset(evs)
    ensures Replay(s, evs).readyqLenMax >= s.readyqLenMax
  {
    if evs != [] {
      MaxMonotone(s, evs[..|evs| - 1]);
    }
  }

  /** `readyq_len_max` is a high-water mark: without a reset in between, it
      is at least every length the queue had along the way. */
  lemma {:induction false} MaxIsHighWater(s: Stats, evs: seq<Event>, k: nat)
    requires Consistent(s) && NoReset(evs) && k <= |evs|
    ensures Replay(s, evs[..k]).readyqLenCur <= Replay(s, evs).readyqLenMax
  {
    if k == |evs| {
      assert evs[..k] == evs;
      ReplayConsistent(s, evs);
    } else {
      var init := evs[..|evs| - 1];
      assert evs[..k] == init[..k];
      MaxIsHighWater(s, init, k);
      MaxMonotone(Replay(s, init), [evs[|evs| - 1]]);
    }
  }

  // ---------------------------------------------------------------------------
  // The C objects

  /** A `struct sched_stats` in memory: the static `g_stats`, or the caller's
      buffer that `sched_diag_get` fills. */
  class SchedStats {
    var contextSwitches: nat
    var preemptions: nat
    var readyqLenMax: nat
    var readyqLenCur: nat

    function Value(): Stats
      reads this
    {
      Stats(contextSwitches, preemptions, readyqLenMax, readyqLenCur)
    }

    /** Static storage starts out zeroed. */
    constructor ()
      ensures Value() == Zero()
    {
      contextSwitches, preemptions, readyqLenMax, readyqLenCur := 0, 0, 0, 0;
    }
  }

  /** sched_diag.c: the counters and the hooks over them. `enabled` is
      `CONFIG_SCHED_DIAG`; without it every hook is empty and `get` reports
      zeros. */
  class Diag {
    const enabled: bool
    const stats: SchedStats

    ghost predicate Valid()
      reads stats
    {
      Consistent(stats.Value()) && (!enabled ==> stats.Value() == Zero())
    }

    constructor (enabled: bool)
      ensures Valid() && fresh(stats)
      ensures this.enabled == enabled && stats.Value() == Zero()
    {
      this.enabled := enabled;
      stats := new SchedStats();
    }

    /** `sched_diag_reset` */
    method Reset()
      requires Valid()
      modifies stats
      ensures Valid() && stats.Value() == Zero()
    {
      if enabled {
        stats.contextSwitches := 0;
        stats.preemptions := 0;
        stats.readyqLenMax := 0;
        stats.readyqLenCur := 0;
      }
    }

    /** `sched_diag_get`: copies the counters into `*out`, or does nothing
        when `out` is null. */
    method Get(out: SchedStats?)
      requires Valid() && out != stats
      modifies out
      ensures out != null ==> out.Value() == (if enabled then stats.Value() else Zero())
    {
      if out != null {
        if enabled {
          out.contextSwitches := stats.contextSwitches;
          out.preemptions := stats.preemptions;
          out.readyqLenMax := stats.readyqLenMax;
          out.readyqLenCur := stats.readyqLenCur;
        } else {
          out.contextSwitches := 0;
          out.preemptions := 0;
          out.readyqLenMax := 0;
          out.readyqLenCur := 0;
        }
      }
    }

    /** `sched_diag_on_enqueue` */
    method OnEnqueue()
      requires Valid()
      modifies stats
      ensures Valid()
      ensures stats.Value() == if enabled then Enqueued(old(stats.Value())) else old(stats.Value())
    {
      if enabled {
        var cur := (stats.readyqLenCur + 1) % U32_LIMIT;
        stats.readyqLenCur := cur;
        if cur > stats.readyqLenMax {
          stats.readyqLenMax := cur;
        }
      }
    }

    /** `sched_diag_on_dequeue` */
    method OnDequeue()
      requires Valid()
      modifies stats
      ensures Valid()
      ensures stats.Value() == if enabled then Dequeued(old(stats.Value())) else old(stats.Value())
    {
      if enabled && stats.readyqLenCur > 0 {
        stats.readyqLenCur := stats.readyqLenCur - 1;
      }
    }

    /** `sched_diag_on_context_switch` */
    method OnContextSwitch(from: ThreadRef, to: ThreadRef)
      requires Valid()
      modifies stats
      ensures Valid()
      ensures stats.Value() == if enabled then Switched(old(stats.Value()), from, to) else old(stats.Value())
    {
      if enabled {
        stats.contextSwitches := stats.contextSwitches + 1;
        if from != NullThread && to != NullThread {
          if to.prio < from.prio {
            stats.preemptions := stats.preemptions + 1;
          }
        }
      }
    }
  }
}
