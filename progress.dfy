/**
 * The simulated loading progress (src/hooks/useLoading.ts; the same interval
 * is repeated in src/pages/index.tsx). Every 100 ms tick adds 4 per cent to the
 * progress; the tick that reaches 100 clamps it and clears the interval.
 */
module Progress {

  /** The per-tick increment and the terminal value. */
  const Increment: int := 4
  const Complete: int := 100

  /** One interval tick: `prev + 4`, clamped to 100 (the tick that clamps also clears the interval). */
  function Tick(prev: int): (next: int)
    ensures next <= Complete
    ensures prev <= Complete ==> prev <= next
    ensures next == Complete || next == prev + Increment
    ensures next < Complete <==> prev + Increment < Complete
  {
    var candidate := prev + Increment;
    if candidate >= Complete then Complete else candidate
  }

  /** Whether the tick from `prev` clears the interval. */
  predicate ClearsInterval(prev: int) {
    prev + Increment >= Complete
  }

  /** The progress after `k` ticks starting from `p`, ignoring that the interval stops. */
  function Ticks(p: int, k: nat): int
    decreases k
  {
    if k == 0 then p else Ticks(Tick(p), k - 1)
  }

  /** The smaller of two integers (reference for the clamped value). */
  function Min(a: int, b: int): int {
    if a <= b then a else b
  }

  /** After `k` ticks from 0 the progress is `min(4k, 100)`. */
  lemma {:induction false} TicksFromZero(k: nat)
    ensures Ticks(0, k) == Min(Increment * k, Complete)
  {
    TicksFrom(0, k);
  }

  /** From any value in [0, 100], `k` ticks give `min(p + 4k, 100)`. */
  lemma {:induction false} TicksFrom(p: int, k: nat)
    requires 0 <= p <= Complete
    ensures Ticks(p, k) == Min(p + Increment * k, Complete)
    decreases k
  {
    if k > 0 {
      TicksFrom(Tick(p), k - 1);
      if p + Increment >= Complete {
        TickAtComplete(k - 1);
      }
    }
  }

  /** Once the progress is 100, further ticks change nothing. */
  lemma {:induction false} TickAtComplete(k: nat)
    ensures Ticks(Complete, k) == Complete
  {
    if k > 0 {
      TickAtComplete(k - 1);
    }
  }

  /** The progress reaches its terminal value after exactly 25 ticks, and not before. */
  lemma TerminatesAfter25(k: nat)
    ensures Ticks(0, k) == Complete <==> k >= 25
  {
    TicksFromZero(k);
  }

  /** Progress is monotone along ticks and stays within [0, 100]. */
  lemma {:induction false} TicksMonotone(p: int, j: nat, k: nat)
    requires 0 <= p <= Complete
    requires j <= k
    ensures 0 <= Ticks(p, j) <= Ticks(p, k) <= Complete
  {
    TicksFrom(p, j);
    TicksFrom(p, k);
  }

  /** Every value reached from 0 is a multiple of 4. */
  lemma MultipleOfFour(k: nat)
    ensures Ticks(0, k) % Increment == 0
  {
    TicksFromZero(k);
  }

  /**
   * The state held by `useLoading`: `isLoading`, `loadingProgress` and whether
   * the progress interval is still set.
   */
  class LoadingHook {
    var isLoading: bool
    var loadingProgress: int
    var intervalActive: bool

    /** What the hook's own updates keep true (the returned setters can break it). */
    ghost predicate Valid()
      reads this
    {
      0 <= loadingProgress <= Complete && loadingProgress % Increment == 0 &&
      (loadingProgress == Complete ==> !intervalActive)
    }

    /** Mounting: `useState(true)`, `useState(0)`, and the effect sets the interval. */
    constructor ()
      ensures Valid()
      ensures isLoading && loadingProgress == 0 && intervalActive
    {
      isLoading := true;
      loadingProgress := 0;
      intervalActive := true;
    }

    /**
     * One firing of the interval, from any progress (the returned setter may
     * have written one); nothing happens once the interval is cleared. The
     * hook never touches `isLoading`.
     */
    method IntervalTick()
      modifies this`loadingProgress, this`intervalActive
      ensures old(Valid()) ==> Valid()
      ensures old(intervalActive) ==> loadingProgress == Tick(old(loadingProgress))
      ensures old(intervalActive) ==> intervalActive == !ClearsInterval(old(loadingProgress))
      ensures !old(intervalActive) ==> loadingProgress == old(loadingProgress) && !intervalActive
      ensures intervalActive <==> loadingProgress < Complete && old(intervalActive)
    {
      if intervalActive {
        var next := loadingProgress + Increment;
        if next >= Complete {
          intervalActive := false;
          loadingProgress := Complete;
        } else {
          loadingProgress := next;
        }
      }
    }

    /** Unmount: the cleanup clears the interval (ScrollTrigger.killAll is not part of this model). */
    method Unmount()
      modifies this`intervalActive
      ensures !intervalActive
    {
      intervalActive := false;
    }

    /** The returned `setIsLoading`, the only way `isLoading` changes. */
    method SetIsLoading(value: bool)
      modifies this`isLoading
      ensures isLoading == value
    {
      isLoading := value;
    }

    /** The returned `setLoadingProgress`: any value, so `Valid` need not survive it. */
    method SetLoadingProgress(value: int)
      modifies this`loadingProgress
      ensures loadingProgress == value
    {
      loadingProgress := value;
    }
  }
}
