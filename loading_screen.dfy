/**
 * The greeting loader of src/components/LoadingScreen.tsx. An interval
 * cycles the heading through the greetings; one timeout, set to fire after a
 * full cycle, clears the interval and starts the exit tween, whose completion
 * calls `onLoadingComplete`. The effect's cleanup clears the interval and the
 * timeout, but not a tween that is already running.
 */
module LoadingScreen {

  /** `greetings`. */
  const Greetings: seq<string> := [
    "Hello", "Hola", "Hallo", "Bonjour", "السلام عليكم",
    "Ciao", "你好", "こんにちは", "안녕하세요"
  ]

  /** `intervalTime`, in milliseconds. */
  const IntervalTime: nat := 600

  /** `totalDuration`: one interval per greeting. */
  function TotalDuration(greetings: seq<string>, intervalTime: nat): nat {
    |greetings| * intervalTime
  }

  /** Division by `n` is determined by any quotient and remainder that fit. */
  lemma DivModUnique(a: int, n: int, q: int, r: int)
    requires n > 0 && 0 <= r < n && a == q * n + r
    ensures a / n == q && a % n == r
  {
    var q', r' := a / n, a % n;
    assert (q - q') * n == r' - r;
    if q > q' {
      MultipleAtLeast(q - q', n);
    } else if q < q' {
      MultipleAtLeast(q' - q, n);
    }
  }

  lemma MultipleAtLeast(x: int, n: int)
    requires x >= 1 && n > 0
    ensures x * n >= n
  {
    assert x * n == (x - 1) * n + n;
  }

  /**
   * One run of the loader's effect, with its timers and the number of
   * completion calls made. The timers fire in time order: the exit timeout,
   * due at `TotalDuration`, fires only once every interval tick due strictly
   * before it has fired.
   */
  class Greeter {
    const greetings: seq<string>
    /** The effect's local `index`. */
    var index: nat
    /** The heading's text (`textRef.current.innerText`). */
    var shown: string
    var intervalActive: bool
    var timeoutPending: bool
    var exitTweenRunning: bool
    /** How many times `onLoadingComplete` has been called. */
    var completions: nat
    var cleanedUp: bool
    /** How many interval ticks have changed the greeting. */
    ghost var ticks: nat
    /** Every heading text shown so far, in order, starting with the rendered `greetings[0]`. */
    ghost var history: seq<string>

    ghost predicate Valid()
      reads this
    {
      |greetings| > 0 &&
      index == ticks % |greetings| &&
      |history| == ticks + 1 &&
      (forall k :: 0 <= k < |history| ==> history[k] == greetings[k % |greetings|]) &&
      shown == history[ticks] &&
      (intervalActive ==> timeoutPending) &&
      (exitTweenRunning ==> !timeoutPending && !intervalActive && completions == 0) &&
      completions <= 1 &&
      (completions == 1 ==> !timeoutPending && !intervalActive && !exitTweenRunning) &&
      (cleanedUp ==> !intervalActive && !timeoutPending) &&
      (exitTweenRunning || completions > 0 ==> ticks + 1 >= |greetings|)
    }

    /** No timer and no tween is left that could change anything. */
    predicate Quiescent()
      reads this
    {
      !intervalActive && !timeoutPending && !exitTweenRunning
    }

    /** Mount: the heading renders the first greeting; the effect sets the interval and the exit timeout. */
    constructor (greetings: seq<string>)
      requires |greetings| > 0
      ensures this.greetings == greetings
      ensures Valid()
      ensures index == 0 && shown == greetings[0] && ticks == 0 && history == [greetings[0]]
      ensures intervalActive && timeoutPending && !exitTweenRunning && completions == 0 && !cleanedUp
    {
      this.greetings := greetings;
      index := 0;
      shown := greetings[0];
      intervalActive := true;
      timeoutPending := true;
      exitTweenRunning := false;
      completions := 0;
      cleanedUp := false;
      ticks := 0;
      history := [greetings[0]];
    }

    /** One interval firing: advance the index cyclically and show that greeting. */
    method IntervalTick()
      requires Valid()
      modifies this`index, this`shown, this`ticks, this`history
      ensures Valid()
      ensures old(intervalActive) ==>
                index == (old(index) + 1) % |greetings| && ticks == old(ticks) + 1 &&
                history == old(history) + [shown]
      ensures !old(intervalActive) ==>
                index == old(index) && shown == old(shown) && ticks == old(ticks) && history == old(history)
      ensures shown == greetings[ticks % |greetings|]
    {
      if intervalActive {
        ModSuccessor(ticks, |greetings|);
        index := (index + 1) % |greetings|;
        ticks := ticks + 1;
        shown := greetings[index];
        history := history + [shown];
      }
    }

    /**
     * The exit timeout: clear the interval and start the exit tween. It is due
     * at `TotalDuration`, so the interval's next firing is not due before it.
     */
    method ExitTimeout()
      requires Valid()
      requires timeoutPending ==> (ticks + 1) * IntervalTime >= TotalDuration(greetings, IntervalTime)
      modifies this`intervalActive, this`timeoutPending, this`exitTweenRunning
      ensures Valid()
      ensures old(timeoutPending) ==> !intervalActive && !timeoutPending && exitTweenRunning
      ensures !old(timeoutPending) ==>
                intervalActive == old(intervalActive) && !timeoutPending && exitTweenRunning == old(exitTweenRunning)
      ensures old(timeoutPending) ==> |history| >= |greetings|
      ensures old(Quiescent()) ==> Quiescent()
    {
      if timeoutPending {
        intervalActive := false;
        timeoutPending := false;
        exitTweenRunning := true;
      }
    }

    /** The exit tween's `onComplete`: the one place `onLoadingComplete` is called. */
    method TweenComplete()
      requires Valid()
      modifies this`exitTweenRunning, this`completions
      ensures Valid()
      ensures completions == old(completions) + (if old(exitTweenRunning) then 1 else 0)
      ensures completions > old(completions) ==> !intervalActive && !timeoutPending
      ensures completions > 0 ==> |history| >= |greetings| && history[..|greetings|] == greetings
      ensures !exitTweenRunning
    {
      if exitTweenRunning {
        exitTweenRunning := false;
        completions := completions + 1;
      }
      if completions > 0 {
        FirstCycleInOrder();
      }
    }

    /** Once a full cycle has been shown, its first `n` headings are the greetings in list order. */
    lemma FirstCycleInOrder()
      requires Valid() && |history| >= |greetings|
      ensures history[..|greetings|] == greetings
    {
      forall k | 0 <= k < |greetings|
        ensures history[k] == greetings[k]
      {
        DivModUnique(k, |greetings|, 0, k);
      }
    }

    /** The effect's cleanup: clear the interval and the timeout (a running tween keeps running). */
    method Cleanup()
      requires Valid()
      modifies this`intervalActive, this`timeoutPending, this`cleanedUp
      ensures Valid()
      ensures !intervalActive && !timeoutPending && cleanedUp
      ensures Quiescent() <==> !exitTweenRunning
    {
      intervalActive := false;
      timeoutPending := false;
      cleanedUp := true;
    }
  }

  /** `(k + 1) mod n` from `k mod n`. */
  lemma ModSuccessor(k: nat, n: nat)
    requires n > 0
    ensures (k % n + 1) % n == (k + 1) % n
  {
    var q, r := k / n, k % n;
    if r + 1 < n {
      DivModUnique(k + 1, n, q, r + 1);
      DivModUnique(r + 1, n, 0, r + 1);
    } else {
      DivModUnique(k + 1, n, q + 1, 0);
      DivModUnique(r + 1, n, 1, 0);
    }
  }

  /** Mount the loader and let the interval fire once for every greeting after the first. */
  method MountAndCycle() returns (g: Greeter)
    ensures fresh(g) && g.Valid() && g.greetings == Greetings
    ensures g.ticks == |Greetings| - 1 && g.shown == Greetings[|Greetings| - 1]
    ensures g.intervalActive && g.timeoutPending && !g.exitTweenRunning && g.completions == 0 && !g.cleanedUp
  {
    g := new Greeter(Greetings);
    var i := 0;
    while i < |Greetings| - 1
      invariant 0 <= i <= |Greetings| - 1
      invariant g.Valid() && g.greetings == Greetings && g.ticks == i
      invariant g.intervalActive && g.timeoutPending && !g.exitTweenRunning && g.completions == 0 && !g.cleanedUp
    {
      g.IntervalTick();
      i := i + 1;
    }
  }

  /**
   * A run completes at most once, only after the greeting interval has been
   * cleared, and only after every greeting has been shown in list order.
   */
  method RunToCompletion() returns (g: Greeter)
    ensures g.Valid() && g.completions == 1 && !g.intervalActive
    ensures |g.history| >= |Greetings| && g.history[..|Greetings|] == Greetings
  {
    g := MountAndCycle();
    g.ExitTimeout();
    g.TweenComplete();
    g.TweenComplete();
    g.ExitTimeout();
    g.IntervalTick();
  }

  /** Cleanup does not stop a running exit tween: its completion still arrives after the cleanup. */
  method CompletionAfterCleanup() returns (g: Greeter)
    ensures g.Valid() && g.cleanedUp && g.completions == 1
  {
    g := MountAndCycle();
    g.ExitTimeout();
    g.Cleanup();
    g.TweenComplete();
  }
}
