/**
 * The Ctrl-C handler armed by `NodeArgs::run`: a shared counter that every
 * interrupt increments, and a one-shot cleanup (flush the fork cache if the
 * node runs a fork, then exit with status 0) taken only by the interrupt
 * that found the counter at zero. Interrupts are taken one at a time, in the
 * order the atomic increment serialises them; the flush and the exit are
 * recorded as effects rather than performed.
 */
module Shutdown {
  import opened Primitives

  datatype Effect = FlushForkCache | Exit(code: int)

  /** What one interrupt does, given the counter value its increment returned. */
  function Response(prev: USize, hasFork: bool): (effects: seq<Effect>)
    ensures prev != 0 ==> effects == []
    ensures prev == 0 ==> |effects| > 0 && effects[|effects| - 1] == Exit(0)
    ensures prev == 0 ==> (FlushForkCache in effects <==> hasFork)
    ensures prev == 0 && hasFork ==> effects[0] == FlushForkCache
  {
    if prev == 0 then
      (if hasFork then [FlushForkCache] else []) + [Exit(0)]
    else
      []
  }

  /** The effects of `n` interrupts delivered to a counter that starts at `start`. */
  function Responses(start: USize, n: nat, hasFork: bool): seq<Effect>
    decreases n
  {
    if n == 0 then [] else Response(start, hasFork) + Responses(WrappingIncrement(start), n - 1, hasFork)
  }

  /** The counter after `n` increments from `start`. */
  function Advance(start: USize, n: nat): (r: USize)
    ensures start + n < U64_LIMIT ==> r == start + n
  {
    (start + n) % U64_LIMIT
  }

  /** `n` interrupts followed by `m` more do what their two runs do one after the other. */
  lemma {:induction false} ResponsesSplit(start: USize, n: nat, m: nat, hasFork: bool)
    ensures Responses(start, n + m, hasFork) == Responses(start, n, hasFork) + Responses(Advance(start, n), m, hasFork)
    decreases n
  {
    if n == 0 {
      assert Advance(start, 0) == start;
    } else {
      var next := WrappingIncrement(start);
      ResponsesSplit(next, n - 1, m, hasFork);
      assert Advance(next, n - 1) == Advance(start, n);
      calc {
        Responses(start, n + m, hasFork);
        Response(start, hasFork) + Responses(next, n - 1 + m, hasFork);
        Response(start, hasFork) + (Responses(next, n - 1, hasFork) + Responses(Advance(start, n), m, hasFork));
        (Response(start, hasFork) + Responses(next, n - 1, hasFork)) + Responses(Advance(start, n), m, hasFork);
      }
    }
  }

  /** Interrupts that find the counter already raised, and do not wrap it around, do nothing. */
  lemma {:induction false} LaterInterruptsInert(start: USize, n: nat, hasFork: bool)
    requires 0 < start && start + n <= U64_LIMIT
    ensures Responses(start, n, hasFork) == []
    decreases n
  {
    if n > 0 {
      if n > 1 {
        LaterInterruptsInert(start + 1, n - 1, hasFork);
      } else {
        assert Responses(WrappingIncrement(start), 0, hasFork) == [];
      }
    }
  }

  /**
   * However many interrupts arrive (up to the counter's range), the cleanup
   * runs once: one flush when a fork exists, none otherwise, and one exit
   * with status 0.
   */
  lemma {:induction false} CleanupAtMostOnce(n: nat, hasFork: bool)
    requires 1 <= n <= U64_LIMIT
    ensures Responses(0, n, hasFork) == if hasFork then [FlushForkCache, Exit(0)] else [Exit(0)]
  {
    LaterInterruptsInert(1, n - 1, hasFork);
  }

  /**
   * The counter is a machine word: the interrupt after 2^64 others finds it
   * at zero again and would run the cleanup a second time.
   */
  lemma CounterWrapRearms(hasFork: bool)
    ensures Responses(0, U64_LIMIT + 1, hasFork) == Response(0, hasFork) + Response(0, hasFork)
  {
    ResponsesSplit(0, U64_LIMIT, 1, hasFork);
    CleanupAtMostOnce(U64_LIMIT, hasFork);
  }

  /** The handler closure together with the counter and the fork it captured. */
  class CtrlCHandler {
    /** `running`, the shared `AtomicUsize` */
    var running: USize
    /** whether `api.get_fork()` returned a fork */
    const hasFork: bool
    /** flushes and exits performed so far */
    var effects: seq<Effect>
    /** interrupts delivered so far */
    ghost var delivered: nat

    ghost predicate Valid()
      reads this
    {
      && running == Advance(0, delivered)
      && effects == Responses(0, delivered, hasFork)
    }

    /** `Arc::new(AtomicUsize::new(0))`, captured together with the fork. */
    constructor (hasFork: bool)
      ensures Valid()
      ensures this.hasFork == hasFork && running == 0 && effects == [] && delivered == 0
    {
      this.hasFork := hasFork;
      running := 0;
      effects := [];
      delivered := 0;
    }

    /**
     * One delivery of Ctrl-C: increment the counter and, only when its
     * previous value was zero, flush the fork cache (if any) and exit.
     */
    method OnInterrupt()
      requires Valid()
      modifies this
      ensures Valid()
      ensures delivered == old(delivered) + 1
      ensures running == WrappingIncrement(old(running))
      ensures effects == old(effects) + Response(old(running), hasFork)
      ensures 1 <= delivered <= U64_LIMIT ==> effects == Response(0, hasFork)
    {
      var prev := running;
      running := WrappingIncrement(running);
      if prev == 0 {
        if hasFork {
          effects := effects + [FlushForkCache];
        }
        effects := effects + [Exit(0)];
      }
      ResponsesSplit(0, delivered, 1, hasFork);
      delivered := delivered + 1;
      if delivered <= U64_LIMIT {
        CleanupAtMostOnce(delivered, hasFork);
      }
    }
  }
}
