/**
 * What one `ConditionBuilder` evaluation does, as values (ConditionHelper.cs).
 *
 * A callback is known only by a reference of type `H`; invoking it either
 * completes or throws, as the given function `outcome` says. The
 * evaluation reports the callbacks it invoked, in order, as a list of calls,
 * so that whoever owns the callbacks can carry out their effects.
 */
module ConditionEngine {
  import opened Wrappers

  datatype Exception = Exception(message: string)

  /** How an invoked handler ended. */
  datatype Outcome = Completed | Threw(error: Exception)

  /** One callback invocation made by the engine. */
  datatype Call<T, H> =
    | Invoke(handler: H, item: T)                        // a then- or else-handler
    | CatchInvoke(handler: H, item: T, error: Exception) // the catch callback
    | Hook(handler: H)                                   // the before- or after-run hook

  /** The five run-scoped counters. */
  datatype Counters = Counters(succeeded: nat, failed: nat, thenCount: nat, elseCount: nat, matches: nat)

  const NoCounts: Counters := Counters(0, 0, 0, 0, 0)

  /** The part of a builder an evaluation depends on, together with the
      outcome each handler has on each item. */
  datatype Setup<!T, !H> = Setup(
    condition: T -> bool,
    onThen: Option<H>,
    onElse: Option<H>,
    onCatch: Option<H>,
    onBefore: Option<H>,
    onAfter: Option<H>,
    outcome: (H, T) -> Outcome)

  /** The result, counters, last exception and calls after one `RunOne`. */
  datatype Pass<T, H> = Pass(result: bool, counters: Counters, lastException: Option<Exception>, calls: seq<Call<T, H>>)

  /** The counter invariant of one run: every handler invocation ends either
      succeeded or failed, and the then-handler only runs on a match. */
  predicate Balanced(c: Counters) {
    c.thenCount + c.elseCount == c.succeeded + c.failed && c.thenCount <= c.matches
  }

  /** Invoke `handler` inside the try/catch of `RunOne`. */
  function Attempt<T, H>(s: Setup<T, H>, handler: H, item: T, c: Counters,
                         ex: Option<Exception>, result: bool): Pass<T, H>
  {
    match s.outcome(handler, item)
    case Completed =>
      Pass(result, c.(succeeded := c.succeeded + 1), ex, [Invoke(handler, item)])
    case Threw(e) =>
      Pass(result, c.(failed := c.failed + 1), Some(e),
           [Invoke(handler, item)] + (if s.onCatch.Some? then [CatchInvoke(s.onCatch.value, item, e)] else []))
  }

  /** `RunOne(item)` with counters `c` and last exception `ex` beforehand. */
  function RunOneSpec<T, H>(s: Setup<T, H>, c: Counters, ex: Option<Exception>, item: Option<T>): Pass<T, H>
  {
    match item
    case None => Pass(false, c, ex, [])
    case Some(x) =>
      if s.condition(x) then
        var m := c.(matches := c.matches + 1);
        if s.onThen.Some? then Attempt(s, s.onThen.value, x, m.(thenCount := m.thenCount + 1), ex, true)
        else Pass(true, m, ex, [])
      else if s.onElse.Some? then
        Attempt(s, s.onElse.value, x, c.(elseCount := c.elseCount + 1), ex, false)
      else
        Pass(false, c, ex, [])
  }

  /** A null item is rejected without touching anything. */
  lemma RunOneOnNull<T, H>(s: Setup<T, H>, c: Counters, ex: Option<Exception>)
    ensures RunOneSpec(s, c, ex, None) == Pass(false, c, ex, [])
  {
  }

  /** On an item, `RunOne` returns exactly the predicate's value, whatever the
      handler does; it invokes the then-handler on a match and the
      else-handler otherwise, and the catch callback only after a throw. */
  lemma RunOneResult<T, H>(s: Setup<T, H>, c: Counters, ex: Option<Exception>, x: T)
    ensures var p := RunOneSpec(s, c, ex, Some(x));
      p.result == s.condition(x) &&
      (s.condition(x) && s.onThen.Some? ==> p.calls[..1] == [Invoke(s.onThen.value, x)]) &&
      (!s.condition(x) && s.onElse.Some? ==> p.calls[..1] == [Invoke(s.onElse.value, x)]) &&
      (var h := if s.condition(x) then s.onThen else s.onElse;
       if h.None? then p.calls == [] && p.lastException == ex
       else match s.outcome(h.value, x)
            case Completed => p.calls == [Invoke(h.value, x)] && p.lastException == ex
            case Threw(e) =>
              p.lastException == Some(e) &&
              p.calls == [Invoke(h.value, x)] + (if s.onCatch.Some? then [CatchInvoke(s.onCatch.value, x, e)] else []))
  {
  }

  /** How each counter moves in one `RunOne` on an item. */
  lemma RunOneCounters<T, H>(s: Setup<T, H>, c: Counters, ex: Option<Exception>, x: T)
    ensures var p := RunOneSpec(s, c, ex, Some(x)).counters;
      var h := if s.condition(x) then s.onThen else s.onElse;
      var ok := h.Some? && s.outcome(h.value, x).Completed?;
      var failed := h.Some? && s.outcome(h.value, x).Threw?;
      p.matches == c.matches + (if s.condition(x) then 1 else 0) &&
      p.thenCount == c.thenCount + (if s.condition(x) && s.onThen.Some? then 1 else 0) &&
      p.elseCount == c.elseCount + (if !s.condition(x) && s.onElse.Some? then 1 else 0) &&
      p.succeeded == c.succeeded + (if ok then 1 else 0) &&
      p.failed == c.failed + (if failed then 1 else 0)
  {
  }

  /** `RunOne` keeps the counter invariant. */
  lemma RunOneKeepsBalance<T, H>(s: Setup<T, H>, c: Counters, ex: Option<Exception>, item: Option<T>)
    requires Balanced(c)
    ensures Balanced(RunOneSpec(s, c, ex, item).counters)
  {
  }

  /** `RunOne` never invokes a run hook. */
  lemma RunOneCallsNoHook<T, H>(s: Setup<T, H>, c: Counters, ex: Option<Exception>, item: Option<T>)
    ensures forall k :: 0 <= k < |RunOneSpec(s, c, ex, item).calls| ==> !RunOneSpec(s, c, ex, item).calls[k].Hook?
  {
  }

  /** `RunOne(index)` as written: its guard only asks for a source with at
      least `index` items, so `index == |source|` and every negative index
      pass it, and `ElementAt` then throws out of the call (`None`). */
  function RunAtAsWritten<T, H>(s: Setup<T, H>, c: Counters, ex: Option<Exception>,
                                source: Option<seq<T>>, index: int): (r: Option<Pass<T, H>>)
    ensures r.None? <==> source.Some? && (index == |source.value| || index < 0)
    ensures source.None? || index > |source.value| ==> r == Some(Pass(false, c, ex, []))
  {
    if source.Some? && |source.value| >= index then
      if 0 <= index < |source.value| then Some(RunOneSpec(s, c, ex, Some(source.value[index])))
      else None
    else Some(Pass(false, c, ex, []))
  }

  /** The guard lets the position one past the end through, and the call
      throws. */
  lemma RunAtAsWrittenThrowsPastEnd<T, H>(s: Setup<T, H>, c: Counters, ex: Option<Exception>, items: seq<T>)
    ensures RunAtAsWritten(s, c, ex, Some(items), |items|) == None
  {
  }

  /** `RunOne(index)` with the guard the code evidently means: a position of
      the source runs that item, any other index is rejected like a null
      item. */
  function RunAt<T, H>(s: Setup<T, H>, c: Counters, ex: Option<Exception>,
                       source: Option<seq<T>>, index: int): Pass<T, H>
  {
    if source.Some? && 0 <= index < |source.value| then RunOneSpec(s, c, ex, Some(source.value[index]))
    else RunOneSpec(s, c, ex, None)
  }

  /** The corrected `RunOne(index)` agrees with the original wherever the
      original returns, and the original throws exactly for the indexes its
      guard lets through by mistake; the corrected one runs an item exactly
      when the index is a position of the source. */
  lemma RunAtFixesGuard<T, H>(s: Setup<T, H>, c: Counters, ex: Option<Exception>, source: Option<seq<T>>, index: int)
    ensures RunAtAsWritten(s, c, ex, source, index).Some? ==>
              RunAtAsWritten(s, c, ex, source, index) == Some(RunAt(s, c, ex, source, index))
    ensures RunAtAsWritten(s, c, ex, source, index).None? <==>
              source.Some? && (index == |source.value| || index < 0)
    ensures (source.Some? && 0 <= index < |source.value|) ||
            RunAt(s, c, ex, source, index) == Pass(false, c, ex, [])
  {
  }

  /** The state of a `RunUntil` part-way through its loop; `stopped` records an
      early return. */
  datatype Progress<T, H> = Progress(result: bool, counters: Counters, lastException: Option<Exception>,
                           calls: seq<Call<T, H>>, stopped: bool)

  /** The `foreach` loop of `RunUntil` over the remaining `items`. */
  function Loop<T, H>(s: Setup<T, H>, valueToStop: Option<bool>, stopBefore: bool,
                      items: seq<T>, acc: Progress<T, H>): Progress<T, H>
    decreases |items|
  {
    if items == [] then acc
    else
      var x := items[0];
      if valueToStop.Some? && s.condition(x) == valueToStop.value then
        if stopBefore then acc.(result := true, stopped := true)
        else
          var p := RunOneSpec(s, acc.counters, acc.lastException, Some(x));
          Progress(true, p.counters, p.lastException, acc.calls + p.calls, true)
      else
        var p := RunOneSpec(s, acc.counters, acc.lastException, Some(x));
        Loop(s, valueToStop, stopBefore, items[1..],
             Progress(if valueToStop.Some? then acc.result else p.result || acc.result,
                 p.counters, p.lastException, acc.calls + p.calls, false))
  }

  function HookCall<T, H>(hook: Option<H>): seq<Call<T, H>> {
    if hook.Some? then [Hook(hook.value)] else []
  }

  /** `RunUntil(valueToStop, stopBefore)` on a builder whose source is `source`
      and whose last exception is `ex`. `Run()` is the case `valueToStop == None`. */
  function RunUntilSpec<T, H>(s: Setup<T, H>, source: Option<seq<T>>, valueToStop: Option<bool>,
                              stopBefore: bool, ex: Option<Exception>): Progress<T, H>
  {
    var start := Progress(false, NoCounts, ex, HookCall(s.onBefore), false);
    var done := if source.Some? then Loop(s, valueToStop, stopBefore, source.value, start) else start;
    if done.stopped then done else done.(calls := done.calls + HookCall(s.onAfter))
  }

  /** The number of `items` the predicate holds for. */
  function CountMatching<T>(condition: T -> bool, items: seq<T>): nat
  {
    if items == [] then 0
    else (if condition(items[0]) then 1 else 0) + CountMatching(condition, items[1..])
  }

  /** Without a stop value the loop visits every item: it ORs the predicate's
      values into the result and counts each match once. */
  lemma {:induction false} LoopWithoutStop<T, H>(s: Setup<T, H>, stopBefore: bool, items: seq<T>, acc: Progress<T, H>)
    requires !acc.stopped
    ensures var r := Loop(s, None, stopBefore, items, acc);
      !r.stopped &&
      r.result == (acc.result || exists i :: 0 <= i < |items| && s.condition(items[i])) &&
      r.counters.matches == acc.counters.matches + CountMatching(s.condition, items)
    decreases |items|
  {
    if items != [] {
      var p := RunOneSpec(s, acc.counters, acc.lastException, Some(items[0]));
      var next := Progress(p.result || acc.result, p.counters, p.lastException, acc.calls + p.calls, false);
      LoopWithoutStop(s, stopBefore, items[1..], next);
      if s.condition(items[0]) {
        assert exists i :: 0 <= i < |items| && s.condition(items[i]);
      }
      if exists i :: 0 <= i < |items| && s.condition(items[i]) {
        var i :| 0 <= i < |items| && s.condition(items[i]);
        assert i == 0 || s.condition(items[1..][i - 1]);
      }
      if exists i :: 0 <= i < |items[1..]| && s.condition(items[1..][i]) {
        var i :| 0 <= i < |items[1..]| && s.condition(items[1..][i]);
        assert s.condition(items[i + 1]);
      }
    }
  }

  /** With a stop value the loop stops exactly when some item's predicate
      equals it, and only then returns true. */
  lemma {:induction false} LoopWithStop<T, H>(s: Setup<T, H>, v: bool, stopBefore: bool, items: seq<T>, acc: Progress<T, H>)
    requires !acc.stopped && !acc.result
    ensures var r := Loop(s, Some(v), stopBefore, items, acc);
      r.stopped == (exists i :: 0 <= i < |items| && s.condition(items[i]) == v) &&
      r.result == r.stopped
    decreases |items|
  {
    if items != [] && s.condition(items[0]) != v {
      var p := RunOneSpec(s, acc.counters, acc.lastException, Some(items[0]));
      var next := Progress(acc.result, p.counters, p.lastException, acc.calls + p.calls, false);
      LoopWithStop(s, v, stopBefore, items[1..], next);
      if exists i :: 0 <= i < |items| && s.condition(items[i]) == v {
        var i :| 0 <= i < |items| && s.condition(items[i]) == v;
        assert s.condition(items[1..][i - 1]) == v;
      }
      if exists i :: 0 <= i < |items[1..]| && s.condition(items[1..][i]) == v {
        var i :| 0 <= i < |items[1..]| && s.condition(items[1..][i]) == v;
        assert s.condition(items[i + 1]) == v;
      }
    } else if items != [] {
      assert s.condition(items[0]) == v;
    }
  }

  /** The loop keeps the counter invariant. */
  lemma {:induction false} LoopKeepsBalance<T, H>(s: Setup<T, H>, valueToStop: Option<bool>, stopBefore: bool,
                                                  items: seq<T>, acc: Progress<T, H>)
    requires Balanced(acc.counters)
    ensures Balanced(Loop(s, valueToStop, stopBefore, items, acc).counters)
    decreases |items|
  {
    if items != [] {
      var p := RunOneSpec(s, acc.counters, acc.lastException, Some(items[0]));
      RunOneKeepsBalance(s, acc.counters, acc.lastException, Some(items[0]));
      if !(valueToStop.Some? && s.condition(items[0]) == valueToStop.value) {
        var next := Progress(if valueToStop.Some? then acc.result else p.result || acc.result,
                        p.counters, p.lastException, acc.calls + p.calls, false);
        LoopKeepsBalance(s, valueToStop, stopBefore, items[1..], next);
      }
    }
  }

  /** The loop only adds handler calls, never a hook. */
  lemma {:induction false} LoopCallsNoHook<T, H>(s: Setup<T, H>, valueToStop: Option<bool>, stopBefore: bool,
                                                 items: seq<T>, acc: Progress<T, H>)
    ensures var r := Loop(s, valueToStop, stopBefore, items, acc);
      |acc.calls| <= |r.calls| && r.calls[..|acc.calls|] == acc.calls &&
      forall k :: |acc.calls| <= k < |r.calls| ==> !r.calls[k].Hook?
    decreases |items|
  {
    if items != [] {
      var p := RunOneSpec(s, acc.counters, acc.lastException, Some(items[0]));
      RunOneCallsNoHook(s, acc.counters, acc.lastException, Some(items[0]));
      if !(valueToStop.Some? && s.condition(items[0]) == valueToStop.value) {
        var next := Progress(if valueToStop.Some? then acc.result else p.result || acc.result,
                        p.counters, p.lastException, acc.calls + p.calls, false);
        LoopCallsNoHook(s, valueToStop, stopBefore, items[1..], next);
        var r := Loop(s, valueToStop, stopBefore, items[1..], next);
        assert r.calls[..|acc.calls|] == next.calls[..|acc.calls|];
      }
    }
  }

  /** `Run()`: every item is evaluated; the result is true iff the predicate
      holds for some item (false for a null source); the before-hook comes
      first and the after-hook last; every match is counted once. */
  lemma RunIsDisjunction<T, H>(s: Setup<T, H>, source: Option<seq<T>>, stopBefore: bool, ex: Option<Exception>)
    ensures var r := RunUntilSpec(s, source, None, stopBefore, ex);
      r.result == (source.Some? && exists i :: 0 <= i < |source.value| && s.condition(source.value[i])) &&
      r.counters.matches == (if source.Some? then CountMatching(s.condition, source.value) else 0) &&
      HookCall(s.onBefore) <= r.calls &&
      (s.onAfter.Some? ==> |r.calls| > 0 && r.calls[|r.calls| - 1] == Hook(s.onAfter.value)) &&
      Balanced(r.counters)
  {
    var start := Progress(false, NoCounts, ex, HookCall(s.onBefore), false);
    if source.Some? {
      LoopWithoutStop(s, stopBefore, source.value, start);
      LoopCallsNoHook(s, None, stopBefore, source.value, start);
      LoopKeepsBalance(s, None, stopBefore, source.value, start);
    }
  }

  /** `RunUntil(v, stopBefore)`: the result is true iff some item's predicate
      equals `v` (false for a null source). When it stops early the after-hook
      is skipped, so the only hook called is the before-hook; otherwise the
      after-hook is called last. */
  lemma RunUntilStops<T, H>(s: Setup<T, H>, source: Option<seq<T>>, v: bool, stopBefore: bool, ex: Option<Exception>)
    ensures var r := RunUntilSpec(s, source, Some(v), stopBefore, ex);
      r.result == (source.Some? && exists i :: 0 <= i < |source.value| && s.condition(source.value[i]) == v) &&
      HookCall(s.onBefore) <= r.calls &&
      (r.result ==> forall k :: |HookCall<T, H>(s.onBefore)| <= k < |r.calls| ==> !r.calls[k].Hook?) &&
      (!r.result && s.onAfter.Some? ==> |r.calls| > 0 && r.calls[|r.calls| - 1] == Hook(s.onAfter.value)) &&
      Balanced(r.counters)
  {
    var start := Progress(false, NoCounts, ex, HookCall(s.onBefore), false);
    if source.Some? {
      LoopWithStop(s, v, stopBefore, source.value, start);
      LoopCallsNoHook(s, Some(v), stopBefore, source.value, start);
      LoopKeepsBalance(s, Some(v), stopBefore, source.value, start);
    }
  }

  /** The index of the first item whose predicate equals `v`, or `|items|`. */
  function FirstTrigger<T>(condition: T -> bool, v: bool, items: seq<T>): (k: nat)
    ensures k <= |items|
    ensures k < |items| ==> condition(items[k]) == v
    ensures forall i :: 0 <= i < k ==> condition(items[i]) != v
  {
    if items == [] then 0
    else if condition(items[0]) == v then 0
    else 1 + FirstTrigger(condition, v, items[1..])
  }

  /** Stopping after rather than before differs only in that the triggering
      item is passed to `RunOne` once more before returning. */
  lemma {:induction false} StopAfterRunsTrigger<T, H>(s: Setup<T, H>, v: bool, items: seq<T>, acc: Progress<T, H>)
    requires FirstTrigger(s.condition, v, items) < |items|
    ensures var before := Loop(s, Some(v), true, items, acc);
      var after := Loop(s, Some(v), false, items, acc);
      var p := RunOneSpec(s, before.counters, before.lastException, Some(items[FirstTrigger(s.condition, v, items)]));
      after.counters == p.counters && after.lastException == p.lastException &&
      after.calls == before.calls + p.calls && after.result == before.result && after.stopped == before.stopped
    decreases |items|
  {
    if s.condition(items[0]) != v {
      var p := RunOneSpec(s, acc.counters, acc.lastException, Some(items[0]));
      var next := Progress(acc.result, p.counters, p.lastException, acc.calls + p.calls, false);
      StopAfterRunsTrigger(s, v, items[1..], next);
      assert items[1..][FirstTrigger(s.condition, v, items[1..])] == items[FirstTrigger(s.condition, v, items)];
    }
  }
}
