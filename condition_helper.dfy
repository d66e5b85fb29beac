/**
 * The fluent rule builder of ConditionHelper.cs: class `ConditionBuilder`,
 * whose methods reassign its predicate and callback fields and update its five
 * counters, and the static helpers of `ConditionBuilderHelper`.
 *
 * A callback is a reference of type `H`. Invoking one is outside the builder:
 * `RunOne` and `RunUntil` take the outcome each handler has on each item, and
 * return the calls they made, in order.
 */
module ConditionHelper {
  import opened Wrappers
  import opened ConditionEngine

  class ConditionBuilder<T(==,!new), H> {
    var condition: T -> bool
    var source: Option<seq<T>>
    var thenCallback: Option<H>
    var elseCallback: Option<H>
    var catchCallback: Option<H>
    var beforeRunCallback: Option<H>
    var afterRunCallback: Option<H>
    var key: string
    var lastSucceededCount: nat
    var lastFailedCount: nat
    var lastThenCount: nat
    var lastElseCount: nat
    var matchesCount: nat
    var lastException: Option<Exception>

    /** The five counters. */
    function Counts(): Counters
      reads this
    {
      Counters(lastSucceededCount, lastFailedCount, lastThenCount, lastElseCount, matchesCount)
    }

    /** What an evaluation depends on, given each handler's outcome. */
    function Config(outcome: (H, T) -> Outcome): Setup<T, H>
      reads this
    {
      Setup(condition, thenCallback, elseCallback, catchCallback,
            beforeRunCallback, afterRunCallback, outcome)
    }

    /** The callbacks, the name and the source are as they were. */
    twostate predicate SameCallbacks()
      reads this
    {
      thenCallback == old(thenCallback) && elseCallback == old(elseCallback) &&
      catchCallback == old(catchCallback) && beforeRunCallback == old(beforeRunCallback) &&
      afterRunCallback == old(afterRunCallback) && key == old(key) && source == old(source)
    }

    /** The counters and the last exception are as they were. */
    twostate predicate SameRunState()
      reads this
    {
      Counts() == old(Counts()) && lastException == old(lastException)
    }

    /** `new ConditionBuilder<T>().From(null)`: no source, the always-true
        predicate, no callbacks, an empty name and zero counters. */
    constructor ()
      ensures source == None && forall x :: condition(x)
      ensures thenCallback == None && elseCallback == None && catchCallback == None
      ensures beforeRunCallback == None && afterRunCallback == None
      ensures key == "" && Counts() == NoCounts && lastException == None
    {
      condition := x => true;
      source := None;
      thenCallback := None;
      elseCallback := None;
      catchCallback := None;
      beforeRunCallback := None;
      afterRunCallback := None;
      key := "";
      lastSucceededCount, lastFailedCount, lastThenCount, lastElseCount, matchesCount := 0, 0, 0, 0, 0;
      lastException := None;
    }

    /** `Name` (the setter) / `SetName`. */
    method SetName(name: string)
      modifies this
      ensures key == name && condition == old(condition) && source == old(source)
      ensures thenCallback == old(thenCallback) && elseCallback == old(elseCallback)
      ensures catchCallback == old(catchCallback) && beforeRunCallback == old(beforeRunCallback)
      ensures afterRunCallback == old(afterRunCallback) && SameRunState()
    {
      key := name;
    }

    /** `From(source)`: bind the data source and reset the predicate to
        "always true". */
    method From(source: Option<seq<T>>)
      modifies this
      ensures this.source == source && forall x :: condition(x)
      ensures thenCallback == old(thenCallback) && elseCallback == old(elseCallback)
      ensures catchCallback == old(catchCallback) && beforeRunCallback == old(beforeRunCallback)
      ensures afterRunCallback == old(afterRunCallback) && key == old(key) && SameRunState()
    {
      this.source := source;
      condition := x => true;
    }

    /** `From(singleItem)`: a one-item source. */
    method FromItem(singleItem: T)
      modifies this
      ensures source == Some([singleItem]) && forall x :: condition(x)
      ensures thenCallback == old(thenCallback) && elseCallback == old(elseCallback)
      ensures catchCallback == old(catchCallback) && beforeRunCallback == old(beforeRunCallback)
      ensures afterRunCallback == old(afterRunCallback) && key == old(key) && SameRunState()
    {
      From(Some([singleItem]));
    }

    /** `Filter(predicate)` (parameter `filter`): the accumulated predicate and the new one. */
    method Filter(filter: T -> bool)
      modifies this
      ensures forall x :: condition(x) == (old(condition)(x) && filter(x))
      ensures SameCallbacks() && SameRunState()
    {
      var originalCondition := condition;
      condition := x => originalCondition(x) && filter(x);
    }

    /** `And(otherCondition)`: the accumulated predicate and the new one. */
    method And(otherCondition: T -> bool)
      modifies this
      ensures forall x :: condition(x) == (old(condition)(x) && otherCondition(x))
      ensures SameCallbacks() && SameRunState()
    {
      var originalCondition := condition;
      condition := x => originalCondition(x) && otherCondition(x);
    }

    /** `Or(otherCondition)`: the accumulated predicate or the new one. */
    method Or(otherCondition: T -> bool)
      modifies this
      ensures forall x :: condition(x) == (old(condition)(x) || otherCondition(x))
      ensures SameCallbacks() && SameRunState()
    {
      var originalCondition := condition;
      condition := x => originalCondition(x) || otherCondition(x);
    }

    /** `InArray(arraySelector, value)`: the accumulated predicate and "the
        selected collection is not null and contains `value`". */
    method InArray(arraySelector: T -> Option<seq<T>>, value: T)
      modifies this
      ensures forall x :: (condition(x) ==
        (old(condition)(x) && arraySelector(x).Some? && value in arraySelector(x).value))
      ensures SameCallbacks() && SameRunState()
    {
      var originalCondition := condition;
      condition := x => originalCondition(x) && (var a := arraySelector(x); a.Some? && value in a.value);
    }

    /** `Not()`: negate the whole accumulated predicate. */
    method Not()
      modifies this
      ensures forall x :: condition(x) == !old(condition)(x)
      ensures SameCallbacks() && SameRunState()
    {
      var originalCondition := condition;
      condition := x => !originalCondition(x);
    }

    /** `BeforeRun(callback)`. */
    method BeforeRun(callback: H)
      modifies this
      ensures beforeRunCallback == Some(callback) && condition == old(condition)
      ensures thenCallback == old(thenCallback) && elseCallback == old(elseCallback)
      ensures catchCallback == old(catchCallback) && afterRunCallback == old(afterRunCallback)
      ensures key == old(key) && source == old(source) && SameRunState()
    {
      beforeRunCallback := Some(callback);
    }

    /** `AfterRun(callback)`. */
    method AfterRun(callback: H)
      modifies this
      ensures afterRunCallback == Some(callback) && condition == old(condition)
      ensures thenCallback == old(thenCallback) && elseCallback == old(elseCallback)
      ensures catchCallback == old(catchCallback) && beforeRunCallback == old(beforeRunCallback)
      ensures key == old(key) && source == old(source) && SameRunState()
    {
      afterRunCallback := Some(callback);
    }

    /** `Then(callback)`: the handler for items the predicate accepts. */
    method Then(callback: H)
      modifies this
      ensures thenCallback == Some(callback) && condition == old(condition)
      ensures elseCallback == old(elseCallback) && catchCallback == old(catchCallback)
      ensures beforeRunCallback == old(beforeRunCallback) && afterRunCallback == old(afterRunCallback)
      ensures key == old(key) && source == old(source) && SameRunState()
    {
      thenCallback := Some(callback);
    }

    /** `Then(delegateName)`, with the name looked up in `registry`; an
        unknown name leaves no then-handler installed. */
    method ThenNamed(delegateName: string, registry: map<string, H>)
      modifies this
      ensures thenCallback == (if delegateName in registry then Some(registry[delegateName]) else None)
      ensures condition == old(condition)
      ensures elseCallback == old(elseCallback) && catchCallback == old(catchCallback)
      ensures beforeRunCallback == old(beforeRunCallback) && afterRunCallback == old(afterRunCallback)
      ensures key == old(key) && source == old(source) && SameRunState()
    {
      thenCallback := if delegateName in registry then Some(registry[delegateName]) else None;
    }

    /** `Else(callback)`: the handler for items the predicate rejects. */
    method Else(callback: H)
      modifies this
      ensures elseCallback == Some(callback) && condition == old(condition)
      ensures thenCallback == old(thenCallback) && catchCallback == old(catchCallback)
      ensures beforeRunCallback == old(beforeRunCallback) && afterRunCallback == old(afterRunCallback)
      ensures key == old(key) && source == old(source) && SameRunState()
    {
      elseCallback := Some(callback);
    }

    /** `Else(delegateName)`, with the name looked up in `registry`. */
    method ElseNamed(delegateName: string, registry: map<string, H>)
      modifies this
      ensures elseCallback == (if delegateName in registry then Some(registry[delegateName]) else None)
      ensures condition == old(condition)
      ensures thenCallback == old(thenCallback) && catchCallback == old(catchCallback)
      ensures beforeRunCallback == old(beforeRunCallback) && afterRunCallback == old(afterRunCallback)
      ensures key == old(key) && source == old(source) && SameRunState()
    {
      elseCallback := if delegateName in registry then Some(registry[delegateName]) else None;
    }

    /** `Catch(callback)`: called with the exception a handler threw. */
    method Catch(callback: H)
      modifies this
      ensures catchCallback == Some(callback) && condition == old(condition)
      ensures thenCallback == old(thenCallback) && elseCallback == old(elseCallback)
      ensures beforeRunCallback == old(beforeRunCallback) && afterRunCallback == old(afterRunCallback)
      ensures key == old(key) && source == old(source) && SameRunState()
    {
      catchCallback := Some(callback);
    }

    /** `ClearCounters`: all five counters to zero; nothing else changes, so a
        second call changes nothing. */
    method ClearCounters()
      modifies this
      ensures Counts() == NoCounts && lastException == old(lastException)
      ensures condition == old(condition) && SameCallbacks()
    {
      lastSucceededCount := 0;
      lastFailedCount := 0;
      lastThenCount := 0;
      lastElseCount := 0;
      matchesCount := 0;
    }

    /** `RunOne(item)`: evaluate the predicate on one item and invoke the then-
        or else-handler; a handler's exception is recorded and handed to the
        catch callback, never propagated. */
    method RunOne(item: Option<T>, outcome: (H, T) -> Outcome) returns (result: bool, calls: seq<Call<T, H>>)
      modifies this
      ensures var p := RunOneSpec(old(Config(outcome)), old(Counts()), old(lastException), item);
        result == p.result && Counts() == p.counters && lastException == p.lastException && calls == p.calls
      ensures condition == old(condition) && SameCallbacks()
    {
      calls := [];
      if item.None? {
        return false, calls;
      }
      var x := item.value;
      result := false;
      if condition(x) {
        matchesCount := matchesCount + 1;
        result := true;
        if thenCallback.Some? {
          lastThenCount := lastThenCount + 1;
          calls := [Invoke(thenCallback.value, x)];
          match outcome(thenCallback.value, x)
          case Completed =>
            result := true;
            lastSucceededCount := lastSucceededCount + 1;
          case Threw(ex) =>
            lastException := Some(ex);
            lastFailedCount := lastFailedCount + 1;
            if catchCallback.Some? {
              calls := calls + [CatchInvoke(catchCallback.value, x, ex)];
            }
        }
      } else {
        if elseCallback.Some? {
          lastElseCount := lastElseCount + 1;
          calls := [Invoke(elseCallback.value, x)];
          match outcome(elseCallback.value, x)
          case Completed =>
            lastSucceededCount := lastSucceededCount + 1;
          case Threw(ex) =>
            lastException := Some(ex);
            lastFailedCount := lastFailedCount + 1;
            if catchCallback.Some? {
              calls := calls + [CatchInvoke(catchCallback.value, x, ex)];
            }
        }
      }
    }

    /** `RunOne(index)` with the corrected bound: the item at a position of
        the source is run, any other index returns false and changes nothing. */
    method RunOneAt(index: int, outcome: (H, T) -> Outcome) returns (result: bool, calls: seq<Call<T, H>>)
      modifies this
      ensures var p := RunAt(old(Config(outcome)), old(Counts()), old(lastException), old(source), index);
        result == p.result && Counts() == p.counters && lastException == p.lastException && calls == p.calls
      ensures condition == old(condition) && SameCallbacks()
    {
      if source.Some? && 0 <= index < |source.value| {
        result, calls := RunOne(Some(source.value[index]), outcome);
      } else {
        result, calls := RunOne(None, outcome);
      }
    }

    /** `Run()`: `RunUntil` without a stop value. */
    method Run(outcome: (H, T) -> Outcome) returns (result: bool, calls: seq<Call<T, H>>)
      modifies this
      ensures var r := RunUntilSpec(old(Config(outcome)), old(source), None, true, old(lastException));
        result == r.result && Counts() == r.counters && lastException == r.lastException && calls == r.calls
      ensures result == (source.Some? && exists i :: 0 <= i < |source.value| && condition(source.value[i]))
      ensures condition == old(condition) && SameCallbacks()
    {
      result, calls := RunUntil(None, true, outcome);
      RunIsDisjunction(old(Config(outcome)), old(source), true, old(lastException));
    }

    /** `RunUntil(valueToStop, stopBefore)`: clear the counters, call the
        before-hook, then run every item of the source in order; an item whose
        predicate equals `valueToStop` ends the run with `true` (after one more
        `RunOne` on it when `stopBefore` is false) and skips the after-hook. */
    method RunUntil(valueToStop: Option<bool>, stopBefore: bool, outcome: (H, T) -> Outcome)
      returns (result: bool, calls: seq<Call<T, H>>)
      modifies this
      ensures var r := RunUntilSpec(old(Config(outcome)), old(source), valueToStop, stopBefore, old(lastException));
        result == r.result && Counts() == r.counters && lastException == r.lastException && calls == r.calls
      ensures condition == old(condition) && SameCallbacks()
    {
      ClearCounters();
      calls := HookCall(beforeRunCallback);
      result := false;
      ghost var s := Config(outcome);
      ghost var start := Progress(false, NoCounts, lastException, calls, false);
      if source.Some? {
        var items := source.value;
        var i := 0;
        while i < |items|
          invariant 0 <= i <= |items|
          invariant Config(outcome) == s && source == old(source) && SameCallbacks()
          invariant Loop(s, valueToStop, stopBefore, items[i..], Progress(result, Counts(), lastException, calls, false))
                    == Loop(s, valueToStop, stopBefore, items, start)
          invariant valueToStop.Some? ==> !result
        {
          var x := items[i];
          assert items[i..][0] == x && items[i..][1..] == items[i + 1..];
          var conditionResult := condition(x);
          if valueToStop.Some? && conditionResult == valueToStop.value {
            if !stopBefore {
              var _, c := RunOne(Some(x), outcome);
              calls := calls + c;
            }
            return true, calls;
          } else {
            var r, c := RunOne(Some(x), outcome);
            calls := calls + c;
            if valueToStop.None? {
              result := r || result;
            }
          }
          i := i + 1;
        }
      }
      calls := calls + HookCall(afterRunCallback);
    }
  }

  /** `ConditionBuilderHelper.Name(name)`: a fresh builder with no source, the
      always-true predicate and the given name. */
  method Name<T(==,!new), H>(name: string) returns (b: ConditionBuilder<T, H>)
    ensures fresh(b)
    ensures b.key == name && b.source == None && forall x :: b.condition(x)
    ensures b.thenCallback == None && b.elseCallback == None && b.catchCallback == None
    ensures b.beforeRunCallback == None && b.afterRunCallback == None
    ensures b.Counts() == NoCounts && b.lastException == None
  {
    b := new ConditionBuilder<T, H>();
    b.SetName(name);
  }

  /** `ConditionBuilderHelper.From(source)`. */
  method From<T(==,!new), H>(source: Option<seq<T>>) returns (b: ConditionBuilder<T, H>)
    ensures fresh(b)
    ensures b.source == source && forall x :: b.condition(x)
    ensures b.thenCallback == None && b.elseCallback == None && b.catchCallback == None
    ensures b.beforeRunCallback == None && b.afterRunCallback == None
    ensures b.key == "" && b.Counts() == NoCounts
  {
    b := new ConditionBuilder<T, H>();
    b.From(source);
  }

  /** `ConditionBuilderHelper.From(singleItem)`. */
  method FromItem<T(==,!new), H>(singleItem: T) returns (b: ConditionBuilder<T, H>)
    ensures fresh(b)
    ensures b.source == Some([singleItem]) && forall x :: b.condition(x)
    ensures b.thenCallback == None && b.elseCallback == None && b.catchCallback == None
    ensures b.beforeRunCallback == None && b.afterRunCallback == None
    ensures b.key == "" && b.Counts() == NoCounts
  {
    b := new ConditionBuilder<T, H>();
    b.FromItem(singleItem);
  }

  /** `ConditionBuilderHelper.Filter(predicate)` as written: it ignores
      `predicate`, so the new builder accepts every item. */
  method Filter<T(==,!new), H>(filter: T -> bool) returns (b: ConditionBuilder<T, H>)
    ensures fresh(b)
    ensures b.source == None && forall x :: b.condition(x)
    ensures b.thenCallback == None && b.elseCallback == None && b.catchCallback == None
    ensures b.beforeRunCallback == None && b.afterRunCallback == None
    ensures b.key == "" && b.Counts() == NoCounts
  {
    b := new ConditionBuilder<T, H>();
    b.From(None);
  }

  /** The as-written helper accepts an item that its predicate rejects. */
  method FilterIgnoresPredicate() returns (accepted: bool)
    ensures accepted
  {
    var rejectAll: int -> bool := x => false;
    var b := Filter<int, int>(rejectAll);
    accepted := b.condition(0) && !rejectAll(0);
  }

  /** `ConditionBuilderHelper.Filter(predicate)` as evidently intended: a
      builder with no source whose predicate is exactly `filter`. */
  method FilterBy<T(==,!new), H>(filter: T -> bool) returns (b: ConditionBuilder<T, H>)
    ensures fresh(b)
    ensures b.source == None && forall x :: b.condition(x) == filter(x)
    ensures b.thenCallback == None && b.elseCallback == None && b.catchCallback == None
    ensures b.beforeRunCallback == None && b.afterRunCallback == None
    ensures b.key == "" && b.Counts() == NoCounts
  {
    b := new ConditionBuilder<T, H>();
    b.From(None);
    b.Filter(filter);
  }
}
