/**
 * The reference routing policy of SourceRulesFactory.cs: four rules, tried in
 * this order, each a conjunction over the item's fields and the clock.
 *
 * Subtracting a nullable timestamp from the clock gives a nullable span, and a
 * comparison with a null span is false, so rules 2 to 4 can only match items
 * whose first attempt is set. The clock is read once per evaluation here
 * (`Observation.now`), where the original reads it in every comparison.
 */
module SourceRulesFactory {
  import opened Wrappers
  import opened DataDefinition
  import opened ConditionEngine
  import opened ConditionHelper
  import opened BaseRulesHandlers

  const SampleKey: string := "myDataSourceSample"
  const ThirtySeconds: int := 30 * TicksPerSecond
  const FiveSeconds: int := 5 * TicksPerSecond

  /** An item as the rules see it, at the clock reading `now`. */
  datatype Observation = Observation(item: SourceState, now: int)

  /** `DateTime.Now - t` for a nullable `t`. */
  function Since(now: int, t: Option<int>): Option<int> {
    if t.Some? then Some(now - t.value) else None
  }

  /** The lifted `span > bound`: false for a null span. */
  predicate Exceeds(span: Option<int>, bound: int) {
    span.Some? && span.value > bound
  }

  /** The lifted `span < bound`: false for a null span. */
  predicate Within(span: Option<int>, bound: int) {
    span.Some? && span.value < bound
  }

  // The conjuncts, one per `And(...)` of the rule list.
  predicate NoAction(o: Observation) { o.item.action.None? }
  predicate SampleKeyed(o: Observation) { o.item.key == SampleKey }
  predicate NeverAttempted(o: Observation) { o.item.firstAttempt.None? }
  predicate InError(o: Observation) { o.item.status == "Error" }
  predicate Attempted(o: Observation) { o.item.firstAttempt.Some? }
  predicate FirstOverThirty(o: Observation) { Exceeds(Since(o.now, o.item.firstAttempt), ThirtySeconds) }
  predicate FirstUnderThirty(o: Observation) { Within(Since(o.now, o.item.firstAttempt), ThirtySeconds) }
  predicate LastSet(o: Observation) { o.item.lastAttempt.Some? }
  predicate LastUnderFive(o: Observation) { Within(Since(o.now, o.item.lastAttempt), FiveSeconds) }
  predicate LastUnsetOrOverFive(o: Observation) {
    o.item.lastAttempt.None? || Exceeds(Since(o.now, o.item.lastAttempt), FiveSeconds)
  }

  /** Rule `k` (0-based) of the list holds for `o`. */
  predicate RuleHolds(k: nat, o: Observation)
    ensures RuleHolds(k, o) ==> k < RuleCount && o.item.key == SampleKey
  {
    match k
    case 0 => NoAction(o) && SampleKeyed(o) && NeverAttempted(o)
    case 1 => SampleKeyed(o) && InError(o) && Attempted(o) && FirstOverThirty(o)
    case 2 => SampleKeyed(o) && InError(o) && FirstUnderThirty(o) && LastSet(o) && LastUnderFive(o)
    case 3 => SampleKeyed(o) && InError(o) && FirstUnderThirty(o) && LastUnsetOrOverFive(o)
    case _ => false
  }

  const RuleCount: nat := 4

  const RuleNames: seq<string> := [
    "myDataSourceSample never executed",
    "myDataSourceSample is over 30 seconds",
    "myDataSourceSample first execution less than 30 seconds and last execution was less than 5 seconds",
    "myDataSourceSample is less than 30 seconds but last execution was more than 5 seconds"
  ]

  /** The handler each rule is bound to. */
  const RuleHandlers: seq<HandlerKind> := [ExecuteHandler, DismissHandler, EnqueueHandler, ExecuteHandler]

  /** The index of the first rule that holds, if any. */
  function FirstMatch(o: Observation): (r: Option<nat>)
    ensures r.Some? ==> r.value < RuleCount && RuleHolds(r.value, o)
    ensures r.Some? ==> forall k :: 0 <= k < r.value ==> !RuleHolds(k, o)
    ensures r.None? ==> forall k :: 0 <= k < RuleCount ==> !RuleHolds(k, o)
  {
    if RuleHolds(0, o) then Some(0)
    else if RuleHolds(1, o) then Some(1)
    else if RuleHolds(2, o) then Some(2)
    else if RuleHolds(3, o) then Some(3)
    else None
  }

  /** How each invoked handler ends on an observed item. */
  function Outcomes(h: HandlerKind, o: Observation): Outcome {
    HandlerOutcome(h, o.item)
  }

  /** The four rules in plain terms. */
  lemma RulesInPlainTerms(o: Observation)
    ensures var s := o.item;
      (RuleHolds(0, o) <==> s.action.None? && s.key == SampleKey && s.firstAttempt.None?) &&
      (RuleHolds(1, o) <==> s.key == SampleKey && s.status == "Error" && s.firstAttempt.Some? &&
                            o.now - s.firstAttempt.value > ThirtySeconds) &&
      (RuleHolds(2, o) <==> s.key == SampleKey && s.status == "Error" && s.firstAttempt.Some? &&
                            o.now - s.firstAttempt.value < ThirtySeconds && s.lastAttempt.Some? &&
                            o.now - s.lastAttempt.value < FiveSeconds) &&
      (RuleHolds(3, o) <==> s.key == SampleKey && s.status == "Error" && s.firstAttempt.Some? &&
                            o.now - s.firstAttempt.value < ThirtySeconds &&
                            (s.lastAttempt.None? || o.now - s.lastAttempt.value > FiveSeconds))
  {
  }

  /** Rules 2 to 4 only hold for items whose first attempt is set. */
  lemma LaterRulesNeedFirstAttempt(k: nat, o: Observation)
    requires 1 <= k < RuleCount && RuleHolds(k, o)
    ensures o.item.firstAttempt.Some?
  {
  }

  /** At most one rule holds for any item, so the first match is the only one. */
  lemma RulesAreDisjoint(j: nat, k: nat, o: Observation)
    requires j < k < RuleCount
    ensures !(RuleHolds(j, o) && RuleHolds(k, o))
  {
  }

  /** The first match is the one rule that holds. */
  lemma FirstMatchIsOnlyMatch(o: Observation, k: nat)
    requires k < RuleCount
    ensures FirstMatch(o) == Some(k) <==> RuleHolds(k, o)
  {
    if RuleHolds(k, o) && FirstMatch(o) != Some(k) {
      RulesAreDisjoint(FirstMatch(o).value, k, o);
    }
  }

  /** An item exactly thirty seconds old matches none of rules 2 to 4, and a
      last attempt exactly five seconds ago matches neither rule 3 nor rule 4. */
  lemma BoundariesMatchNothing(o: Observation)
    ensures o.item.firstAttempt == Some(o.now - ThirtySeconds) ==>
              !RuleHolds(1, o) && !RuleHolds(2, o) && !RuleHolds(3, o)
    ensures o.item.lastAttempt == Some(o.now - FiveSeconds) ==> !RuleHolds(2, o) && !RuleHolds(3, o)
  {
  }

  /** An item with another key matches no rule. */
  lemma OtherKeysMatchNothing(o: Observation)
    requires o.item.key != SampleKey
    ensures FirstMatch(o) == None
  {
  }

  /** The handler bound to a rule that holds always completes: Enqueue and
      Dismiss are never reached with an unset first attempt. */
  lemma MatchedHandlerCompletes(k: nat, o: Observation)
    requires k < RuleCount && RuleHolds(k, o)
    ensures Outcomes(RuleHandlers[k], o) == Completed
  {
    if k > 0 {
      LaterRulesNeedFirstAttempt(k, o);
    }
  }

  /** Builder `b` is rule `k` of the list: its name, predicate and bindings. */
  ghost predicate RuleWired(b: ConditionBuilder<Observation, HandlerKind>, k: nat)
    reads b
  {
    k < RuleCount && b.key == RuleNames[k] &&
    (forall o :: b.condition(o) == RuleHolds(k, o)) &&
    b.thenCallback == Some(RuleHandlers[k]) && b.elseCallback == None && b.catchCallback == None &&
    b.beforeRunCallback == None && b.afterRunCallback == None && b.source == None
  }

  /** Rule 1: never executed, bound by name to Execute. */
  method NeverExecutedRule() returns (b: ConditionBuilder<Observation, HandlerKind>)
    ensures fresh(b) && RuleWired(b, 0) && b.Counts() == NoCounts
  {
    b := Name<Observation, HandlerKind>(RuleNames[0]);
    b.And(NoAction);
    b.And(SampleKeyed);
    b.And(NeverAttempted);
    b.ThenNamed("BaseRuleHandlers.Execute", HandlerNames);
  }

  /** Rule 2: in error for over thirty seconds, bound to Dismiss. */
  method OverThirtySecondsRule() returns (b: ConditionBuilder<Observation, HandlerKind>)
    ensures fresh(b) && RuleWired(b, 1) && b.Counts() == NoCounts
  {
    b := Name<Observation, HandlerKind>(RuleNames[1]);
    b.And(SampleKeyed);
    b.And(InError);
    b.And(Attempted);
    b.And(FirstOverThirty);
    b.Then(DismissHandler);
  }

  /** Rule 3: in error for under thirty seconds and retried under five
      seconds ago, bound to Enqueue. */
  method RecentRetryRule() returns (b: ConditionBuilder<Observation, HandlerKind>)
    ensures fresh(b) && RuleWired(b, 2) && b.Counts() == NoCounts
  {
    b := Name<Observation, HandlerKind>(RuleNames[2]);
    b.And(SampleKeyed);
    b.And(InError);
    b.And(FirstUnderThirty);
    b.And(LastSet);
    b.And(LastUnderFive);
    b.Then(EnqueueHandler);
  }

  /** Rule 4: in error for under thirty seconds and not retried in the last
      five seconds, bound to Execute. */
  method DueRetryRule() returns (b: ConditionBuilder<Observation, HandlerKind>)
    ensures fresh(b) && RuleWired(b, 3) && b.Counts() == NoCounts
  {
    b := Name<Observation, HandlerKind>(RuleNames[3]);
    b.And(SampleKeyed);
    b.And(InError);
    b.And(FirstUnderThirty);
    b.And(LastUnsetOrOverFive);
    b.Then(ExecuteHandler);
  }

  /** `GetRules`: four fresh builders, in order, each wired as its rule. */
  method GetRules() returns (rules: seq<ConditionBuilder<Observation, HandlerKind>>)
    ensures |rules| == RuleCount
    ensures forall k :: 0 <= k < RuleCount ==> fresh(rules[k]) && RuleWired(rules[k], k)
    ensures forall k :: 0 <= k < RuleCount ==> rules[k].Counts() == NoCounts
    ensures forall j, k :: 0 <= j < k < RuleCount ==> rules[j] != rules[k]
  {
    var neverExecuted := NeverExecutedRule();
    var overThirty := OverThirtySecondsRule();
    var recentRetry := RecentRetryRule();
    var dueRetry := DueRetryRule();
    rules := [neverExecuted, overThirty, recentRetry, dueRetry];
  }
}
