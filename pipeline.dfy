/**
 * The orchestration of Program.cs: three queues wired by dependencies, the
 * rule list, the handler library, the list of finished items, and the
 * item-received handlers the queues deliver to.
 *
 * Each queue's processing loop is modelled one iteration at a time
 * (`MainStep`, `RetryStep`, `EvaluationStep`); the clock reading, the success
 * draw of Execute and the batch the data factory would produce are
 * parameters.
 */
module Pipeline {
  import opened Wrappers
  import opened DataDefinition
  import opened QueueSimulation
  import opened ConditionEngine
  import opened ConditionHelper
  import opened BaseRulesHandlers
  import opened SourceRulesFactory

  /** New items are only fed in while fewer than this many are in play. */
  const Cap: int := 500

  /** The item state after `processQueueItem`, given the state `s` with the
      cycle already counted: the first matching rule's handler applied, or
      nothing. */
  function Dispatched(s: SourceState, now: int, succeeded: bool): SourceState
  {
    match FirstMatch(Observation(s, now))
    case None => s
    case Some(k) => Applied(RuleHandlers[k], s, RuleNames[k], now, succeeded)
  }

  /** The queue `processQueueItem` sends the item to, if any. */
  function DispatchRoute(s: SourceState, now: int, succeeded: bool): Option<Destination>
  {
    match FirstMatch(Observation(s, now))
    case None => None
    case Some(k) => Some(Route(RuleHandlers[k], succeeded))
  }

  /** The trickle-in guard: the main queue still has work and the total in
      play is under the cap. */
  predicate FeedMore(mainCount: int, retryCount: int, evaluationCount: int, finishedCount: int) {
    mainCount > 0 && mainCount + retryCount + evaluationCount + finishedCount < Cap
  }

  /** The counters of the rule that matched, after its `RunOne`. */
  function Matched(c: Counters): Counters {
    c.(matches := c.matches + 1, thenCount := c.thenCount + 1, succeeded := c.succeeded + 1)
  }

  /** The rule counters after a dispatch whose first matching rule is
      `first`: that rule's match, then and success counts move, no other. */
  function Moved(before: seq<Counters>, first: Option<nat>): seq<Counters>
  {
    if first.Some? && first.value < |before| then before[first.value := Matched(before[first.value])] else before
  }

  /** Only the first matching rule's counters move, by one match, one
      then-call and one success each; with no match nothing moves. */
  lemma MovedMovesOnlyFirst(before: seq<Counters>, first: Option<nat>)
    ensures |Moved(before, first)| == |before|
    ensures forall k :: 0 <= k < |before| && first != Some(k) ==> Moved(before, first)[k] == before[k]
    ensures first.Some? && first.value < |before| ==>
      Moved(before, first)[first.value].matches == before[first.value].matches + 1 &&
      Moved(before, first)[first.value].thenCount == before[first.value].thenCount + 1 &&
      Moved(before, first)[first.value].succeeded == before[first.value].succeeded + 1 &&
      Moved(before, first)[first.value].elseCount == before[first.value].elseCount &&
      Moved(before, first)[first.value].failed == before[first.value].failed
  {
  }

  /** Scenario: an item of the sample key that was never run is executed: it
      gets a first attempt and one attempt, and goes to exactly one of the
      retry and evaluation queues. */
  lemma NeverRunItemIsExecuted(s: SourceState, now: int, succeeded: bool)
    requires s.key == SampleKey && s.action.None? && s.firstAttempt.None?
    ensures var r := Dispatched(s, now, succeeded);
      r.firstAttempt == Some(now) && r.lastAttempt == Some(now) && r.attempts == s.attempts + 1 &&
      DispatchRoute(s, now, succeeded) == Some(if succeeded then Evaluation else Retry)
  {
    assert RuleHolds(0, Observation(s, now));
  }

  /** Scenario: an item in error whose first attempt is 35 seconds old is
      dismissed to evaluation with its status kept. */
  lemma StaleErrorIsDismissed(s: SourceState, now: int, succeeded: bool)
    requires s.key == SampleKey && s.status == "Error" && s.firstAttempt == Some(now - 35 * TicksPerSecond)
    ensures var r := Dispatched(s, now, succeeded);
      r.action == Some("DISMISSED") && r.status == "Error" && r.attempts == s.attempts &&
      DispatchRoute(s, now, succeeded) == Some(Evaluation)
  {
    assert RuleHolds(1, Observation(s, now));
  }

  /** Scenario: an item in error first tried 10 seconds ago and last tried 2
      seconds ago is put back on the retry queue, its attempts unchanged. */
  lemma RecentErrorIsEnqueued(s: SourceState, now: int, succeeded: bool)
    requires s.key == SampleKey && s.status == "Error"
    requires s.firstAttempt == Some(now - 10 * TicksPerSecond) && s.lastAttempt == Some(now - 2 * TicksPerSecond)
    ensures var r := Dispatched(s, now, succeeded);
      r.action == Some("ENQUEUED") && r.status == "Error" && r.attempts == s.attempts &&
      DispatchRoute(s, now, succeeded) == Some(Retry)
  {
    assert RuleHolds(2, Observation(s, now));
  }

  /** Dispatch never shortens the log, lowers the attempt count or moves a
      first attempt that was set, and an item no rule matches is neither
      changed nor routed. */
  lemma DispatchOnlyGrows(s: SourceState, now: int, succeeded: bool)
    ensures var r := Dispatched(s, now, succeeded);
      |s.log| <= |r.log| && r.log[..|s.log|] == s.log && s.attempts <= r.attempts &&
      r.cycles == s.cycles && (s.firstAttempt.Some? ==> r.firstAttempt == s.firstAttempt) &&
      (DispatchRoute(s, now, succeeded).None? ==> r == s)
  {
    match FirstMatch(Observation(s, now))
    case None =>
    case Some(k) => HandlersOnlyGrow(RuleHandlers[k], s, RuleNames[k], now, succeeded);
  }

  /** The `foreach` that adds a batch to a queue, in order. */
  method AddAll(q: QueueSimulator<Source>, batch: seq<Source>)
    modifies q
    ensures q.items == old(q.items) + batch
    ensures q.stop == old(q.stop) && q.dependencies == old(q.dependencies) && q.uid == old(q.uid)
    ensures q.minDelayTime == old(q.minDelayTime) && q.maxDelayTime == old(q.maxDelayTime)
  {
    var i := 0;
    while i < |batch|
      invariant 0 <= i <= |batch|
      invariant q.items == old(q.items) + batch[..i]
      invariant q.stop == old(q.stop) && q.dependencies == old(q.dependencies) && q.uid == old(q.uid)
      invariant q.minDelayTime == old(q.minDelayTime) && q.maxDelayTime == old(q.maxDelayTime)
    {
      q.Add(batch[i]);
      i := i + 1;
    }
  }

  /** The three queues of `Main` with their delays and identifiers: retry
      depends on main, evaluation on main and retry, main on nothing. */
  method NewQueues() returns (m: QueueSimulator<Source>, r: QueueSimulator<Source>, e: QueueSimulator<Source>)
    ensures fresh(m) && fresh(r) && fresh(e) && m != r && m != e && r != e
    ensures m.items == [] && r.items == [] && e.items == [] && !m.stop && !r.stop && !e.stop
    ensures m.dependencies == [] && r.dependencies == [m] && e.dependencies == [m, r]
    ensures m.uid == "main" && r.uid == "retry" && e.uid == "evaluation"
    ensures m.minDelayTime == 10 && m.maxDelayTime == 15
    ensures r.minDelayTime == 2 && r.maxDelayTime == 4
    ensures e.minDelayTime == 10 && e.maxDelayTime == 50
  {
    m := new QueueSimulator<Source>(10, 15, Some("main"), "", None);
    r := new QueueSimulator<Source>(2, 4, Some("retry"), "", None);
    e := new QueueSimulator<Source>(10, 50, Some("evaluation"), "", None);
    r.AddDependencies(Some([m]));
    e.AddDependencies(Some([m, r]));
  }

  /** `RunOne` of rule `k` on one observation: it returns whether the rule
      holds, and when it does, the rule's handler was invoked and completed
      and the match, then and success counters went up by one; otherwise no
      counter moved. */
  method TryRule(rule: ConditionBuilder<Observation, HandlerKind>, k: nat, o: Observation)
    returns (matched: bool, calls: seq<Call<Observation, HandlerKind>>)
    requires RuleWired(rule, k)
    modifies rule
    ensures RuleWired(rule, k)
    ensures matched == RuleHolds(k, o)
    ensures matched ==> calls == [Invoke(RuleHandlers[k], o)]
    ensures rule.Counts() == if matched then Matched(old(rule.Counts())) else old(rule.Counts())
  {
    RunOneCounters(rule.Config(Outcomes), rule.Counts(), rule.lastException, o);
    RunOneResult(rule.Config(Outcomes), rule.Counts(), rule.lastException, o);
    if RuleHolds(k, o) {
      MatchedHandlerCompletes(k, o);
    }
    matched, calls := rule.RunOne(Some(o), Outcomes);
  }

  class Pipeline {
    var main: QueueSimulator<Source>
    var retry: QueueSimulator<Source>
    var evaluation: QueueSimulator<Source>
    var finished: seq<Source>
    var rules: seq<ConditionBuilder<Observation, HandlerKind>>
    var handlers: BaseRuleHandlers

    /** The wiring `Main` sets up. */
    ghost predicate Valid()
      reads this, main, retry, evaluation, handlers, rules
    {
      QueuesWired() && RulesWired()
    }

    /** Retry depends on main, evaluation on main and retry, main on nothing;
        the handlers send to retry and evaluation. */
    ghost predicate QueuesWired()
      reads this, main, retry, evaluation, handlers
    {
      main != retry && main != evaluation && retry != evaluation &&
      main.dependencies == [] && retry.dependencies == [main] && evaluation.dependencies == [main, retry] &&
      handlers.retryQueue == retry && handlers.evaluationQueue == evaluation
    }

    /** The rule list is the four rules of the policy, as distinct objects. */
    ghost predicate RulesWired()
      reads this, rules
    {
      |rules| == RuleCount &&
      (forall j, k :: 0 <= j < k < RuleCount ==> rules[j] != rules[k]) &&
      (forall k :: 0 <= k < RuleCount ==> RuleWired(rules[k], k))
    }

    /** The rule objects. */
    function RuleSet(): set<object>
      reads this
    {
      set k | 0 <= k < |rules| :: rules[k]
    }

    /** The counters of the four rules, in list order. */
    function RuleCounts(): seq<Counters>
      reads this, rules
    {
      if |rules| == RuleCount then [rules[0].Counts(), rules[1].Counts(), rules[2].Counts(), rules[3].Counts()] else []
    }

    /** The objects the item-received handler of main and retry may change,
        besides the item. */
    function Frame(): set<object>
      reads this
    {
      {main, retry, evaluation} + RuleSet()
    }

    /** The item after dispatch, given its state `s0` and the contents of
        retry and evaluation before: the cycle counted and the first matching
        rule's handler applied, and the item at the tail of the queue that
        handler routed it to. */
    predicate Routed(item: Source, s0: SourceState, retry0: seq<Source>, evaluation0: seq<Source>,
                     counts0: seq<Counters>, now: int, succeeded: bool)
      reads this, item, retry, evaluation, rules
    {
      var counted := s0.(cycles := s0.cycles + 1);
      Delivered(item, counted, retry0, evaluation0, now, succeeded) && CountsMoved(counts0, counted, now)
    }

    /** The rule counters, given their values `counts0` before the rules ran
        on an item in state `s`: only the first matching rule's moved. */
    predicate CountsMoved(counts0: seq<Counters>, s: SourceState, now: int)
      reads this, rules
    {
      RuleCounts() == Moved(counts0, FirstMatch(Observation(s, now)))
    }

    /** The item after its matching rule's handler ran, given its state `s`
        with the cycle already counted. */
    predicate Delivered(item: Source, s: SourceState, retry0: seq<Source>, evaluation0: seq<Source>,
                        now: int, succeeded: bool)
      reads this, item, retry, evaluation
    {
      var route := DispatchRoute(s, now, succeeded);
      item.State() == Dispatched(s, now, succeeded) &&
      retry.items == retry0 + (if route == Some(Retry) then [item] else []) &&
      evaluation.items == evaluation0 + (if route == Some(Evaluation) then [item] else [])
    }

    /** What `processQueueItem` leaves behind: the item routed, and the
        newcomers added to main when the trickle-in guard allowed. */
    predicate Processed(item: Source, s0: SourceState, main0: seq<Source>, retry0: seq<Source>,
                        evaluation0: seq<Source>, counts0: seq<Counters>, now: int, succeeded: bool,
                        newcomers: seq<Source>)
      reads this, item, main, retry, evaluation, rules
    {
      Routed(item, s0, retry0, evaluation0, counts0, now, succeeded) &&
      main.items == main0 + (if FeedMore(|main0|, |retry.items|, |evaluation.items|, |finished|) then newcomers else [])
    }

    /** `Main` up to starting the loops: the three queues with their delays
        and dependencies, the handler library pointed at retry and evaluation,
        the rule list, and the initial items on main. */
    constructor (initial: seq<Source>)
      ensures Valid()
      ensures main.items == initial && retry.items == [] && evaluation.items == [] && finished == []
      ensures !main.stop && !retry.stop && !evaluation.stop
      ensures main.uid == "main" && retry.uid == "retry" && evaluation.uid == "evaluation"
      ensures main.minDelayTime == 10 && main.maxDelayTime == 15
      ensures retry.minDelayTime == 2 && retry.maxDelayTime == 4
      ensures evaluation.minDelayTime == 10 && evaluation.maxDelayTime == 50
      ensures forall k :: 0 <= k < RuleCount ==> rules[k].Counts() == NoCounts
      ensures fresh(Frame()) && fresh(handlers)
    {
      finished := [];
      var m, r, e := NewQueues();
      var h := new BaseRuleHandlers();
      h.Initialize(r, e);
      var list := GetRules();
      AddAll(m, initial);
      main, retry, evaluation, handlers, rules := m, r, e, h, list;
    }

    /** The `foreach` over the rule list: `RunOne` on each rule in order until
        one returns true. That is the first rule that holds; it reports the
        call of its then-handler, and no later rule is evaluated. */
    method RunRules(o: Observation) returns (matchedRule: Option<nat>, pending: seq<Call<Observation, HandlerKind>>)
      requires RulesWired()
      modifies RuleSet()
      ensures RulesWired()
      ensures matchedRule == FirstMatch(o)
      ensures matchedRule.Some? ==> pending == [Invoke(RuleHandlers[matchedRule.value], o)]
      ensures RuleCounts() == Moved(old(RuleCounts()), matchedRule)
    {
      matchedRule := None;
      pending := [];
      var i := 0;
      while i < |rules| && matchedRule.None?
        invariant 0 <= i <= RuleCount
        invariant RulesWired()
        invariant matchedRule.None? ==> forall k :: 0 <= k < i ==> !RuleHolds(k, o)
        invariant matchedRule.Some? ==> matchedRule == FirstMatch(o) && matchedRule.value == i - 1 &&
                                        pending == [Invoke(RuleHandlers[i - 1], o)]
        invariant RuleCounts() == Moved(old(RuleCounts()), matchedRule)
      {
        var matched, calls := TryRule(rules[i], i, o);
        if matched {
          matchedRule := Some(i);
          pending := calls;
        }
        i := i + 1;
      }
    }

    /** Carry out the then-handler the matching rule invoked, if any: the
        item ends in the `Dispatched` state and, when routed, at the tail of
        exactly one of retry and evaluation. */
    method Deliver(item: Source, now: int, succeeded: bool,
                   matchedRule: Option<nat>, pending: seq<Call<Observation, HandlerKind>>)
      requires QueuesWired()
      requires matchedRule == FirstMatch(Observation(item.State(), now))
      requires matchedRule.Some? ==> pending == [Invoke(RuleHandlers[matchedRule.value], Observation(item.State(), now))]
      modifies item, retry, evaluation
      ensures QueuesWired()
      ensures Delivered(item, old(item.State()), old(retry.items), old(evaluation.items), now, succeeded)
      ensures retry.stop == old(retry.stop) && evaluation.stop == old(evaluation.stop)
    {
      if matchedRule.Some? {
        var k := matchedRule.value;
        MatchedHandlerCompletes(k, Observation(item.State(), now));
        var outcome := handlers.Invoke(pending[0].handler, item, RuleNames[k], now, succeeded);
      }
    }

    /** The part of `processQueueItem` before the trickle-in guard: count
        the cycle, try the rules in order until one returns true, and carry out
        its handler. */
    method Dispatch(item: Source, now: int, succeeded: bool)
      requires Valid()
      modifies item, Frame()
      ensures Valid() && finished == old(finished) && main.items == old(main.items)
      ensures Routed(item, old(item.State()), old(retry.items), old(evaluation.items), old(RuleCounts()), now, succeeded)
      ensures main.stop == old(main.stop) && retry.stop == old(retry.stop) && evaluation.stop == old(evaluation.stop)
    {
      item.cycles := item.cycles + 1;
      assert item.State() == old(item.State()).(cycles := old(item.State()).cycles + 1);
      assert RuleCounts() == old(RuleCounts());
      Handle(item, now, succeeded);
    }

    /** Try the rules in order until one returns true, and carry out its
        handler. */
    method Handle(item: Source, now: int, succeeded: bool)
      requires Valid()
      modifies item, Frame()
      ensures Valid() && finished == old(finished) && main.items == old(main.items)
      ensures Delivered(item, old(item.State()), old(retry.items), old(evaluation.items), now, succeeded)
      ensures CountsMoved(old(RuleCounts()), old(item.State()), now)
      ensures main.stop == old(main.stop) && retry.stop == old(retry.stop) && evaluation.stop == old(evaluation.stop)
    {
      var matchedRule, pending := RunRules(Observation(item.State(), now));
      assert item.State() == old(item.State()) && retry.items == old(retry.items) && evaluation.items == old(evaluation.items);
      ghost var moved := RuleCounts();
      assert CountsMoved(old(RuleCounts()), old(item.State()), now);
      Deliver(item, now, succeeded, matchedRule, pending);
      assert RuleCounts() == moved;
    }

    /** `processQueueItem`: dispatch the item, then feed in the new items when
        the guard allows. */
    method ProcessQueueItem(item: Source, now: int, succeeded: bool, newcomers: seq<Source>)
      requires Valid()
      modifies item, Frame()
      ensures Valid() && finished == old(finished)
      ensures Processed(item, old(item.State()), old(main.items), old(retry.items), old(evaluation.items),
                        old(RuleCounts()), now, succeeded, newcomers)
      ensures main.stop == old(main.stop) && retry.stop == old(retry.stop) && evaluation.stop == old(evaluation.stop)
    {
      Dispatch(item, now, succeeded);
      Feed(newcomers);
    }

    /** The trickle-in guard at the end of `processQueueItem`: while main
        still has work and fewer than `Cap` items are in play, the data
        factory's batch is added to main. */
    method Feed(newcomers: seq<Source>)
      requires QueuesWired()
      modifies main
      ensures QueuesWired()
      ensures main.items == old(main.items) +
        (if FeedMore(|old(main.items)|, |retry.items|, |evaluation.items|, |finished|) then newcomers else [])
      ensures main.stop == old(main.stop)
    {
      if main.QueueCount() > 0 &&
         main.QueueCount() + retry.QueueCount() + evaluation.QueueCount() + |finished| < Cap {
        AddAll(main, newcomers);
      }
    }

    /** The item-received handler of the evaluation queue: the item joins the
        finished list. */
    method EvaluationReceived(item: Source)
      modifies this`finished
      ensures finished == old(finished) + [item]
    {
      finished := finished + [item];
    }

    /** One iteration of the main queue's loop: check the loop condition,
        dequeue the head if there is one and hand it to `processQueueItem`. */
    method MainStep(now: int, succeeded: bool, newcomers: seq<Source>) returns (continued: bool, delivered: Option<Source>)
      requires Valid()
      modifies Frame(), if main.items != [] then {main.items[0]} else {}
      ensures Valid() && finished == old(finished)
      ensures continued == old(main.Continues())
      ensures delivered.Some? <==> continued && old(main.QueueCount()) > 0
      ensures delivered.None? ==>
        main.items == old(main.items) && retry.items == old(retry.items) && evaluation.items == old(evaluation.items)
      ensures delivered.Some? ==>
        delivered.value == old(main.items[0]) &&
        Processed(delivered.value, old(main.items[0].State()), old(main.items[1..]), old(retry.items),
                  old(evaluation.items), old(RuleCounts()), now, succeeded, newcomers)
      ensures delivered.None? && old(main.items) != [] ==> old(main.items)[0].State() == old(main.items[0].State())
      ensures delivered.None? ==> RuleCounts() == old(RuleCounts())
      ensures main.stop == old(main.stop) && retry.stop == old(retry.stop) && evaluation.stop == old(evaluation.stop)
    {
      ghost var counts := RuleCounts();
      continued, delivered := main.Step();
      assert RuleCounts() == counts;
      if delivered.Some? {
        assert delivered.value.State() == old(main.items[0].State());
        ProcessQueueItem(delivered.value, now, succeeded, newcomers);
      }
    }

    /** One iteration of the retry queue's loop; it delivers to the same
        `processQueueItem` as main. */
    method RetryStep(now: int, succeeded: bool, newcomers: seq<Source>) returns (continued: bool, delivered: Option<Source>)
      requires Valid()
      modifies Frame(), if retry.items != [] then {retry.items[0]} else {}
      ensures Valid() && finished == old(finished)
      ensures continued == old(retry.Continues())
      ensures delivered.Some? <==> continued && old(retry.QueueCount()) > 0
      ensures delivered.None? ==>
        main.items == old(main.items) && retry.items == old(retry.items) && evaluation.items == old(evaluation.items)
      ensures delivered.Some? ==>
        delivered.value == old(retry.items[0]) &&
        Processed(delivered.value, old(retry.items[0].State()), old(main.items), old(retry.items[1..]),
                  old(evaluation.items), old(RuleCounts()), now, succeeded, newcomers)
      ensures delivered.None? && old(retry.items) != [] ==> old(retry.items)[0].State() == old(retry.items[0].State())
      ensures delivered.None? ==> RuleCounts() == old(RuleCounts())
      ensures main.stop == old(main.stop) && retry.stop == old(retry.stop) && evaluation.stop == old(evaluation.stop)
    {
      ghost var counts := RuleCounts();
      continued, delivered := retry.Step();
      assert RuleCounts() == counts;
      if delivered.Some? {
        assert delivered.value.State() == old(retry.items[0].State());
        ProcessQueueItem(delivered.value, now, succeeded, newcomers);
      }
    }

    /** One iteration of the evaluation queue's loop: the dequeued item is
        appended to the finished list. */
    method EvaluationStep() returns (continued: bool, delivered: Option<Source>)
      requires Valid()
      modifies this`finished, evaluation
      ensures Valid()
      ensures continued == old(evaluation.Continues())
      ensures delivered.Some? <==> continued && old(evaluation.QueueCount()) > 0
      ensures old(evaluation.items) == (if delivered.Some? then [delivered.value] else []) + evaluation.items
      ensures finished == old(finished) + (if delivered.Some? then [delivered.value] else [])
      ensures evaluation.stop == old(evaluation.stop)
    {
      continued, delivered := evaluation.Step();
      if delivered.Some? {
        EvaluationReceived(delivered.value);
      }
    }
  }

  /** `Main` on one never-run item of the sample key, up to the first
      iteration of the main loop with a successful draw: the item is
      executed, finished and handed to evaluation, and rule 1 counts it. */
  method FirstMainIteration(item: Source, now: int) returns (p: Pipeline)
    requires item.key == SampleKey && item.action.None? && item.firstAttempt.None?
    modifies item
    ensures fresh(p)
    ensures p.main.items == [] && p.retry.items == [] && p.evaluation.items == [item]
    ensures item.status == "Success" && item.attempts == old(item.attempts) + 1 && item.cycles == old(item.cycles) + 1
    ensures |p.rules| == RuleCount && p.rules[0].Counts().matches == 1
  {
    p := new Pipeline([item]);
    var continued, delivered := p.MainStep(now, true, []);
    NeverRunItemIsExecuted(old(item.State()).(cycles := old(item.State()).cycles + 1), now, true);
  }
}
