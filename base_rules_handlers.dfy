/**
 * The three rule handlers of BaseRulesHandlers.cs. Each changes fields of the
 * item, appends to its log and adds it to the retry queue or the evaluation
 * queue. The queues the static class keeps are the fields of one
 * `BaseRuleHandlers` object here; the random success draw and the clock
 * reading are parameters.
 *
 * The log lines omit the elapsed-seconds prefix, which is floating-point
 * text.
 */
module BaseRulesHandlers {
  import opened Wrappers
  import opened DataDefinition
  import opened QueueSimulation
  import opened ConditionEngine

  datatype HandlerKind = ExecuteHandler | EnqueueHandler | DismissHandler

  /** The handlers that can be bound by name, under their qualified names. */
  const HandlerNames: map<string, HandlerKind> :=
    map["BaseRuleHandlers.Execute" := ExecuteHandler,
        "BaseRuleHandlers.Enqueue" := EnqueueHandler,
        "BaseRuleHandlers.Dismiss" := DismissHandler]

  /** What `.Value` on an unset `FirstAttempt` throws. */
  const NoFirstAttempt: Exception := Exception("Nullable object must have a value.")

  datatype Destination = Retry | Evaluation

  /** The first half of `Execute`: stamp the attempt with `now`, keep an
      existing first attempt, record the rule as the reason, count the
      attempt and log it. */
  function Attempting(s: SourceState, ruleName: string, now: int): SourceState
  {
    s.(action := Some("RUN NOW!"), lastAttempt := Some(now),
       firstAttempt := if s.firstAttempt.Some? then s.firstAttempt else Some(now),
       reason := Some(ruleName), attempts := s.attempts + 1,
       log := s.log + ["Running - reason: " + ruleName])
  }

  /** The second half of `Execute`: finish or fail according to the draw. */
  function Concluded(s: SourceState, succeeded: bool): SourceState
  {
    if succeeded then
      s.(action := Some("FINISHED"), status := "Success", log := s.log + ["Running result Success - Done"])
    else
      s.(status := "Error", action := Some("RUN-ENQUEUED"), log := s.log + ["Running result Error - Enqueueing..."])
  }

  /** `Execute`: stamp the attempt, then finish or fail according to the draw. */
  function Executed(s: SourceState, ruleName: string, now: int, succeeded: bool): SourceState
  {
    Concluded(Attempting(s, ruleName, now), succeeded)
  }

  /** `Enqueue`; with `FirstAttempt` unset it throws after setting the action
      and the reason. */
  function Enqueued(s: SourceState, ruleName: string): SourceState
  {
    var marked := s.(action := Some("ENQUEUED"), reason := Some(ruleName));
    if s.firstAttempt.None? then marked
    else marked.(log := s.log + ["Enqueueing... " + ruleName])
  }

  /** `Dismiss`; with `FirstAttempt` unset it throws after setting the action
      and the reason. */
  function Dismissed(s: SourceState, ruleName: string): SourceState
  {
    var marked := s.(action := Some("DISMISSED"), reason := Some(ruleName));
    if s.firstAttempt.None? then marked
    else marked.(log := s.log + ["Dismissing... " + ruleName])
  }

  /** How invoking a handler on an item in state `s` ends. */
  function HandlerOutcome(kind: HandlerKind, s: SourceState): Outcome
  {
    if kind != ExecuteHandler && s.firstAttempt.None? then Threw(NoFirstAttempt) else Completed
  }

  /** The item state after invoking a handler. */
  function Applied(kind: HandlerKind, s: SourceState, ruleName: string, now: int, succeeded: bool): SourceState
  {
    match kind
    case ExecuteHandler => Executed(s, ruleName, now, succeeded)
    case EnqueueHandler => Enqueued(s, ruleName)
    case DismissHandler => Dismissed(s, ruleName)
  }

  /** The queue a handler that completes sends the item to. */
  function Route(kind: HandlerKind, succeeded: bool): Destination
  {
    match kind
    case ExecuteHandler => if succeeded then Evaluation else Retry
    case EnqueueHandler => Retry
    case DismissHandler => Evaluation
  }

  /** Execute counts the attempt, stamps `LastAttempt` with `now`, sets
      `FirstAttempt` only if it was unset, records the rule as the reason,
      appends exactly two log lines and decides status and action by the draw;
      key, description and cycles are untouched. */
  lemma ExecuteEffects(s: SourceState, ruleName: string, now: int, succeeded: bool)
    ensures var r := Executed(s, ruleName, now, succeeded);
      r.attempts == s.attempts + 1 && r.lastAttempt == Some(now) &&
      r.firstAttempt == (if s.firstAttempt.Some? then s.firstAttempt else Some(now)) &&
      r.reason == Some(ruleName) &&
      |r.log| == |s.log| + 2 && r.log[..|s.log|] == s.log &&
      (succeeded ==> r.status == "Success" && r.action == Some("FINISHED")) &&
      (!succeeded ==> r.status == "Error" && r.action == Some("RUN-ENQUEUED")) &&
      r.key == s.key && r.description == s.description && r.cycles == s.cycles
  {
  }

  /** After Execute the first attempt is not later than the last one, provided
      it was not in the future beforehand. */
  lemma ExecuteOrdersAttempts(s: SourceState, ruleName: string, now: int, succeeded: bool)
    requires s.firstAttempt.Some? ==> s.firstAttempt.value <= now
    ensures var r := Executed(s, ruleName, now, succeeded);
      r.firstAttempt.Some? && r.lastAttempt.Some? && r.firstAttempt.value <= r.lastAttempt.value
  {
  }

  /** Enqueue, on an item that has a first attempt, changes only the action,
      the reason and the log, to which it appends one line. */
  lemma EnqueueEffects(s: SourceState, ruleName: string)
    requires s.firstAttempt.Some?
    ensures var r := Enqueued(s, ruleName);
      r == s.(action := Some("ENQUEUED"), reason := Some(ruleName), log := r.log) &&
      |r.log| == |s.log| + 1 && r.log[..|s.log|] == s.log
  {
  }

  /** Dismiss, on an item that has a first attempt, changes only the action,
      the reason and the log, to which it appends one line; the status stays
      whatever it was. */
  lemma DismissEffects(s: SourceState, ruleName: string)
    requires s.firstAttempt.Some?
    ensures var r := Dismissed(s, ruleName);
      r == s.(action := Some("DISMISSED"), reason := Some(ruleName), log := r.log) &&
      |r.log| == |s.log| + 1 && r.log[..|s.log|] == s.log
  {
  }

  /** No handler ever shortens or rewrites the log, lowers the attempt count
      or changes the cycle count. */
  lemma HandlersOnlyGrow(kind: HandlerKind, s: SourceState, ruleName: string, now: int, succeeded: bool)
    ensures var r := Applied(kind, s, ruleName, now, succeeded);
      |s.log| <= |r.log| && r.log[..|s.log|] == s.log &&
      s.attempts <= r.attempts && r.cycles == s.cycles &&
      (s.firstAttempt.Some? ==> r.firstAttempt == s.firstAttempt)
  {
  }

  class BaseRuleHandlers {
    var retryQueue: QueueSimulator?<Source>
    var evaluationQueue: QueueSimulator?<Source>

    /** The queue for `d`, or null if `Initialize` never set it. */
    function Target(d: Destination): QueueSimulator?<Source>
      reads this
    {
      match d
      case Retry => retryQueue
      case Evaluation => evaluationQueue
    }

    /** The objects a handler routing to `d` may change besides the item. */
    function Targets(d: Destination): set<object>
      reads this
    {
      if Target(d) == null then {} else {Target(d)}
    }

    /** The static fields start out null. */
    constructor ()
      ensures retryQueue == null && evaluationQueue == null
    {
      retryQueue := null;
      evaluationQueue := null;
    }

    /** `Initialize(retry, evaluation)`. */
    method Initialize(retryQueueSimulator: QueueSimulator?<Source>,
                      evaluationQueueSimulator: QueueSimulator?<Source>)
      modifies this
      ensures retryQueue == retryQueueSimulator && evaluationQueue == evaluationQueueSimulator
    {
      retryQueue := retryQueueSimulator;
      evaluationQueue := evaluationQueueSimulator;
    }

    /** Add the item to the queue for `d`, if that queue is set. */
    method Send(item: Source, d: Destination)
      modifies Targets(d)
      ensures var q := Target(d);
        q != null ==> q.items == old(q.items) + [item] && q.stop == old(q.stop) &&
                      q.dependencies == old(q.dependencies) &&
                      q.uid == old(q.uid) && q.minDelayTime == old(q.minDelayTime) && q.maxDelayTime == old(q.maxDelayTime)
    {
      var q := Target(d);
      if q != null {
        q.Add(item);
      }
    }

    /** The first half of `Execute(item, condition)`. */
    method Attempt(item: Source, ruleName: string, now: int)
      modifies item
      ensures item.State() == Attempting(old(item.State()), ruleName, now)
    {
      item.action := Some("RUN NOW!");
      item.lastAttempt := Some(now);
      if item.firstAttempt.None? {
        item.firstAttempt := item.lastAttempt;
      }
      item.reason := Some(ruleName);
      item.attempts := item.attempts + 1;
      item.log := item.log + ["Running - reason: " + ruleName];
    }

    /** The second half of `Execute(item, condition)`: a success goes to
        evaluation, a failure back to retry. */
    method Conclude(item: Source, succeeded: bool)
      modifies item, Targets(Route(ExecuteHandler, succeeded))
      ensures item.State() == Concluded(old(item.State()), succeeded)
      ensures var q := Target(Route(ExecuteHandler, succeeded));
        q != null ==> q.items == old(q.items) + [item] && q.stop == old(q.stop) &&
                      q.dependencies == old(q.dependencies) &&
                      q.uid == old(q.uid) && q.minDelayTime == old(q.minDelayTime) && q.maxDelayTime == old(q.maxDelayTime)
    {
      if succeeded {
        item.action := Some("FINISHED");
        item.status := "Success";
        item.log := item.log + ["Running result Success - Done"];
        Send(item, Evaluation);
      } else {
        item.status := "Error";
        item.action := Some("RUN-ENQUEUED");
        item.log := item.log + ["Running result Error - Enqueueing..."];
        Send(item, Retry);
      }
    }

    /** `Execute(item, condition)`, with the rule's name, the clock reading
        and the outcome of the success draw passed in. */
    method Execute(item: Source, ruleName: string, now: int, succeeded: bool)
      modifies item, Targets(Route(ExecuteHandler, succeeded))
      ensures item.State() == Executed(old(item.State()), ruleName, now, succeeded)
      ensures var q := Target(Route(ExecuteHandler, succeeded));
        q != null ==> q.items == old(q.items) + [item] && q.stop == old(q.stop) &&
                      q.dependencies == old(q.dependencies) &&
                      q.uid == old(q.uid) && q.minDelayTime == old(q.minDelayTime) && q.maxDelayTime == old(q.maxDelayTime)
    {
      Attempt(item, ruleName, now);
      Conclude(item, succeeded);
    }

    /** `Enqueue(item, condition)`: on an item without a first attempt it
        throws once the action and reason are set, and adds nothing. */
    method Enqueue(item: Source, ruleName: string) returns (outcome: Outcome)
      modifies item, Targets(Retry)
      ensures outcome == HandlerOutcome(EnqueueHandler, old(item.State()))
      ensures item.State() == Enqueued(old(item.State()), ruleName)
      ensures var q := Target(Retry);
        q != null ==> q.items == old(q.items) + (if outcome.Completed? then [item] else []) &&
                      q.stop == old(q.stop) && q.dependencies == old(q.dependencies) &&
                      q.uid == old(q.uid) && q.minDelayTime == old(q.minDelayTime) && q.maxDelayTime == old(q.maxDelayTime)
    {
      item.action := Some("ENQUEUED");
      item.reason := Some(ruleName);
      if item.firstAttempt.None? {
        return Threw(NoFirstAttempt);
      }
      item.log := item.log + ["Enqueueing... " + ruleName];
      Send(item, Retry);
      outcome := Completed;
    }

    /** `Dismiss(item, condition)`: on an item without a first attempt it
        throws once the action and reason are set, and adds nothing. */
    method Dismiss(item: Source, ruleName: string) returns (outcome: Outcome)
      modifies item, Targets(Evaluation)
      ensures outcome == HandlerOutcome(DismissHandler, old(item.State()))
      ensures item.State() == Dismissed(old(item.State()), ruleName)
      ensures var q := Target(Evaluation);
        q != null ==> q.items == old(q.items) + (if outcome.Completed? then [item] else []) &&
                      q.stop == old(q.stop) && q.dependencies == old(q.dependencies) &&
                      q.uid == old(q.uid) && q.minDelayTime == old(q.minDelayTime) && q.maxDelayTime == old(q.maxDelayTime)
    {
      item.action := Some("DISMISSED");
      item.reason := Some(ruleName);
      if item.firstAttempt.None? {
        return Threw(NoFirstAttempt);
      }
      item.log := item.log + ["Dismissing... " + ruleName];
      Send(item, Evaluation);
      outcome := Completed;
    }

    /** Invoke the handler `kind` on `item`: the item ends in the state
        `Applied` gives and, when the handler completes, at the tail of the
        one queue `Route` names. */
    method Invoke(kind: HandlerKind, item: Source, ruleName: string, now: int, succeeded: bool)
      returns (outcome: Outcome)
      modifies item, Targets(Route(kind, succeeded))
      ensures outcome == HandlerOutcome(kind, old(item.State()))
      ensures item.State() == Applied(kind, old(item.State()), ruleName, now, succeeded)
      ensures var q := Target(Route(kind, succeeded));
        q != null ==> q.items == old(q.items) + (if outcome.Completed? then [item] else []) &&
                      q.stop == old(q.stop) && q.dependencies == old(q.dependencies) &&
                      q.uid == old(q.uid) && q.minDelayTime == old(q.minDelayTime) && q.maxDelayTime == old(q.maxDelayTime)
    {
      match kind
      case ExecuteHandler =>
        Execute(item, ruleName, now, succeeded);
        outcome := Completed;
      case EnqueueHandler =>
        outcome := Enqueue(item, ruleName);
      case DismissHandler =>
        outcome := Dismiss(item, ruleName);
    }
  }
}
