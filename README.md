# In-memory retry rules, modelled in Dafny

This project models the retry pipeline of Dotnet_InMemory_Retry_Rules. The pipeline has four parts:

- **Work items.** A work item (`Source`) carries a key, a status, first- and last-attempt timestamps, an action, a reason, attempt and cycle counts, and a log.
- **Rule engine.** A fluent rule builder, `ConditionBuilder`, accumulates a predicate from `And`/`Or`/`Not`/`InArray`/`Filter`. It holds optional then, else, catch, before-run and after-run callbacks, and keeps five run-scoped counters. `RunOne` evaluates one item. `RunUntil`/`Run` evaluate a whole source.
- **Routing policy.** The policy has four ordered rules. Each rule binds one of three handlers:
  - `Execute` stamps an attempt and finishes the item or fails it by a random draw.
  - `Enqueue` sends the item back to the retry queue.
  - `Dismiss` sends the item on to evaluation.
- **Queues.** Three FIFO queues (main, retry and evaluation) each run a processing loop. The loop keeps going while the queue, or a queue it depends on, still holds work. Main and retry deliver to `processQueueItem`. That dispatcher counts a cycle, runs the first matching rule and feeds new items in while fewer than 500 are in play. Evaluation delivers to the list of finished items.

The project also models the dotted-name splitter that binds handlers by name, and the dictionary lookup with a fallback.

## How the model is built

- **Pure and in-place code.** Pure logic becomes functions and lemmas. Objects whose fields change in place become classes with `modifies` clauses:
  - `Source`;
  - `QueueSimulator`;
  - `ConditionBuilder`;
  - `BaseRuleHandlers` (a static class in C#, one object here);
  - the `Pipeline` of `Main`.
- **Callbacks.** A callback is a reference of type `H`. Whether invoking it completes or throws is the given function `outcome`. `RunOne` and `RunUntil` return the list of calls they made, in order. The dispatcher then carries out the effect of the handler that was called.
- **Time.** Time is measured in whole ticks (10 000 000 per second).
- **The clock.** It is read once per dispatch and passed in as `now`.
- **Randomness.** The success draw of `Execute` and the batch the data factory produces are parameters.
- **Nullable comparisons.** Comparisons with a nullable timestamp follow C#'s lifted operators: a null span compares false.

Two consequences of the code are worth stating up front:

- Rule 4 uses a strict `> 5s` (SourceRulesFactory.cs:45). So a last attempt exactly five seconds old matches neither rule 3 nor rule 4 (`BoundariesMatchNothing`).
- The `Source` constructor does not order its two timestamps. `Execute` on an item whose first attempt is not in the future guarantees first <= last (`ExecuteOrdersAttempts`).

## Model

| member | source | states |
|---|---|---|
| DataDefinition.MinutesAgo | DataDefinition.cs:7-10 | a timestamp is set exactly when its minute count is given, lies that many minutes before `now`, and is not after `now` for a non-negative count |
| DataDefinition.CreatedFields | DataDefinition.cs:3-25 | a new item carries the given key, status, attempts and description, with no action, no reason, zero cycles and an empty log |
| DataDefinition.CreatedTimestamps | DataDefinition.cs:7-10 | first and last attempt are set iff their minute offsets are given, at `now` minus that many minutes |
| DataDefinition.Source.constructor | DataDefinition.cs:3-13 | every field of the new item is the `Created` state for the arguments and the clock reading |
| QueueSimulation.QueueSimulator.QueueCount | QueueSimulator.cs:21 | the count is zero exactly when the queue is empty; `Add` raises it by one and a delivering `Step` lowers it by one |
| QueueSimulation.QueueSimulator.Continues | QueueSimulator.cs:55 | the loop goes on iff not stopped and the queue or some dependency holds an item; a stopped queue never continues; with no dependencies it continues iff it is non-empty |
| QueueSimulation.QueueSimulator.constructor | QueueSimulator.cs:25-31 | an empty, running queue with the given delays, the given id or a fresh one, and the given dependency list or none |
| QueueSimulation.QueueSimulator.AddDependency | QueueSimulator.cs:33-36 | appends a non-null queue to the dependencies and ignores null; nothing else changes |
| QueueSimulation.QueueSimulator.AddDependencies | QueueSimulator.cs:37-40 | appends the whole list in order and ignores a null list; nothing else changes |
| QueueSimulation.QueueSimulator.GetFullQueue | QueueSimulator.cs:42-44 | the contents head first, as many as `QueueCount` |
| QueueSimulation.QueueSimulator.Add | QueueSimulator.cs:47-50 | appends at the tail; the count grows by one and earlier items keep their positions |
| QueueSimulation.QueueSimulator.Stop | QueueSimulator.cs:77-79 | raises the stop flag, after which the loop condition is false; contents and dependencies unchanged |
| QueueSimulation.QueueSimulator.Step | QueueSimulator.cs:55-73 | reports the loop condition; when it holds on a non-empty queue the head is removed and returned, otherwise nothing is; old contents = delivered item + new contents, so the count drops by exactly the items delivered |
| QueueSimulation.FifoOrder | QueueSimulator.cs:47-60 | two items added to an empty running queue come out in the order they went in |
| ConditionEngine.RunOneOnNull | ConditionHelper.cs:227 | a null item returns false and changes no counter, no exception and calls nothing |
| ConditionEngine.RunOneResult | ConditionHelper.cs:229-261 | the result is the predicate's value whether or not the handler throws; the then-handler runs on a match, the else-handler otherwise, and the catch callback only after a throw, which becomes the last exception |
| ConditionEngine.RunOneCounters | ConditionHelper.cs:231-260 | matches, then, else, succeeded and failed each go up by one exactly in their own case |
| ConditionEngine.RunOneKeepsBalance | ConditionHelper.cs:231-260 | then + else = succeeded + failed, and then <= matches, are preserved |
| ConditionEngine.RunOneCallsNoHook | ConditionHelper.cs:225-262 | `RunOne` never invokes a run hook |
| ConditionEngine.RunAtAsWritten | ConditionHelper.cs:264-271 | `RunOne(index)` as written: it throws exactly when the source is non-null and the index equals its count or is negative; a null source or an index past the count returns false with nothing changed |
| ConditionEngine.RunAtAsWrittenThrowsPastEnd | ConditionHelper.cs:264-271 | as written, `RunOne(index)` with the index one past the end passes the guard and throws |
| ConditionEngine.RunAtFixesGuard | ConditionHelper.cs:264-271 | the corrected `RunOne(index)` agrees with the original wherever the original returns; the original throws exactly for index = count or a negative index; out of range the corrected one changes nothing |
| ConditionEngine.LoopWithoutStop | ConditionHelper.cs:300-314 | without a stop value every item is run, the result is the OR of the predicate over the items, and every match is counted once |
| ConditionEngine.LoopWithStop | ConditionHelper.cs:300-314 | with a stop value the loop stops iff some item's predicate equals it, and returns true exactly then |
| ConditionEngine.LoopKeepsBalance | ConditionHelper.cs:300-314 | the counter invariant holds after the loop |
| ConditionEngine.LoopCallsNoHook | ConditionHelper.cs:300-314 | the loop only appends handler calls after those already made |
| ConditionEngine.RunIsDisjunction | ConditionHelper.cs:290-320 | `RunUntil(null)`: true iff some item of a non-null source satisfies the predicate; matches = number of such items; before-hook first, after-hook last; counters balanced |
| ConditionEngine.RunUntilStops | ConditionHelper.cs:290-320 | `RunUntil(v)`: true iff some item's predicate equals `v`; on an early stop no hook after the before-hook; otherwise the after-hook is last |
| ConditionEngine.FirstTrigger | ConditionHelper.cs:300-306 | the position of the first item whose predicate equals the stop value: all earlier ones differ |
| ConditionEngine.StopAfterRunsTrigger | ConditionHelper.cs:304-306 | stopping after instead of before differs only by one more `RunOne` on the triggering item |
| ConditionHelper.ConditionBuilder.Counts | ConditionHelper.cs:59-63 | the five counter getters; what `RunOne`, `RunUntil` and `ClearCounters` leave in them is stated by their contracts and by `RunOneCounters` and `LoopWithoutStop` |
| ConditionHelper.ConditionBuilder.constructor | ConditionHelper.cs:41-56 | no source, the always-true predicate, no callbacks, an empty name, zero counters, no exception |
| ConditionHelper.ConditionBuilder.SetName | ConditionHelper.cs:65-68 | sets the name; nothing else changes |
| ConditionHelper.ConditionBuilder.From | ConditionHelper.cs:69-74 | binds the source and resets the predicate to always true; callbacks, name and counters unchanged |
| ConditionHelper.ConditionBuilder.FromItem | ConditionHelper.cs:76-79 | binds a one-item source and resets the predicate |
| ConditionHelper.ConditionBuilder.Filter | ConditionHelper.cs:81-86 | the new predicate is old AND filter on every item; nothing else changes |
| ConditionHelper.ConditionBuilder.And | ConditionHelper.cs:88-93 | the new predicate is old AND other on every item; nothing else changes |
| ConditionHelper.ConditionBuilder.Or | ConditionHelper.cs:95-100 | the new predicate is old OR other on every item; nothing else changes |
| ConditionHelper.ConditionBuilder.InArray | ConditionHelper.cs:102-107 | the new predicate is old AND "the selected collection is not null and contains the value" |
| ConditionHelper.ConditionBuilder.Not | ConditionHelper.cs:109-114 | the new predicate negates the whole accumulated one |
| ConditionHelper.ConditionBuilder.BeforeRun | ConditionHelper.cs:116-120 | installs the before-run hook only |
| ConditionHelper.ConditionBuilder.AfterRun | ConditionHelper.cs:121-125 | installs the after-run hook only |
| ConditionHelper.ConditionBuilder.Then | ConditionHelper.cs:179-183 | installs the then-handler only |
| ConditionHelper.ConditionBuilder.ThenNamed | ConditionHelper.cs:185-189 | installs the handler bound to the name, or none for an unknown name |
| ConditionHelper.ConditionBuilder.Else | ConditionHelper.cs:191-195 | installs the else-handler only |
| ConditionHelper.ConditionBuilder.ElseNamed | ConditionHelper.cs:197-201 | installs the handler bound to the name, or none for an unknown name |
| ConditionHelper.ConditionBuilder.Catch | ConditionHelper.cs:202-206 | installs the catch callback only |
| ConditionHelper.ConditionBuilder.ClearCounters | ConditionHelper.cs:217-223 | all five counters are zero whatever they were; predicate, callbacks and exception unchanged |
| ConditionHelper.ConditionBuilder.RunOne | ConditionHelper.cs:225-262 | result, counters, last exception and calls are those of the `RunOne` specification; predicate and callbacks unchanged |
| ConditionHelper.ConditionBuilder.RunOneAt | ConditionHelper.cs:264-271 | `RunOne(index)` with the corrected bound: runs the item at a valid position, otherwise returns false and changes nothing |
| ConditionHelper.ConditionBuilder.Run | ConditionHelper.cs:273-288 | the `RunUntil(null)` result, which is true iff some item of the source satisfies the predicate |
| ConditionHelper.ConditionBuilder.RunUntil | ConditionHelper.cs:290-320 | the loop's result, counters, exception and calls are those of the `RunUntil` specification, about which `RunUntilStops` and `RunIsDisjunction` hold |
| ConditionHelper.Name | ConditionHelper.cs:11-16 | a fresh builder with the name, no source, the always-true predicate, no callbacks and zero counters |
| ConditionHelper.From | ConditionHelper.cs:18-21 | a fresh builder over the source with the always-true predicate |
| ConditionHelper.FromItem | ConditionHelper.cs:23-26 | a fresh builder over a one-item source |
| ConditionHelper.Filter | ConditionHelper.cs:28-31 | as written: a fresh builder with no source that accepts every item, whatever the predicate |
| ConditionHelper.FilterIgnoresPredicate | ConditionHelper.cs:28-31 | the as-written helper accepts an item its predicate rejects |
| ConditionHelper.FilterBy | ConditionHelper.cs:28-31 | corrected: a fresh builder whose predicate is exactly the given one |
| BaseRulesHandlers.ExecuteEffects | BaseRulesHandlers.cs:20-44 | Execute counts one attempt, stamps the last attempt, sets the first attempt only if unset, records the reason, appends two log lines, and sets status/action by the draw; key, description and cycles unchanged |
| BaseRulesHandlers.ExecuteOrdersAttempts | BaseRulesHandlers.cs:23-24 | after Execute both attempts are set and first <= last, given the first was not in the future |
| BaseRulesHandlers.EnqueueEffects | BaseRulesHandlers.cs:46-53 | Enqueue changes only action, reason and log, and appends one log line |
| BaseRulesHandlers.DismissEffects | BaseRulesHandlers.cs:55-62 | Dismiss changes only action, reason and log, keeping the status, and appends one log line |
| BaseRulesHandlers.HandlersOnlyGrow | BaseRulesHandlers.cs:20-62 | no handler shortens the log, lowers attempts, changes cycles or moves a set first attempt |
| BaseRulesHandlers.BaseRuleHandlers.constructor | BaseRulesHandlers.cs:7-8 | both queue references start null |
| BaseRulesHandlers.BaseRuleHandlers.Initialize | BaseRulesHandlers.cs:10-13 | stores the retry and evaluation queues |
| BaseRulesHandlers.BaseRuleHandlers.Send | BaseRulesHandlers.cs:35-42 | a null-conditional `Add`: appends the item to the queue when it is set |
| BaseRulesHandlers.BaseRuleHandlers.Attempt | BaseRulesHandlers.cs:22-28 | the item is in the `Attempting` state: action, timestamps, reason, attempts and first log line |
| BaseRulesHandlers.BaseRuleHandlers.Conclude | BaseRulesHandlers.cs:30-43 | the item is in the `Concluded` state and joins evaluation on success and retry on failure |
| BaseRulesHandlers.BaseRuleHandlers.Execute | BaseRulesHandlers.cs:20-44 | the item ends in the `Executed` state and is appended to exactly the queue the draw selects |
| BaseRulesHandlers.BaseRuleHandlers.Enqueue | BaseRulesHandlers.cs:46-53 | with no first attempt: throws after setting action and reason, adds nothing; otherwise appends to retry |
| BaseRulesHandlers.BaseRuleHandlers.Dismiss | BaseRulesHandlers.cs:55-62 | with no first attempt: throws after setting action and reason, adds nothing; otherwise appends to evaluation |
| BaseRulesHandlers.BaseRuleHandlers.Invoke | BaseRulesHandlers.cs:20-62 | the named handler's state change, outcome and destination queue |
| SourceRulesFactory.RuleHolds | SourceRulesFactory.cs:10-46 | the predicate of rule k; only the four listed rules can hold, and only for items of the sample key; `RulesInPlainTerms` spells each out |
| SourceRulesFactory.FirstMatch | Program.cs:84-93 | the first rule that holds, in list order, or none when no rule holds |
| SourceRulesFactory.RulesInPlainTerms | SourceRulesFactory.cs:10-46 | each rule as a condition on key, status, action and the ages of the two attempts |
| SourceRulesFactory.LaterRulesNeedFirstAttempt | SourceRulesFactory.cs:19-46 | rules 2 to 4 hold only for items whose first attempt is set |
| SourceRulesFactory.RulesAreDisjoint | SourceRulesFactory.cs:10-46 | no item satisfies two rules |
| SourceRulesFactory.FirstMatchIsOnlyMatch | SourceRulesFactory.cs:10-46 | the first match is k iff rule k holds |
| SourceRulesFactory.BoundariesMatchNothing | SourceRulesFactory.cs:24-45 | an age of exactly 30 s matches no timed rule, and a last attempt exactly 5 s old matches neither rule 3 nor rule 4 |
| SourceRulesFactory.OtherKeysMatchNothing | SourceRulesFactory.cs:10-46 | an item with another key matches no rule |
| SourceRulesFactory.MatchedHandlerCompletes | SourceRulesFactory.cs:19-46 | the handler of a rule that holds never throws, since Enqueue and Dismiss only see items with a first attempt |
| SourceRulesFactory.NeverExecutedRule | SourceRulesFactory.cs:10-15 | rule 1: its name, predicate "no action, sample key, never attempted", bound by name to Execute |
| SourceRulesFactory.OverThirtySecondsRule | SourceRulesFactory.cs:19-25 | rule 2: sample key, Error, attempted, first attempt over 30 s ago; bound to Dismiss |
| SourceRulesFactory.RecentRetryRule | SourceRulesFactory.cs:29-36 | rule 3: sample key, Error, first under 30 s, last set and under 5 s; bound to Enqueue |
| SourceRulesFactory.DueRetryRule | SourceRulesFactory.cs:40-46 | rule 4: sample key, Error, first under 30 s, last unset or over 5 s; bound to Execute |
| SourceRulesFactory.GetRules | SourceRulesFactory.cs:5-49 | four distinct fresh builders, in order, each wired as its rule, with zero counters |
| Pipeline.NeverRunItemIsExecuted | Program.cs:82-93 | a never-run sample item is executed: both attempts become `now`, attempts + 1, and it goes to evaluation on success and retry on failure |
| Pipeline.StaleErrorIsDismissed | Program.cs:82-93 | a sample item in error first tried 35 s ago is dismissed to evaluation, its status and attempts unchanged |
| Pipeline.RecentErrorIsEnqueued | Program.cs:82-93 | a sample item in error first tried 10 s and last tried 2 s ago is enqueued to retry, its attempts unchanged |
| Pipeline.DispatchOnlyGrows | Program.cs:82-93 | dispatch never shortens the log, lowers attempts or moves a set first attempt; an unmatched item is neither changed nor routed |
| Pipeline.MovedMovesOnlyFirst | Program.cs:84-93 | after a dispatch only the first matching rule's counters move: its match, then and success counts by one each, its else and failure counts not at all; with no match nothing moves |
| Pipeline.AddAll | Program.cs:99-102 | the batch is appended to the queue in order; nothing else about the queue changes |
| Pipeline.NewQueues | Program.cs:19-24 | three distinct queues with the delays and ids of `Main`; retry depends on main, evaluation on main and retry |
| Pipeline.TryRule | Program.cs:86 | `RunOne` of a wired rule returns whether the rule holds; on a match its handler was invoked and match, then and success counters rose by one, otherwise no counter moved |
| Pipeline.Pipeline.constructor | Program.cs:13-127 | queues, handler library and rule list freshly allocated and wired as in `Main`; the initial items on main; the other queues and the finished list empty; counters zero |
| Pipeline.FirstMainIteration | Program.cs:13-127 | `Main` on one never-run item of the sample key, through the first main-loop draw that succeeds: the item is executed (status `Success`, one more attempt, one more cycle) and handed to evaluation, both queues are left empty and rule 1 counts one match |
| Pipeline.Pipeline.RunRules | Program.cs:84-93 | the rules run in order until the first that holds; the rule counters are `Moved` by that match, so only that rule's counters move, and its handler call is reported |
| Pipeline.Pipeline.Deliver | Program.cs:84-93 | the invoked handler's effect: the item ends dispatched and at the tail of the queue its route names |
| Pipeline.Pipeline.Dispatch | Program.cs:82-93 | cycles + 1, then the first matching rule's handler applied and the item routed; only that rule's counters move |
| Pipeline.Pipeline.Handle | Program.cs:84-93 | the rules tried and the handler carried out on the item as it stands: it ends dispatched, is routed to its handler's queue, and only the first matching rule's counters move |
| Pipeline.Pipeline.ProcessQueueItem | Program.cs:81-106 | dispatch, then the newcomers appended to main exactly when main is non-empty and fewer than 500 items are in play |
| Pipeline.Pipeline.Feed | Program.cs:95-103 | the newcomers are appended to main exactly when the trickle-in guard holds |
| Pipeline.Pipeline.EvaluationReceived | Program.cs:117-121 | the item is appended to the finished list |
| Pipeline.Pipeline.MainStep | Program.cs:109-111 | one main-loop iteration: the loop condition; on delivery the head removed and processed, with only its first matching rule's counters moving; with no delivery the queues, the head item and every rule counter unchanged |
| Pipeline.Pipeline.RetryStep | Program.cs:113-115 | one retry-loop iteration: the head removed and processed as from main, with re-routed retries joining the tail and only its first matching rule's counters moving; with no delivery the queues, the head item and every rule counter unchanged |
| Pipeline.Pipeline.EvaluationStep | Program.cs:117-121 | one evaluation-loop iteration: the head removed and appended to the finished list |
| ReflectionHelper.Split | ReflectionHelper.cs:85 | `String.Split` always yields at least one segment |
| ReflectionHelper.SplitCount | ReflectionHelper.cs:85 | n separators give n + 1 segments |
| ReflectionHelper.SplitSegmentsFree | ReflectionHelper.cs:85 | no segment contains the separator |
| ReflectionHelper.Join | ReflectionHelper.cs:89 | `string.Join`: the inverse of `Split` in both directions (`JoinSplit`, `SplitJoin`), and the join of a concatenation is the two joins around one separator (`JoinAppend`) |
| ReflectionHelper.JoinSplit | ReflectionHelper.cs:85-89 | joining the segments with the separator gives back the string |
| ReflectionHelper.SplitJoin | ReflectionHelper.cs:85-89 | splitting the join of separator-free parts gives back the parts |
| ReflectionHelper.SplitWithoutSeparator | ReflectionHelper.cs:85 | a string without the separator is its own only segment |
| ReflectionHelper.SplitAfterSegment | ReflectionHelper.cs:85 | a separator after a separator-free prefix splits off exactly that prefix |
| ReflectionHelper.JoinAppend | ReflectionHelper.cs:89 | joining two lists is joining their joins with one separator |
| ReflectionHelper.SplitNamespaceClassMethod | ReflectionHelper.cs:82-102 | never null (line 101 is unreachable); one to three parts |
| ReflectionHelper.SplitNameRoundTrip | ReflectionHelper.cs:86-99 | joining the parts with '.' reproduces the input |
| ReflectionHelper.SplitNameSegments | ReflectionHelper.cs:86-99 | min(dots + 1, 3) parts; class and method parts contain no dot; with fewer than three parts none does |
| ReflectionHelper.SplitNameWithoutDot | ReflectionHelper.cs:98-99 | a name without a dot is returned as the only element |
| ReflectionHelper.SplitNameTwoSegments | ReflectionHelper.cs:93-97 | "Class.Method" gives [Class, Method] |
| ReflectionHelper.SplitNameThreeSegments | ReflectionHelper.cs:86-92 | "Ns.Class.Method" gives [Ns, Class, Method], the namespace keeping its own dots |
| ReflectionHelper.GetDictionaryPropertyValue | ReflectionHelper.cs:68-75 | the mapped value for a present key, the fallback otherwise |
| ReflectionHelper.LookupAfterStore | ReflectionHelper.cs:68-75 | a stored entry is found, and storing one key changes no other lookup |

## Left out

- Reflection and dynamic dispatch are not modelled: `SetCallback`, `ExecuteDelegateByName`, `MethodFromString`, `FindTypeByClassName`, `ExecuteMethod`, `IsCalledFrom`, `GetClasses`, `GetEnumsFromNamespace`, `GetPropertyValue` and `IsAssemblyLoaded` inspect the running assembly. Binding a handler by name is modelled as a lookup in an explicit name-to-handler map (`HandlerNames`).
- ConditionHelper.ConditionBuilder.ThenNamed: an unknown name installs no handler. In the original, a dotted name that does not resolve makes `MethodFromString` throw a `NullReferenceException` (ReflectionHelper.cs:142-146); only a name without a dot leaves the callback null (line 151). The throw is not modelled.
- ConditionHelper.ConditionBuilder.ElseNamed: the same as `ThenNamed` for an unresolvable dotted name.
- `Evaluate` compiles a Dynamic LINQ expression with a foreign library; it is left out.
- Concurrency is left out: the three processing loops run concurrently in the original, with `Task.Yield`, `Task.Delay`, `Task.WaitAll` and `ConcurrentQueue`. The model covers one loop iteration at a time (`MainStep`, `RetryStep`, `EvaluationStep`), so interleavings are not covered.
- QueueSimulation.QueueSimulator.Step: the random processing delay between dequeue and delivery (QueueSimulator.cs:63-69) is not modelled; it only delays.
- Randomness is not modelled: `GetFromProbability`, `chance` and `Random`. The outcome of the success draw is the parameter `succeeded`.
- The data factory is not part of this model. The initial items and each batch of newcomers are parameters.
- Console and file output are left out: `printSource`, `printList`, `printStatus` and every `Console.WriteLine`.
- BaseRulesHandlers.BaseRuleHandlers.Execute: its log lines leave out the "(n sec)" prefix, whose text comes from a floating-point elapsed time; the log's length and append-only growth are modelled, its exact text is not.
- BaseRulesHandlers.BaseRuleHandlers.Enqueue: its log line leaves out the same elapsed-seconds prefix.
- BaseRulesHandlers.BaseRuleHandlers.Dismiss: its log line leaves out the same elapsed-seconds prefix.
- SourceRulesFactory.RulesInPlainTerms: the original reads `DateTime.Now` separately in each comparison; the model reads the clock once per dispatch (`Observation.now`).
- DataDefinition.Source.constructor: the `Id` field, a fresh GUID, is not modelled.
- DataDefinition.Source.constructor: the original reads `DateTime.Now` separately for each timestamp (DataDefinition.cs:8 and 10), and `AddMinutes` throws when the result leaves the `DateTime` range. The model uses one clock reading and unbounded tick counts, so neither the gap between the two reads nor the range error is modelled.
- QueueSimulation.QueueSimulator.constructor: the GUID generated for a missing id is the parameter `freshId`.
- ConditionHelper.ConditionBuilder.RunOne: null elements inside a source are not modelled (a source is `Option<seq<T>>`), so the `item == null` check only applies to a null item passed directly.
- ConditionHelper.ConditionBuilder.RunOne: counters are unbounded naturals; 32-bit wrap-around of the C# `int` counters is not modelled.
- BaseRulesHandlers.BaseRuleHandlers.Execute: the attempt count is an unbounded integer; 32-bit overflow is not modelled.
- Pipeline.Pipeline.Dispatch: the cycle count that `item.Cycles++` raises (Program.cs:82) is an unbounded integer; 32-bit wrap-around of the C# `int` is not modelled.
- ConditionHelper.ConditionBuilder.RunUntil: catch callbacks and hooks are modelled as calls that always return. Predicates that throw, and callbacks that change the builder during a run, are not modelled.
- The C# builder's predicate is null until `From` is called; every modelled builder is created through `From`, so that state never arises.
- The return-this chaining of the fluent methods is not modelled: each builder method changes the builder, and callers keep the reference.

## Findings

| source | as written | input that shows it | evidently intended | confidence | as-written member | corrected member |
|---|---|---|---|---|---|---|
| ConditionHelper.cs:266 | `RunOne(int index)` guards with `source.Count() >= index`, then calls `ElementAt(index)` | a source of n items and `index == n` (or any negative index): the guard passes and `ElementAt` throws `ArgumentOutOfRangeException` out of the call | run the item only for `0 <= index < Count()`, otherwise return false | high, not executed | ConditionEngine.RunAtAsWrittenThrowsPastEnd | ConditionEngine.RunAtFixesGuard |
| ConditionHelper.cs:28-31 | `ConditionBuilderHelper.Filter(predicate)` returns `new ConditionBuilder<T>().From(null)` and never uses `predicate` | `Filter(x => false)`: the builder accepts every item | a builder whose predicate is `predicate` | medium, not executed | ConditionHelper.FilterIgnoresPredicate | ConditionHelper.FilterBy |
