/**
 * The unit of work that flows through the pipeline (class `Source` of
 * DataDefinition.cs): a mutable record whose fields the rule handlers and the
 * dispatcher update in place.
 *
 * Times are whole `DateTime` ticks (10 000 000 per second), so every timestamp
 * and every `TimeSpan` in the model is an `int`.
 */
module DataDefinition {
  import opened Wrappers

  const TicksPerSecond: int := 10_000_000
  const TicksPerMinute: int := 60 * TicksPerSecond

  /** A snapshot of every field of a `Source` except its identifier. */
  datatype SourceState = SourceState(
    key: string,
    description: string,
    firstAttempt: Option<int>,
    lastAttempt: Option<int>,
    status: string,
    action: Option<string>,
    reason: Option<string>,
    attempts: int,
    cycles: int,
    log: seq<string>)

  /** `DateTime.Now.AddMinutes(-minutes)` for a nullable minute count. */
  function MinutesAgo(now: int, minutes: Option<int>): (t: Option<int>)
    ensures t.Some? <==> minutes.Some?
    ensures minutes.Some? && minutes.value >= 0 ==> t.value <= now
    ensures minutes.Some? ==> now - t.value == minutes.value * TicksPerMinute
  {
    match minutes
    case None => None
    case Some(m) => Some(now - m * TicksPerMinute)
  }

  /** The state the constructor leaves behind, as a value. */
  function Created(key: string, status: string, attempts: int,
                   firstAttemptMinutes: Option<int>, lastAttemptMinutes: Option<int>,
                   description: string, now: int): (s: SourceState)
  {
    SourceState(key, description, MinutesAgo(now, firstAttemptMinutes),
                MinutesAgo(now, lastAttemptMinutes), status, None, None, attempts, 0, [])
  }

  /** A freshly created item has no action, no cycles and an empty log, and
      carries the given key, status, attempts and description. */
  lemma CreatedFields(key: string, status: string, attempts: int,
                      fm: Option<int>, lm: Option<int>, description: string, now: int)
    ensures var s := Created(key, status, attempts, fm, lm, description, now);
      s.key == key && s.status == status && s.attempts == attempts &&
      s.description == description && s.action == None && s.reason == None &&
      s.cycles == 0 && s.log == []
  {
  }

  /** Each timestamp is set exactly when its minute count is given, and then
      lies that many minutes before `now`; non-negative minute counts put both
      timestamps at or before `now`. */
  lemma CreatedTimestamps(key: string, status: string, attempts: int,
                          fm: Option<int>, lm: Option<int>, description: string, now: int)
    ensures var s := Created(key, status, attempts, fm, lm, description, now);
      (s.firstAttempt.Some? <==> fm.Some?) &&
      (s.lastAttempt.Some? <==> lm.Some?) &&
      (fm.Some? ==> s.firstAttempt.value == now - fm.value * TicksPerMinute) &&
      (lm.Some? ==> s.lastAttempt.value == now - lm.value * TicksPerMinute) &&
      (fm.Some? && fm.value >= 0 ==> s.firstAttempt.value <= now) &&
      (lm.Some? && lm.value >= 0 ==> s.lastAttempt.value <= now)
  {
    var _ := MinutesAgo(now, fm);
    var _ := MinutesAgo(now, lm);
  }

  class Source {
    var key: string
    var description: string
    var firstAttempt: Option<int>
    var lastAttempt: Option<int>
    var status: string
    var action: Option<string>
    var reason: Option<string>
    var attempts: int
    var cycles: int
    var log: seq<string>

    /** All fields at once. */
    function State(): SourceState
      reads this
    {
      SourceState(key, description, firstAttempt, lastAttempt, status, action,
                  reason, attempts, cycles, log)
    }

    /** `new Source(key, status, attempts, firstMinutes, lastMinutes, description)`,
        with the clock reading `now` passed in. */
    constructor (key: string, status: string, attempts: int,
                 firstAttemptMinutes: Option<int>, lastAttemptMinutes: Option<int>,
                 description: string, now: int)
      ensures State() == Created(key, status, attempts, firstAttemptMinutes,
                                 lastAttemptMinutes, description, now)
    {
      this.attempts := attempts;
      this.key := key;
      this.firstAttempt := MinutesAgo(now, firstAttemptMinutes);
      this.lastAttempt := MinutesAgo(now, lastAttemptMinutes);
      this.status := status;
      this.description := description;
      this.action := None;
      this.reason := None;
      this.cycles := 0;
      this.log := [];
    }
  }
}
