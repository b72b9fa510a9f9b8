/** The status classifier: the seven lifecycle flags derived from a job's
    timestamps, against one `now` captured for the whole pass. */
module Classifier {
  import opened Results
  import opened Records
  import opened Bson

  datatype Flag = Running | Scheduled | Queued | Completed | Failed | Repeating | Disabled

  datatype Flags = Flags(
    running: bool, scheduled: bool, queued: bool, completed: bool,
    failed: bool, repeating: bool, disabled: bool)
  {
    function Get(f: Flag): bool {
      match f
      case Running => running
      case Scheduled => scheduled
      case Queued => queued
      case Completed => completed
      case Failed => failed
      case Repeating => repeating
      case Disabled => disabled
    }
  }

  /** The state names a listing request may carry; any other name is no flag. */
  function ParseState(state: string): Option<Flag> {
    if state == "running" then Some(Running)
    else if state == "scheduled" then Some(Scheduled)
    else if state == "queued" then Some(Queued)
    else if state == "completed" then Some(Completed)
    else if state == "failed" then Some(Failed)
    else if state == "repeating" then Some(Repeating)
    else if state == "disabled" then Some(Disabled)
    else None
  }

  function FlagName(f: Flag): string {
    match f
    case Running => "running"
    case Scheduled => "scheduled"
    case Queued => "queued"
    case Completed => "completed"
    case Failed => "failed"
    case Repeating => "repeating"
    case Disabled => "disabled"
  }

  lemma ParseFlagName(f: Flag)
    ensures ParseState(FlagName(f)) == Some(f)
  {
  }

  /** The `{[state]: true}` match on a classified row: a known flag that holds.
      An unknown state name names a field no row has, so it matches nothing. */
  predicate StateHolds(state: string, flags: Flags) {
    match ParseState(state)
    case None => false
    case Some(f) => flags.Get(f)
  }

  /** The classifier, stated over stamps where an absent stamp is the earliest. */
  function Classify(j: Job, now: int): (r: Flags)
    ensures r.running <==>
      j.lastRunAt.Some? && (j.lastFinishedAt.None? || j.lastFinishedAt.value < j.lastRunAt.value)
    ensures r.scheduled <==> j.nextRunAt.Some? && j.nextRunAt.value >= now
    ensures r.queued <==>
      j.nextRunAt.Some? && now >= j.nextRunAt.value &&
      (j.lastFinishedAt.None? || j.nextRunAt.value >= j.lastFinishedAt.value)
    ensures r.completed <==>
      j.lastFinishedAt.Some? && (j.failedAt.None? || j.lastFinishedAt.value > j.failedAt.value)
    ensures r.failed <==>
      j.lastFinishedAt.Some? && j.failedAt.Some? && j.lastFinishedAt.value == j.failedAt.value
    ensures r.repeating <==> j.repeatInterval.Some?
    ensures r.disabled <==> j.disabled == Some(true)
  {
    Flags(
      running := j.lastRunAt.Some? && Earlier(j.lastFinishedAt, j.lastRunAt),
      scheduled := j.nextRunAt.Some? && NoLater(Some(now), j.nextRunAt),
      queued := j.nextRunAt.Some? && NoLater(j.nextRunAt, Some(now)) && NoLater(j.lastFinishedAt, j.nextRunAt),
      completed := j.lastFinishedAt.Some? && Earlier(j.failedAt, j.lastFinishedAt),
      failed := j.lastFinishedAt.Some? && j.failedAt.Some? && j.lastFinishedAt == j.failedAt,
      repeating := j.repeatInterval.Some?,
      disabled := j.disabled == Some(true))
  }

  /** A finished run is either completed or failed, never both. */
  lemma CompletedExcludesFailed(j: Job, now: int)
    ensures !(Classify(j, now).completed && Classify(j, now).failed)
  {
  }

  /** With one `now`, a job is both scheduled and queued exactly when it is due
      at that very instant and not behind its last finish. */
  lemma ScheduledAndQueued(j: Job, now: int)
    ensures Classify(j, now).scheduled && Classify(j, now).queued <==>
      j.nextRunAt == Some(now) && NoLater(j.lastFinishedAt, j.nextRunAt)
  {
  }


  /** The listing pipeline's two `$project` stages, value by value: absent
      fields become the number 0 (or `false` for `disabled`), then each flag is
      the `$and` of a field's truthiness and a comparison against the others. */
  function ListingProjection(j: Job, now: int): Flags {
    var nextRunAt := Stamped(j.nextRunAt);
    var lastRunAt := Stamped(j.lastRunAt);
    var lastFinishedAt := Stamped(j.lastFinishedAt);
    var failedAt := Stamped(j.failedAt);
    var repeatInterval := IfNull(TextValue(j.repeatInterval), Num(0));
    var disabled := IfNull(FlagValue(j.disabled), Bool(false));
    var current := Date(now);
    Flags(
      running := Truthy(lastRunAt) && Gt(lastRunAt, lastFinishedAt),
      scheduled := Truthy(nextRunAt) && Gte(nextRunAt, current),
      queued := Truthy(nextRunAt) && Gte(current, nextRunAt) && Gte(nextRunAt, lastFinishedAt),
      completed := Truthy(lastFinishedAt) && Gt(lastFinishedAt, failedAt),
      failed := Truthy(lastFinishedAt) && Truthy(failedAt) && Eq(lastFinishedAt, failedAt),
      repeating := Truthy(repeatInterval) && Ne(repeatInterval, Null),
      disabled := Truthy(disabled) && Eq(disabled, Bool(true)))
  }

  /** The overview pipeline's projection: the same predicates, except that
      `repeatInterval` is taken raw rather than through `$ifNull`. */
  function OverviewProjection(j: Job, now: int): Flags {
    var nextRunAt := Stamped(j.nextRunAt);
    var lastRunAt := Stamped(j.lastRunAt);
    var lastFinishedAt := Stamped(j.lastFinishedAt);
    var failedAt := Stamped(j.failedAt);
    var repeatInterval := TextValue(j.repeatInterval);
    var disabled := IfNull(FlagValue(j.disabled), Bool(false));
    var current := Date(now);
    Flags(
      running := Truthy(lastRunAt) && Gt(lastRunAt, lastFinishedAt),
      scheduled := Truthy(nextRunAt) && Gte(nextRunAt, current),
      queued := Truthy(nextRunAt) && Gte(current, nextRunAt) && Gte(nextRunAt, lastFinishedAt),
      completed := Truthy(lastFinishedAt) && Gt(lastFinishedAt, failedAt),
      failed := Truthy(lastFinishedAt) && Truthy(failedAt) && Eq(lastFinishedAt, failedAt),
      repeating := Truthy(repeatInterval) && Ne(repeatInterval, Null),
      disabled := Truthy(disabled) && Eq(disabled, Bool(true)))
  }

  /** Both pipelines compute exactly the classifier: the substitution of 0 for
      an absent timestamp makes it compare below every present one. */
  lemma ProjectionsAgree(j: Job, now: int)
    ensures ListingProjection(j, now) == Classify(j, now)
    ensures OverviewProjection(j, now) == Classify(j, now)
  {
    StampedOrder(j.lastFinishedAt, j.lastRunAt);
    StampedOrder(j.failedAt, j.lastFinishedAt);
    StampedOrder(j.lastFinishedAt, j.failedAt);
    StampedOrder(j.lastFinishedAt, j.nextRunAt);
  }
}
