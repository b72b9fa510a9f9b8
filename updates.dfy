/** The four guarded multi-record updates: each sets one field on the listed
    records whose guard holds, and reports how many records it modified. */
module Updates {
  import opened Results
  import opened Records

  datatype Control = Run | Unlock | Enable | Disable

  /** The match clause beyond the id list. */
  predicate Guard(op: Control, j: Job) {
    match op
    case Run => j.lockedAt.None?          // lockedAt: null
    case Unlock => j.lockedAt.Some?       // lockedAt: {$ne: null}
    case Enable => j.disabled.Some?       // disabled: {$ne: null}, so `false` matches too
    case Disable => j.disabled.None?      // disabled: {$eq: null}, so `false` does not
  }

  /** The `$set` document. */
  function Patch(op: Control, j: Job, now: int): Job {
    match op
    case Run => j.(nextRunAt := Some(now))
    case Unlock => j.(lockedAt := None)
    case Enable => j.(disabled := None)
    case Disable => j.(disabled := Some(true))
  }

  /** The message handed back when nothing was modified. */
  function FailureMessage(op: Control): string {
    match op
    case Run => "Jobs not found, or jobs were locked."
    case Unlock => "Jobs not found, or jobs were unlocked."
    case Enable => "Jobs not found, or jobs were already enabled."
    case Disable => "Jobs not found, or jobs were already disabled."
  }

  predicate Selected(op: Control, ids: seq<JobId>, j: Job) {
    j.id in ids && Guard(op, j)
  }

  function Updated(op: Control, ids: seq<JobId>, now: int, j: Job): Job {
    if Selected(op, ids, j) then Patch(op, j, now) else j
  }

  /** The collection after the update with `{multi: true}`. */
  function Apply(op: Control, jobs: seq<Job>, ids: seq<JobId>, now: int): (r: seq<Job>)
    ensures |r| == |jobs|
  {
    seq(|jobs|, i requires 0 <= i < |jobs| => Updated(op, ids, now, jobs[i]))
  }

  /** `nModified`: matched records the `$set` actually changed. */
  function Modified(op: Control, jobs: seq<Job>, ids: seq<JobId>, now: int): nat {
    if jobs == [] then 0
    else (if Updated(op, ids, now, jobs[0]) != jobs[0] then 1 else 0) + Modified(op, jobs[1..], ids, now)
  }

  /** Matched records, whether or not the `$set` changed them. */
  function Matched(op: Control, jobs: seq<Job>, ids: seq<JobId>): nat {
    if jobs == [] then 0
    else (if Selected(op, ids, jobs[0]) then 1 else 0) + Matched(op, jobs[1..], ids)
  }

  /** The number of positions at which two collections hold different records. */
  function Differences(a: seq<Job>, b: seq<Job>): nat
    requires |a| == |b|
  {
    if a == [] then 0
    else (if a[0] != b[0] then 1 else 0) + Differences(a[1..], b[1..])
  }

  /** The field the operation targets holds the value it sets. */
  predicate Achieved(op: Control, j: Job, now: int) {
    match op
    case Run => j.nextRunAt == Some(now)
    case Unlock => j.lockedAt.None?
    case Enable => j.disabled.None?
    case Disable => j.disabled == Some(true)
  }

  /** `a` and `b` agree on every field except the one the operation targets. */
  predicate SameOtherFields(op: Control, a: Job, b: Job) {
    match op
    case Run => a.(nextRunAt := b.nextRunAt) == b
    case Unlock => a.(lockedAt := b.lockedAt) == b
    case Enable | Disable => a.(disabled := b.disabled) == b
  }

  lemma ApplyTail(op: Control, jobs: seq<Job>, ids: seq<JobId>, now: int)
    requires jobs != []
    ensures Apply(op, jobs, ids, now)[1..] == Apply(op, jobs[1..], ids, now)
  {
  }

  /** Frame of an update: a record keeps its id; a record that is not listed,
      or whose guard fails, is unchanged; a selected one reaches the target
      value and keeps every other field. */
  lemma UpdateFrame(op: Control, jobs: seq<Job>, ids: seq<JobId>, now: int, i: nat)
    requires i < |jobs|
    ensures Apply(op, jobs, ids, now)[i].id == jobs[i].id
    ensures !Selected(op, ids, jobs[i]) ==> Apply(op, jobs, ids, now)[i] == jobs[i]
    ensures Selected(op, ids, jobs[i]) ==>
      Achieved(op, Apply(op, jobs, ids, now)[i], now) && SameOtherFields(op, jobs[i], Apply(op, jobs, ids, now)[i])
  {
  }

  /** A record whose `disabled` is an explicit `false` is never touched by disable. */
  lemma DisableSparesExplicitFalse(jobs: seq<Job>, ids: seq<JobId>, now: int, i: nat)
    requires i < |jobs| && jobs[i].disabled == Some(false)
    ensures Apply(Disable, jobs, ids, now)[i] == jobs[i]
  {
  }

  /** The reported count is exactly the number of records that changed. */
  lemma {:induction false} ModifiedCountsChanges(op: Control, jobs: seq<Job>, ids: seq<JobId>, now: int)
    ensures Modified(op, jobs, ids, now) == Differences(jobs, Apply(op, jobs, ids, now))
  {
    if jobs != [] {
      ModifiedCountsChanges(op, jobs[1..], ids, now);
      ApplyTail(op, jobs, ids, now);
    }
  }

  /** An update reports zero exactly when it leaves the collection as it was. */
  lemma {:induction false} NothingModifiedIffUnchanged(op: Control, jobs: seq<Job>, ids: seq<JobId>, now: int)
    ensures Modified(op, jobs, ids, now) == 0 <==> Apply(op, jobs, ids, now) == jobs
  {
    if jobs != [] {
      NothingModifiedIffUnchanged(op, jobs[1..], ids, now);
      ApplyTail(op, jobs, ids, now);
      var r := Apply(op, jobs, ids, now);
      assert r == [r[0]] + r[1..];
      assert jobs == [jobs[0]] + jobs[1..];
    }
  }

  /** Only matched records can be modified, and for unlock, enable and
      disable every matched record is. */
  lemma {:induction false} ModifiedAtMostMatched(op: Control, jobs: seq<Job>, ids: seq<JobId>, now: int)
    ensures Modified(op, jobs, ids, now) <= Matched(op, jobs, ids)
    ensures op != Run ==> Modified(op, jobs, ids, now) == Matched(op, jobs, ids)
  {
    if jobs != [] {
      ModifiedAtMostMatched(op, jobs[1..], ids, now);
    }
  }

  /** An empty id list matches nothing, so the update always reports zero. */
  lemma {:induction false} EmptyIdsModifyNothing(op: Control, jobs: seq<Job>, now: int)
    ensures Modified(op, jobs, [], now) == 0
  {
    if jobs != [] {
      EmptyIdsModifyNothing(op, jobs[1..], now);
    }
  }

  /** Repeating unlock, enable or disable on the same ids modifies nothing, and
      so does repeating run within the same instant. */
  lemma {:induction false} RepeatModifiesNothing(op: Control, jobs: seq<Job>, ids: seq<JobId>, now: int, later: int)
    requires op == Run ==> later == now
    ensures Modified(op, Apply(op, jobs, ids, now), ids, later) == 0
  {
    if jobs != [] {
      RepeatModifiesNothing(op, jobs[1..], ids, now, later);
      ApplyTail(op, jobs, ids, now);
    }
  }

  /** Repeating run at a later instant modifies every record the first run matched. */
  lemma {:induction false} RunAgainLater(jobs: seq<Job>, ids: seq<JobId>, now: int, later: int)
    requires later != now
    ensures Modified(Run, Apply(Run, jobs, ids, now), ids, later) == Matched(Run, jobs, ids)
  {
    if jobs != [] {
      RunAgainLater(jobs[1..], ids, now, later);
      ApplyTail(Run, jobs, ids, now);
    }
  }

  /** Applying an update twice leaves the same collection as applying it once. */
  lemma ApplyIdempotent(op: Control, jobs: seq<Job>, ids: seq<JobId>, now: int)
    ensures Apply(op, Apply(op, jobs, ids, now), ids, now) == Apply(op, jobs, ids, now)
  {
  }

  /** Updates never rewrite ids, so the store's id invariants survive them. */
  lemma ApplyKeepsIds(op: Control, jobs: seq<Job>, ids: seq<JobId>, now: int, bound: nat)
    requires IdsUnique(jobs) && IdsBelow(jobs, bound)
    ensures IdsUnique(Apply(op, jobs, ids, now)) && IdsBelow(Apply(op, jobs, ids, now), bound)
  {
    var r := Apply(op, jobs, ids, now);
    forall j | j in r ensures j.id < bound {
      var i :| 0 <= i < |r| && r[i] == j;
      assert jobs[i] in jobs;
    }
  }
}
