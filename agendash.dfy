/** The dashboard back-end: the query facade and the control operations over a
    store of job records. */
module Agendash {
  import opened Results
  import opened Records
  import opened Classifier
  import opened Listing
  import opened Overview
  import opened Updates

  const NotReady: string := "Agenda instance is not ready"
  const NotFound: string := "Jobs not found"
  const NotDeleted: string := "Jobs not deleted"
  const NotCreated: string := "Jobs not created"
  const DefaultTitle: string := "Emarsys Agendash"

  datatype CurrentRequest = CurrentRequest(title: string, job: string, state: string)

  datatype ApiResponse = ApiResponse(overview: Summary, jobs: seq<Row>, title: string, currentRequest: CurrentRequest)

  /** `options.title || 'Emarsys Agendash'`. */
  function DisplayTitle(title: string): string {
    if title == "" then DefaultTitle else title
  }

  /** How a created job is scheduled; the strings are handed to the engine unparsed. */
  datatype Plan =
    | Once(when: string)                     // job.schedule(when)
    | Every(interval: string)                // job.repeatEvery(interval)
    | EveryFrom(at: string, interval: string) // job.repeatAt(at); job.repeatEvery(interval)

  /** The scheduling mode `createJob` picks; an empty string is a value not supplied. */
  function PlanFor(schedule: string, repeatEvery: string): (p: Option<Plan>)
    ensures p.None? <==> schedule == "" && repeatEvery == ""
    ensures p.Some? && p.value.Once? ==> schedule != "" && repeatEvery == ""
    ensures p.Some? && (p.value.Every? || p.value.EveryFrom?) ==> p.value.interval == repeatEvery
    ensures schedule != "" && repeatEvery != "" ==> p == Some(EveryFrom(schedule, repeatEvery))
    ensures schedule != "" && repeatEvery == "" ==> p == Some(Once(schedule))
    ensures schedule == "" && repeatEvery != "" ==> p == Some(Every(repeatEvery))
  {
    if schedule != "" && repeatEvery != "" then Some(EveryFrom(schedule, repeatEvery))
    else if schedule != "" then Some(Once(schedule))
    else if repeatEvery != "" then Some(Every(repeatEvery))
    else None
  }

  /** The record `agenda.create(name, data)` saves under a plan; `firstRunAt`
      is the first run the engine works out from the plan's strings. */
  function Created(id: JobId, name: string, data: string, plan: Plan, firstRunAt: int): Job {
    Job(id, name, data, None, None, Some(firstRunAt), None, None, None, None,
        if plan.Once? then None else Some(plan.interval), None,
        if plan.EveryFrom? then Some(plan.at) else None, None)
  }

  /** A created record is due at the first run the engine works out. With
      both strings supplied the schedule becomes its `repeatAt`; it repeats
      exactly when `repeatEvery` was supplied, at that interval. */
  lemma CreatedFields(id: JobId, name: string, data: string, schedule: string,
                      repeatEvery: string, firstRunAt: int)
    requires PlanFor(schedule, repeatEvery).Some?
    ensures var j := Created(id, name, data, PlanFor(schedule, repeatEvery).value, firstRunAt);
      && j.id == id && j.name == name && j.data == data
      && j.nextRunAt == Some(firstRunAt)
      && j.repeatAt == (if schedule != "" && repeatEvery != "" then Some(schedule) else None)
      && j.repeatInterval == (if repeatEvery != "" then Some(repeatEvery) else None)
      && j.lockedAt.None? && j.disabled.None? && j.lastRunAt.None? && j.lastFinishedAt.None?
  {
  }

  /** The record a requeue saves: the same name and data, due immediately. */
  function Fresh(id: JobId, name: string, data: string, now: int): Job {
    Job(id, name, data, None, None, Some(now), None, None, None, None, None, None, None, None)
  }

  /** The records `find({_id: {$in: ids}})` returns, in store order. */
  function Lookup(jobs: seq<Job>, ids: seq<JobId>): (r: seq<Job>)
    ensures forall j :: j in r <==> j in jobs && j.id in ids
  {
    if jobs == [] then []
    else if jobs[0].id in ids then [jobs[0]] + Lookup(jobs[1..], ids)
    else Lookup(jobs[1..], ids)
  }

  /** The collection after `cancel({_id: {$in: ids}})`. */
  function Without(jobs: seq<Job>, ids: seq<JobId>): (r: seq<Job>)
    ensures forall j :: j in r <==> j in jobs && j.id !in ids
    ensures |r| + |Lookup(jobs, ids)| == |jobs|
  {
    if jobs == [] then []
    else if jobs[0].id in ids then Without(jobs[1..], ids)
    else [jobs[0]] + Without(jobs[1..], ids)
  }

  /** The records a requeue creates for the found ones, numbered from `firstId`. */
  function Requeued(found: seq<Job>, firstId: nat, now: int): seq<Job> {
    seq(|found|, k requires 0 <= k < |found| => Fresh(firstId + k, found[k].name, found[k].data, now))
  }

  /** A requeue creates one record per found record, with its name and data
      and an id no stored record has; ids stay unique. */
  lemma RequeuedRecords(jobs: seq<Job>, found: seq<Job>, firstId: nat, now: int)
    requires IdsUnique(jobs) && IdsBelow(jobs, firstId)
    ensures |Requeued(found, firstId, now)| == |found|
    ensures forall k :: 0 <= k < |found| ==>
      Requeued(found, firstId, now)[k].name == found[k].name &&
      Requeued(found, firstId, now)[k].data == found[k].data &&
      Requeued(found, firstId, now)[k].id !in set j | j in jobs :: j.id
    ensures IdsUnique(jobs + Requeued(found, firstId, now))
    ensures IdsBelow(jobs + Requeued(found, firstId, now), firstId + |found|)
  {
    var all := jobs + Requeued(found, firstId, now);
    forall a, b | 0 <= a < b < |all| ensures all[a].id != all[b].id {
      if a < |jobs| {
        assert all[a] in jobs;
      }
    }
    forall j | j in all ensures j.id < firstId + |found| {
      var i :| 0 <= i < |all| && all[i] == j;
      if i < |jobs| {
        assert all[i] in jobs;
      }
    }
  }

  /** A requeued record is due at once: scheduled and queued at `now`, and
      neither running, finished, repeating nor disabled. */
  lemma RequeuedIsDue(id: JobId, name: string, data: string, now: int)
    ensures Classify(Fresh(id, name, data, now), now) == Flags(false, true, true, false, false, false, false)
  {
  }

  /** A created record repeats exactly when `repeatEvery` was supplied, has
      never run, and is scheduled when its first run is not in the past. */
  lemma CreatedClassification(id: JobId, name: string, data: string, schedule: string,
                              repeatEvery: string, firstRunAt: int, now: int)
    requires PlanFor(schedule, repeatEvery).Some?
    ensures var f := Classify(Created(id, name, data, PlanFor(schedule, repeatEvery).value, firstRunAt), now);
      && (f.repeating <==> repeatEvery != "")
      && (f.scheduled <==> firstRunAt >= now)
      && !f.running && !f.completed && !f.failed && !f.disabled
  {
  }

  /** After a run every selected record is scheduled at `now`, and queued
      unless its last finish is later than `now`. */
  lemma RunMakesDue(jobs: seq<Job>, ids: seq<JobId>, now: int, i: nat)
    requires i < |jobs| && jobs[i].id in ids && jobs[i].lockedAt.None?
    ensures Classify(Apply(Run, jobs, ids, now)[i], now).scheduled
    ensures Classify(Apply(Run, jobs, ids, now)[i], now).queued <==> NoLater(jobs[i].lastFinishedAt, Some(now))
  {
  }

  lemma {:induction false} WithoutKeepsIds(jobs: seq<Job>, ids: seq<JobId>, bound: nat)
    requires IdsUnique(jobs) && IdsBelow(jobs, bound)
    ensures IdsUnique(Without(jobs, ids)) && IdsBelow(Without(jobs, ids), bound)
  {
    if jobs != [] {
      assert IdsUnique(jobs[1..]);
      WithoutKeepsIds(jobs[1..], ids, bound);
      var rest := Without(jobs[1..], ids);
      if jobs[0].id !in ids {
        forall k | 0 <= k < |rest| ensures rest[k].id != jobs[0].id {
          assert rest[k] in jobs[1..];
        }
      }
    }
  }

  /** The smallest id above every stored one. */
  function FreshId(js: seq<Job>): (n: nat)
    ensures IdsBelow(js, n)
  {
    if js == [] then 0
    else var rest := FreshId(js[1..]); if js[0].id < rest then rest else js[0].id + 1
  }

  /** The replies `deleteJobs` issues as written: when nothing was deleted it
      calls back with the failure and then, lacking a `return`, calls back a
      second time with success. */
  function DeleteRepliesAsWritten(removed: nat): seq<Reply<()>> {
    (if removed == 0 then [Err(NotDeleted)] else []) + [Ok(())]
  }

  /** Deleting ids none of which is stored draws two replies: a failure, then a success. */
  lemma DeleteAsWrittenRepliesTwice(jobs: seq<Job>, ids: seq<JobId>)
    requires forall j :: j in jobs ==> j.id !in ids
    ensures DeleteRepliesAsWritten(|Lookup(jobs, ids)|) == [Err(NotDeleted), Ok(())]
  {
    LookupNone(jobs, ids);
  }

  lemma {:induction false} LookupNone(jobs: seq<Job>, ids: seq<JobId>)
    requires forall j :: j in jobs ==> j.id !in ids
    ensures Lookup(jobs, ids) == []
  {
    if jobs != [] {
      assert jobs[0] in jobs;
      LookupNone(jobs[1..], ids);
    }
  }

  /** The jobs collection, the engine handle's presence and the options. */
  class Dashboard {
    var jobs: seq<Job>
    var nextId: nat
    const ready: bool
    const title: string

    ghost predicate Valid()
      reads this
    {
      IdsUnique(jobs) && IdsBelow(jobs, nextId)
    }

    constructor (initial: seq<Job>, ready: bool, title: string)
      requires IdsUnique(initial)
      ensures Valid() && jobs == initial && this.ready == ready && this.title == title
    {
      jobs := initial;
      nextId := FreshId(initial);
      this.ready := ready;
      this.title := title;
    }

    /** `api(job, state)`: the overview's totals row, the listing, and the
        request echoed back with its defaults filled in. */
    method Api(job: string, state: string, now: int) returns (r: Reply<ApiResponse>)
      ensures !ready ==> r == Err(NotReady)
      ensures ready ==> r.Ok?
      ensures ready ==> r.value.overview == Summary(AllJobs, {}, Tally(jobs, now))
      ensures ready ==> r.value.jobs == GetJobs(jobs, job, state, now)
      ensures ready ==> r.value.title == DisplayTitle(title)
      ensures ready ==> r.value.currentRequest ==
                          CurrentRequest(DisplayTitle(title), if job == "" then AllJobs else job, state)
    {
      if !ready {
        return Err(NotReady);
      }
      var overview := GetOverview(jobs, now);
      GroupsCountEverything(jobs, now);
      var listed := GetJobs(jobs, job, state, now);
      var shown := DisplayTitle(title);
      r := Ok(ApiResponse(overview, listed, shown, CurrentRequest(shown, if job == "" then AllJobs else job, state)));
    }

    /** The shared shape of the four guarded operations: one conditional
        multi-record update, failing with its message when nothing changed. */
    method ConditionalUpdate(op: Control, ids: seq<JobId>, now: int) returns (r: Reply<nat>)
      requires Valid()
      modifies this`jobs
      ensures Valid()
      ensures !ready ==> r == Err(NotReady) && jobs == old(jobs)
      ensures ready ==> jobs == Apply(op, old(jobs), ids, now)
      ensures ready ==> r == if Modified(op, old(jobs), ids, now) == 0 then Err(FailureMessage(op))
                             else Ok(Modified(op, old(jobs), ids, now))
      ensures r.Err? ==> jobs == old(jobs)
    {
      if !ready {
        return Err(NotReady);
      }
      var count := Modified(op, jobs, ids, now);
      ApplyKeepsIds(op, jobs, ids, now, nextId);
      NothingModifiedIffUnchanged(op, jobs, ids, now);
      jobs := Apply(op, jobs, ids, now);
      if count == 0 {
        r := Err(FailureMessage(op));
      } else {
        r := Ok(count);
      }
    }

    /** `runJobs`: sets `nextRunAt` to now on the listed records that are not locked. */
    method RunJobs(ids: seq<JobId>, now: int) returns (r: Reply<nat>)
      requires Valid()
      modifies this`jobs
      ensures Valid()
      ensures !ready ==> r == Err(NotReady) && jobs == old(jobs)
      ensures ready ==> jobs == Apply(Run, old(jobs), ids, now)
      ensures ready ==> r == if Modified(Run, old(jobs), ids, now) == 0 then Err("Jobs not found, or jobs were locked.")
                             else Ok(Modified(Run, old(jobs), ids, now))
      ensures r.Err? ==> jobs == old(jobs)
    {
      r := ConditionalUpdate(Run, ids, now);
    }

    /** `unlockJobs`: clears `lockedAt` on the listed records that are locked. */
    method UnlockJobs(ids: seq<JobId>, now: int) returns (r: Reply<nat>)
      requires Valid()
      modifies this`jobs
      ensures Valid()
      ensures !ready ==> r == Err(NotReady) && jobs == old(jobs)
      ensures ready ==> jobs == Apply(Unlock, old(jobs), ids, now)
      ensures ready ==> r == if Modified(Unlock, old(jobs), ids, now) == 0 then Err("Jobs not found, or jobs were unlocked.")
                             else Ok(Modified(Unlock, old(jobs), ids, now))
      ensures r.Err? ==> jobs == old(jobs)
    {
      r := ConditionalUpdate(Unlock, ids, now);
    }

    /** `enableJobs`: clears `disabled` on the listed records where it is set, even to false. */
    method EnableJobs(ids: seq<JobId>, now: int) returns (r: Reply<nat>)
      requires Valid()
      modifies this`jobs
      ensures Valid()
      ensures !ready ==> r == Err(NotReady) && jobs == old(jobs)
      ensures ready ==> jobs == Apply(Enable, old(jobs), ids, now)
      ensures ready ==> r == if Modified(Enable, old(jobs), ids, now) == 0 then Err("Jobs not found, or jobs were already enabled.")
                             else Ok(Modified(Enable, old(jobs), ids, now))
      ensures r.Err? ==> jobs == old(jobs)
    {
      r := ConditionalUpdate(Enable, ids, now);
    }

    /** `disableJobs`: sets `disabled` to true on the listed records where it is absent or null. */
    method DisableJobs(ids: seq<JobId>, now: int) returns (r: Reply<nat>)
      requires Valid()
      modifies this`jobs
      ensures Valid()
      ensures !ready ==> r == Err(NotReady) && jobs == old(jobs)
      ensures ready ==> jobs == Apply(Disable, old(jobs), ids, now)
      ensures ready ==> r == if Modified(Disable, old(jobs), ids, now) == 0 then Err("Jobs not found, or jobs were already disabled.")
                             else Ok(Modified(Disable, old(jobs), ids, now))
      ensures r.Err? ==> jobs == old(jobs)
    {
      r := ConditionalUpdate(Disable, ids, now);
    }

    /** `requeueJobs`: saves one fresh record per listed record found, in
        lookup order, and hands the new records back. */
    method RequeueJobs(ids: seq<JobId>, now: int) returns (r: Reply<seq<Job>>)
      requires Valid()
      modifies this`jobs, this`nextId
      ensures Valid()
      ensures !ready ==> r == Err(NotReady) && jobs == old(jobs)
      ensures ready && |Lookup(old(jobs), ids)| == 0 ==> r == Err(NotFound) && jobs == old(jobs)
      ensures ready && |Lookup(old(jobs), ids)| > 0 ==>
        r == Ok(Requeued(Lookup(old(jobs), ids), old(nextId), now)) && jobs == old(jobs) + r.value
    {
      if !ready {
        return Err(NotReady);
      }
      var found := Lookup(jobs, ids);
      if |found| == 0 {
        return Err(NotFound);
      }
      var created: seq<Job> := [];
      var i := 0;
      while i < |found|
        invariant 0 <= i <= |found|
        invariant created == Requeued(found[..i], old(nextId), now)
        invariant jobs == old(jobs) + created
        invariant nextId == old(nextId) + i
      {
        var record := Fresh(nextId, found[i].name, found[i].data, now);
        jobs := jobs + [record];
        nextId := nextId + 1;
        created := created + [record];
        i := i + 1;
      }
      assert found[..i] == found;
      RequeuedRecords(old(jobs), found, old(nextId), now);
      r := Ok(created);
    }

    /** `deleteJobs`: removes the listed records; fails once when none was removed. */
    method DeleteJobs(ids: seq<JobId>) returns (r: Reply<()>)
      requires Valid()
      modifies this`jobs
      ensures Valid()
      ensures !ready ==> r == Err(NotReady) && jobs == old(jobs)
      ensures ready ==> jobs == Without(old(jobs), ids)
      ensures ready ==> r == if |Lookup(old(jobs), ids)| == 0 then Err(NotDeleted) else Ok(())
    {
      if !ready {
        return Err(NotReady);
      }
      var removed := |Lookup(jobs, ids)|;
      WithoutKeepsIds(jobs, ids, nextId);
      jobs := Without(jobs, ids);
      if removed == 0 {
        r := Err(NotDeleted);
      } else {
        r := Ok(());
      }
    }

    /** `createJob`: picks the plan from the supplied schedule strings and
        saves one record; `saveOk` is the outcome of the engine's save. */
    method CreateJob(name: string, schedule: string, repeatEvery: string, data: string,
                     firstRunAt: int, saveOk: bool) returns (r: Reply<()>)
      requires Valid()
      modifies this`jobs, this`nextId
      ensures Valid()
      ensures !ready ==> r == Err(NotReady) && jobs == old(jobs)
      ensures ready && (PlanFor(schedule, repeatEvery).None? || !saveOk) ==>
        r == Err(NotCreated) && jobs == old(jobs)
      ensures ready && PlanFor(schedule, repeatEvery).Some? && saveOk ==>
        r == Ok(()) && jobs == old(jobs) + [Created(old(nextId), name, data, PlanFor(schedule, repeatEvery).value, firstRunAt)]
    {
      if !ready {
        return Err(NotReady);
      }
      var plan := PlanFor(schedule, repeatEvery);
      if plan.None? {
        return Err(NotCreated);
      }
      var record := Created(nextId, name, data, plan.value, firstRunAt);
      if !saveOk {
        return Err(NotCreated);
      }
      jobs := jobs + [record];
      nextId := nextId + 1;
      r := Ok(());
    }
  }
}
