/** The job listing: name filter, sort, classification, state filter and page. */
module Listing {
  import opened Results
  import opened Records
  import opened Classifier

  /** The page size and offset of a listing; the offset is always 0. */
  const PageLimit: nat := 200
  const PageSkip: nat := 0

  /** One listed job with its flags. */
  datatype Row = Row(job: Job, flags: Flags)

  function JobsOf(rows: seq<Row>): (r: seq<Job>)
    ensures |r| == |rows| && forall i :: 0 <= i < |rows| ==> r[i] == rows[i].job
  {
    if rows == [] then [] else [rows[0].job] + JobsOf(rows[1..])
  }

  /** Sort order `{nextRunAt: 1, lastFinishedAt: 1, lastRunAt: 1}`, absent first. */
  predicate KeyLe(x: Job, y: Job) {
    Earlier(x.nextRunAt, y.nextRunAt) ||
    (x.nextRunAt == y.nextRunAt &&
      (Earlier(x.lastFinishedAt, y.lastFinishedAt) ||
        (x.lastFinishedAt == y.lastFinishedAt && NoLater(x.lastRunAt, y.lastRunAt))))
  }

  lemma KeyLeTotal(x: Job, y: Job)
    ensures KeyLe(x, y) || KeyLe(y, x)
  {
  }

  lemma KeyLeTrans(x: Job, y: Job, z: Job)
    requires KeyLe(x, y) && KeyLe(y, z)
    ensures KeyLe(x, z)
  {
  }

  predicate Sorted(s: seq<Job>) {
    forall i, k :: 0 <= i < k < |s| ==> KeyLe(s[i], s[k])
  }

  /** Places `x` before the first element it does not follow. */
  function Insert(x: Job, s: seq<Job>): (r: seq<Job>)
    ensures |r| == |s| + 1
  {
    if s == [] then [x]
    else if KeyLe(x, s[0]) then [x] + s
    else [s[0]] + Insert(x, s[1..])
  }

  lemma {:induction false} InsertCorrect(x: Job, s: seq<Job>)
    requires Sorted(s)
    ensures Sorted(Insert(x, s)) && multiset(Insert(x, s)) == multiset(s) + multiset{x}
  {
    if s == [] {
    } else if KeyLe(x, s[0]) {
      forall k | 0 < k < |s| ensures KeyLe(x, s[k]) { KeyLeTrans(x, s[0], s[k]); }
    } else {
      KeyLeTotal(x, s[0]);
      InsertCorrect(x, s[1..]);
      var t := Insert(x, s[1..]);
      assert s == [s[0]] + s[1..];
      forall k | 0 <= k < |t| ensures KeyLe(s[0], t[k]) {
        assert t[k] in multiset(s[1..]) + multiset{x};
        if t[k] != x {
          assert t[k] in s[1..];
        }
      }
    }
  }

  function Min(a: nat, b: nat): nat {
    if a <= b then a else b
  }

  /** A stable insertion sort by the listing key. */
  function SortByKey(s: seq<Job>): (r: seq<Job>)
    ensures |r| == |s|
  {
    if s == [] then [] else Insert(s[0], SortByKey(s[1..]))
  }

  /** The sort orders the records by the key and neither loses nor invents one. */
  lemma {:induction false} SortByKeyCorrect(s: seq<Job>)
    ensures Sorted(SortByKey(s)) && multiset(SortByKey(s)) == multiset(s)
  {
    if s != [] {
      SortByKeyCorrect(s[1..]);
      InsertCorrect(s[0], SortByKey(s[1..]));
      assert s == [s[0]] + s[1..];
    }
  }

  function Classified(s: seq<Job>, now: int): (rows: seq<Row>)
    ensures JobsOf(rows) == s
    ensures forall r :: r in rows ==> r.flags == Classify(r.job, now)
  {
    if s == [] then [] else [Row(s[0], Classify(s[0], now))] + Classified(s[1..], now)
  }

  /** The `postMatch` stage: with a state given, the rows whose flag of that name holds. */
  function InState(rows: seq<Row>, state: string): seq<Row> {
    if rows == [] then []
    else if state == "" || StateHolds(state, rows[0].flags) then [rows[0]] + InState(rows[1..], state)
    else InState(rows[1..], state)
  }

  /** `$limit: 200` followed by `$skip: 0`. */
  function Page(rows: seq<Row>): seq<Row> {
    (if |rows| <= PageLimit then rows else rows[..PageLimit])[PageSkip..]
  }

  /** `getJobs(job, state)`: an empty `job` or `state` is no filter. */
  function GetJobs(jobs: seq<Job>, job: string, state: string, now: int): (r: seq<Row>)
    ensures |r| <= PageLimit
  {
    var matched := if job == "" then jobs else WithName(jobs, job);
    var rows := Classified(SortByKey(matched), now);
    Page(InState(rows, state))
  }

  /** Whether a record belongs in the listing for `job` and `state`. */
  predicate Listed(j: Job, job: string, state: string, now: int) {
    (job == "" || j.name == job) && (state == "" || StateHolds(state, Classify(j, now)))
  }

  /** Reference definition: the records that belong in the listing, in store order. */
  function Matching(jobs: seq<Job>, job: string, state: string, now: int): seq<Job> {
    if jobs == [] then []
    else if Listed(jobs[0], job, state, now) then [jobs[0]] + Matching(jobs[1..], job, state, now)
    else Matching(jobs[1..], job, state, now)
  }

  lemma {:induction false} MatchingCount(jobs: seq<Job>, job: string, state: string, now: int)
    ensures forall x: Job :: multiset(Matching(jobs, job, state, now))[x] ==
              (if Listed(x, job, state, now) then multiset(jobs)[x] else 0)
  {
    if jobs != [] {
      MatchingCount(jobs[1..], job, state, now);
      assert jobs == [jobs[0]] + jobs[1..];
    }
  }

  lemma {:induction false} WithNameCount(jobs: seq<Job>, name: string)
    ensures forall x: Job :: multiset(WithName(jobs, name))[x] ==
              (if x.name == name then multiset(jobs)[x] else 0)
  {
    if jobs != [] {
      WithNameCount(jobs[1..], name);
      assert jobs == [jobs[0]] + jobs[1..];
    }
  }

  /** The `postMatch` stage seen on records rather than rows: `InState`
      restated without the flags, so that the proofs can reason on records. */
  function KeepState(s: seq<Job>, state: string, now: int): (r: seq<Job>)
    ensures forall x :: x in r ==> x in s
  {
    if s == [] then []
    else if state == "" || StateHolds(state, Classify(s[0], now)) then [s[0]] + KeepState(s[1..], state, now)
    else KeepState(s[1..], state, now)
  }

  lemma {:induction false} InStateJobs(s: seq<Job>, state: string, now: int)
    ensures JobsOf(InState(Classified(s, now), state)) == KeepState(s, state, now)
  {
    if s != [] {
      InStateJobs(s[1..], state, now);
      var rows := Classified(s, now);
      assert rows[0] == Row(s[0], Classify(s[0], now));
      assert rows[1..] == Classified(s[1..], now);
      var t := InState(rows[1..], state);
      if state == "" || StateHolds(state, Classify(s[0], now)) {
        assert InState(rows, state) == [rows[0]] + t;
        assert JobsOf([rows[0]] + t) == [s[0]] + JobsOf(t);
      } else {
        assert InState(rows, state) == t;
      }
    }
  }

  lemma {:induction false} KeepStateCount(s: seq<Job>, state: string, now: int)
    ensures forall x: Job :: multiset(KeepState(s, state, now))[x] ==
              (if state == "" || StateHolds(state, Classify(x, now)) then multiset(s)[x] else 0)
  {
    if s != [] {
      KeepStateCount(s[1..], state, now);
      assert s == [s[0]] + s[1..];
    }
  }

  lemma {:induction false} KeepStateSorted(s: seq<Job>, state: string, now: int)
    requires Sorted(s)
    ensures Sorted(KeepState(s, state, now))
  {
    if s != [] {
      KeepStateSorted(s[1..], state, now);
      var t := KeepState(s[1..], state, now);
      forall k | 0 <= k < |t| ensures KeyLe(s[0], t[k]) {
        assert t[k] in s[1..];
      }
    }
  }

  lemma InStateRows(rows: seq<Row>, state: string)
    ensures forall r :: r in InState(rows, state) ==> r in rows && (state == "" || StateHolds(state, r.flags))
  {
  }

  /** The listed records before the page is cut: matched by name, sorted,
      matched by state. It is `GetJobs` without the classification and the
      page cut, and exists for the proofs about the listing. */
  function Ordered(jobs: seq<Job>, job: string, state: string, now: int): seq<Job> {
    KeepState(SortByKey(if job == "" then jobs else WithName(jobs, job)), state, now)
  }

  /** Before the page is cut, the listing holds exactly the matching records, sorted. */
  lemma OrderedCorrect(jobs: seq<Job>, job: string, state: string, now: int)
    ensures Sorted(Ordered(jobs, job, state, now))
    ensures multiset(Ordered(jobs, job, state, now)) == multiset(Matching(jobs, job, state, now))
    ensures |Ordered(jobs, job, state, now)| == |Matching(jobs, job, state, now)|
  {
    var matched := if job == "" then jobs else WithName(jobs, job);
    var sorted := SortByKey(matched);
    SortByKeyCorrect(matched);
    KeepStateSorted(sorted, state, now);
    KeepStateCount(sorted, state, now);
    MatchingCount(jobs, job, state, now);
    WithNameCount(jobs, job);
    var kept := KeepState(sorted, state, now);
    var m := Matching(jobs, job, state, now);
    forall x: Job ensures multiset(kept)[x] == multiset(m)[x] {
      assert multiset(sorted)[x] == multiset(matched)[x];
      if job != "" {
        assert multiset(matched)[x] == (if x.name == job then multiset(jobs)[x] else 0);
      }
    }
    assert multiset(kept) == multiset(m);
    assert |multiset(kept)| == |multiset(m)|;
  }

  /** The listing is the first page of the ordered records, each with its flags. */
  lemma GetJobsIsPage(jobs: seq<Job>, job: string, state: string, now: int)
    ensures var all := Ordered(jobs, job, state, now);
            JobsOf(GetJobs(jobs, job, state, now)) == all[..Min(|all|, PageLimit)]
    ensures forall r :: r in GetJobs(jobs, job, state, now) ==> r.flags == Classify(r.job, now)
  {
    var sorted := SortByKey(if job == "" then jobs else WithName(jobs, job));
    var rowsAll := InState(Classified(sorted, now), state);
    InStateJobs(sorted, state, now);
    InStateRows(Classified(sorted, now), state);
    var n := Min(|rowsAll|, PageLimit);
    var rows := GetJobs(jobs, job, state, now);
    assert rows == rowsAll[..n];
    JobsOfPrefix(rowsAll, n);
  }

  lemma JobsOfPrefix(rows: seq<Row>, n: nat)
    requires n <= |rows|
    ensures JobsOf(rows[..n]) == JobsOf(rows)[..n]
  {
  }

  /** Every row is a stored record of the requested name whose requested flag
      holds, carrying the flags the classifier gives it. */
  lemma GetJobsRows(jobs: seq<Job>, job: string, state: string, now: int)
    ensures forall r :: r in GetJobs(jobs, job, state, now) ==>
      r.job in jobs && Listed(r.job, job, state, now) && r.flags == Classify(r.job, now)
  {
    var rows := GetJobs(jobs, job, state, now);
    var all := Ordered(jobs, job, state, now);
    GetJobsIsPage(jobs, job, state, now);
    OrderedCorrect(jobs, job, state, now);
    MatchingCount(jobs, job, state, now);
    forall r | r in rows ensures r.job in jobs && Listed(r.job, job, state, now) {
      var k :| 0 <= k < |rows| && rows[k] == r;
      assert all[k] == r.job;
      assert multiset(Matching(jobs, job, state, now))[r.job] > 0;
    }
  }

  /** The rows are ordered by the sort key, there are at most 200 of them, and
      they are all the matching records when there are no more than 200. */
  lemma GetJobsPage(jobs: seq<Job>, job: string, state: string, now: int)
    ensures Sorted(JobsOf(GetJobs(jobs, job, state, now)))
    ensures |GetJobs(jobs, job, state, now)| == Min(|Matching(jobs, job, state, now)|, PageLimit)
    ensures multiset(JobsOf(GetJobs(jobs, job, state, now))) <= multiset(Matching(jobs, job, state, now))
    ensures |Matching(jobs, job, state, now)| <= PageLimit ==>
      multiset(JobsOf(GetJobs(jobs, job, state, now))) == multiset(Matching(jobs, job, state, now))
  {
    var all := Ordered(jobs, job, state, now);
    var n := Min(|all|, PageLimit);
    var page := JobsOf(GetJobs(jobs, job, state, now));
    GetJobsIsPage(jobs, job, state, now);
    OrderedCorrect(jobs, job, state, now);
    assert page == all[..n];
    PrefixFacts(all, n);
  }

  lemma PrefixFacts(s: seq<Job>, n: nat)
    requires n <= |s|
    ensures Sorted(s) ==> Sorted(s[..n])
    ensures multiset(s[..n]) <= multiset(s)
    ensures n == |s| ==> s[..n] == s
  {
    assert s == s[..n] + s[n..];
    assert multiset(s) == multiset(s[..n]) + multiset(s[n..]);
  }

  /** When more than a page matches, the page holds the earliest records by the key. */
  lemma GetJobsEarliest(jobs: seq<Job>, job: string, state: string, now: int)
    ensures forall x, i ::
              (x in multiset(Matching(jobs, job, state, now)) - multiset(JobsOf(GetJobs(jobs, job, state, now))) &&
               0 <= i < |GetJobs(jobs, job, state, now)|) ==>
                KeyLe(GetJobs(jobs, job, state, now)[i].job, x)
  {
    var rows := GetJobs(jobs, job, state, now);
    var all := Ordered(jobs, job, state, now);
    var n := Min(|all|, PageLimit);
    GetJobsIsPage(jobs, job, state, now);
    OrderedCorrect(jobs, job, state, now);
    SortedTail(all, n);
    assert multiset(Matching(jobs, job, state, now)) - multiset(JobsOf(rows)) == multiset(all[n..]);
  }

  /** In a sorted sequence every element of a prefix precedes every element of the rest. */
  lemma SortedTail(s: seq<Job>, n: nat)
    requires Sorted(s) && n <= |s|
    ensures multiset(s) - multiset(s[..n]) == multiset(s[n..])
    ensures forall x, i :: x in multiset(s[n..]) && 0 <= i < n ==> KeyLe(s[i], x)
  {
    assert s == s[..n] + s[n..];
    assert multiset(s) == multiset(s[..n]) + multiset(s[n..]);
    forall x, i | x in multiset(s[n..]) && 0 <= i < n ensures KeyLe(s[i], x) {
      assert x in s[n..];
      var k :| n <= k < |s| && s[k] == x;
    }
  }

  /** A state name that is not one of the seven flags lists nothing. */
  lemma {:induction false} UnknownStateListsNothing(jobs: seq<Job>, job: string, state: string, now: int)
    requires state != "" && ParseState(state).None?
    ensures GetJobs(jobs, job, state, now) == []
  {
    var rows := Classified(SortByKey(if job == "" then jobs else WithName(jobs, job)), now);
    InStateRows(rows, state);
    assert InState(rows, state) == [] by {
      if InState(rows, state) != [] {
        assert InState(rows, state)[0] in InState(rows, state);
      }
    }
  }
}
