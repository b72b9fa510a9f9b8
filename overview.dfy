/** The overview: per-name groups of flag counts, and the "All Jobs" totals row
    that is the only row handed back. */
module Overview {
  import opened Results
  import opened Records
  import opened Classifier
  import Listing

  const AllJobs: string := "All Jobs"

  /** The counters of a row, in the order of the `states` list. */
  datatype Stat = Total | Count(flag: Flag)

  const States: seq<Stat> := [Total, Count(Running), Count(Scheduled), Count(Queued),
                              Count(Completed), Count(Failed), Count(Repeating), Count(Disabled)]

  datatype Counters = Counters(
    total: nat, running: nat, scheduled: nat, queued: nat,
    completed: nat, failed: nat, repeating: nat, disabled: nat)
  {
    function Get(s: Stat): nat {
      match s
      case Total => total
      case Count(Running) => running
      case Count(Scheduled) => scheduled
      case Count(Queued) => queued
      case Count(Completed) => completed
      case Count(Failed) => failed
      case Count(Repeating) => repeating
      case Count(Disabled) => disabled
    }

    function With(s: Stat, v: nat): Counters {
      match s
      case Total => this.(total := v)
      case Count(Running) => this.(running := v)
      case Count(Scheduled) => this.(scheduled := v)
      case Count(Queued) => this.(queued := v)
      case Count(Completed) => this.(completed := v)
      case Count(Failed) => this.(failed := v)
      case Count(Repeating) => this.(repeating := v)
      case Count(Disabled) => this.(disabled := v)
    }

    function Plus(o: Counters): Counters {
      Counters(total + o.total, running + o.running, scheduled + o.scheduled, queued + o.queued,
               completed + o.completed, failed + o.failed, repeating + o.repeating, disabled + o.disabled)
    }
  }

  const Zero: Counters := Counters(0, 0, 0, 0, 0, 0, 0, 0)

  lemma PlusZero(a: Counters)
    ensures a.Plus(Zero) == a
  {
  }

  lemma PlusRearrange(a: Counters, b: Counters, c: Counters)
    ensures a.Plus(b.Plus(c)) == a.Plus(b).Plus(c)
    ensures a.Plus(b.Plus(c)) == b.Plus(a.Plus(c))
  {
  }

  /** The distinct configuration a group reports in `meta`. */
  datatype Meta = Meta(jobType: Option<string>, priority: Option<int>,
                       repeatInterval: Option<string>, repeatTimezone: Option<string>)

  /** A row of the overview: a name group, or the totals row (which has no meta). */
  datatype Summary = Summary(displayName: string, meta: set<Meta>, counts: Counters)

  /** `{$cond: [flag, 1, 0]}`. */
  function Indicator(b: bool): nat {
    if b then 1 else 0
  }

  /** What one record adds to its group's sums: 1 to `total` and the 0/1
      value of each flag from the overview projection. */
  function Contribution(j: Job, now: int): Counters {
    var f := OverviewProjection(j, now);
    Counters(1, Indicator(f.running), Indicator(f.scheduled), Indicator(f.queued),
             Indicator(f.completed), Indicator(f.failed), Indicator(f.repeating), Indicator(f.disabled))
  }

  /** The `$sum` accumulators of `$group` over some records. */
  function Tally(js: seq<Job>, now: int): (c: Counters)
    ensures c.total == |js|
  {
    if js == [] then Zero else Contribution(js[0], now).Plus(Tally(js[1..], now))
  }

  /** Reference definition: the number of records whose flag holds. */
  function CountFlag(js: seq<Job>, f: Flag, now: int): nat {
    if js == [] then 0
    else (if Classify(js[0], now).Get(f) then 1 else 0) + CountFlag(js[1..], f, now)
  }

  lemma PlusGet(a: Counters, b: Counters, s: Stat)
    ensures a.Plus(b).Get(s) == a.Get(s) + b.Get(s)
  {
  }

  /** A record adds one to `total` and one to each flag the classifier sets. */
  lemma ContributionCounts(j: Job, now: int)
    ensures Contribution(j, now).total == 1
    ensures forall f :: Contribution(j, now).Get(Count(f)) == if Classify(j, now).Get(f) then 1 else 0
  {
    ProjectionsAgree(j, now);
  }

  /** A group's sums are the record count and, for each flag, the number of
      records the classifier flags. */
  lemma {:induction false} TallyCounts(js: seq<Job>, now: int)
    ensures Tally(js, now).total == |js|
    ensures forall f :: Tally(js, now).Get(Count(f)) == CountFlag(js, f, now)
  {
    if js != [] {
      TallyCounts(js[1..], now);
      ContributionCounts(js[0], now);
      var c := Contribution(js[0], now);
      var rest := Tally(js[1..], now);
      assert Tally(js, now) == c.Plus(rest);
      forall f ensures Tally(js, now).Get(Count(f)) == CountFlag(js, f, now) {
        PlusGet(c, rest, Count(f));
      }
    }
  }

  function MetaOf(j: Job): Meta {
    Meta(j.jobType, j.priority, j.repeatInterval, j.repeatTimezone)
  }

  /** The distinct names of the records. */
  function Names(js: seq<Job>): (ns: seq<string>)
    ensures forall a, b :: 0 <= a < b < |ns| ==> ns[a] != ns[b]
    ensures forall j :: j in js ==> j.name in ns
    ensures forall n :: n in ns ==> exists j :: j in js && j.name == n
  {
    if js == [] then []
    else
      var rest := Names(js[1..]);
      if js[0].name in rest then rest else [js[0].name] + rest
  }

  /** The `$group` row of one name. */
  function GroupOf(name: string, jobs: seq<Job>, now: int): Summary {
    var members := WithName(jobs, name);
    Summary(name, set j | j in members :: MetaOf(j), Tally(members, now))
  }

  function GroupsFor(names: seq<string>, jobs: seq<Job>, now: int): seq<Summary> {
    seq(|names|, i requires 0 <= i < |names| => GroupOf(names[i], jobs, now))
  }

  /** The `$group` stage: one row per distinct name. */
  function Groups(jobs: seq<Job>, now: int): (gs: seq<Summary>)
    ensures forall a, b :: 0 <= a < b < |gs| ==> gs[a].displayName != gs[b].displayName
  {
    GroupsFor(Names(jobs), jobs, now)
  }

  /** `$group` makes one row for each name present and none for an absent
      one: every record's name has a row, and every row counts the records
      of its name, of which there is at least one. */
  lemma GroupsOnePerName(jobs: seq<Job>, now: int)
    ensures forall j :: j in jobs ==> exists g :: g in Groups(jobs, now) && g.displayName == j.name
    ensures forall g :: g in Groups(jobs, now) ==>
              g.counts.total > 0 && g.counts.total == |WithName(jobs, g.displayName)|
  {
    var names := Names(jobs);
    var gs := Groups(jobs, now);
    forall j | j in jobs ensures exists g :: g in gs && g.displayName == j.name {
      var k :| 0 <= k < |names| && names[k] == j.name;
      assert gs[k] in gs;
    }
    forall g | g in gs ensures g.counts.total > 0 && g.counts.total == |WithName(jobs, g.displayName)| {
      var k :| 0 <= k < |gs| && gs[k] == g;
      assert names[k] in names;
      var j :| j in jobs && j.name == names[k];
      assert j in WithName(jobs, names[k]);
    }
  }

  /** The element-wise sum of the rows' counters. */
  function SumCounts(rows: seq<Summary>): Counters {
    if rows == [] then Zero else SumCounts(rows[..|rows| - 1]).Plus(rows[|rows| - 1].counts)
  }

  function WithoutName(js: seq<Job>, name: string): seq<Job> {
    if js == [] then []
    else if js[0].name == name then WithoutName(js[1..], name)
    else [js[0]] + WithoutName(js[1..], name)
  }

  lemma {:induction false} TallySplit(js: seq<Job>, name: string, now: int)
    ensures Tally(js, now) == Tally(WithName(js, name), now).Plus(Tally(WithoutName(js, name), now))
  {
    if js == [] {
      assert WithName(js, name) == [] && WithoutName(js, name) == [];
      PlusZero(Zero);
    } else {
      TallySplit(js[1..], name, now);
      var c := Contribution(js[0], now);
      var a := Tally(WithName(js[1..], name), now);
      var b := Tally(WithoutName(js[1..], name), now);
      assert Tally(js, now) == c.Plus(a.Plus(b));
      PlusRearrange(c, a, b);
      if js[0].name == name {
        var w := WithName(js, name);
        assert w == [js[0]] + WithName(js[1..], name);
        assert w[1..] == WithName(js[1..], name);
        assert Tally(w, now) == c.Plus(a);
        assert WithoutName(js, name) == WithoutName(js[1..], name);
        assert Tally(js, now) == Tally(w, now).Plus(b);
      } else {
        var w := WithoutName(js, name);
        assert w == [js[0]] + WithoutName(js[1..], name);
        assert w[1..] == WithoutName(js[1..], name);
        assert Tally(w, now) == c.Plus(b);
        assert WithName(js, name) == WithName(js[1..], name);
        assert Tally(js, now) == a.Plus(Tally(w, now));
      }
    }
  }

  lemma {:induction false} WithNameOfWithout(js: seq<Job>, name: string, other: string)
    requires name != other
    ensures WithName(WithoutName(js, other), name) == WithName(js, name)
  {
    if js != [] {
      WithNameOfWithout(js[1..], name, other);
    }
  }

  lemma {:induction false} WithoutNameMembers(js: seq<Job>, other: string)
    ensures forall j :: j in WithoutName(js, other) ==> j in js && j.name != other
  {
    if js != [] {
      WithoutNameMembers(js[1..], other);
    }
  }

  lemma PlusComm(a: Counters, b: Counters)
    ensures a.Plus(b) == b.Plus(a)
  {
  }

  /** Groups over distinct names covering every record sum to the tally of all records. */
  lemma {:induction false} GroupsSum(names: seq<string>, jobs: seq<Job>, now: int)
    requires forall a, b :: 0 <= a < b < |names| ==> names[a] != names[b]
    requires forall j :: j in jobs ==> j.name in names
    ensures SumCounts(GroupsFor(names, jobs, now)) == Tally(jobs, now)
    decreases |names|
  {
    if names == [] {
      assert jobs == [];
      assert GroupsFor(names, jobs, now) == [];
    } else {
      var last := names[|names| - 1];
      var init := names[..|names| - 1];
      assert names == init + [last];
      var rest := WithoutName(jobs, last);
      WithoutNameMembers(jobs, last);
      forall j | j in rest ensures j.name in init {
        assert j.name in names;
      }
      GroupsSum(init, rest, now);
      var gs := GroupsFor(names, jobs, now);
      forall i | 0 <= i < |init| ensures GroupOf(init[i], rest, now) == GroupOf(init[i], jobs, now) {
        WithNameOfWithout(jobs, init[i], last);
      }
      assert gs[..|gs| - 1] == GroupsFor(init, rest, now);
      var front := SumCounts(gs[..|gs| - 1]);
      assert front == Tally(rest, now);
      assert gs[|gs| - 1].counts == Tally(WithName(jobs, last), now);
      assert SumCounts(gs) == front.Plus(gs[|gs| - 1].counts);
      TallySplit(jobs, last, now);
      PlusComm(Tally(rest, now), Tally(WithName(jobs, last), now));
    }
  }

  /** The overview invariant: the per-name groups together count every record once. */
  lemma GroupsCountEverything(jobs: seq<Job>, now: int)
    ensures SumCounts(Groups(jobs, now)) == Tally(jobs, now)
  {
    GroupsSum(Names(jobs), jobs, now);
  }

  lemma StatesDistinct()
    ensures forall a, b :: 0 <= a < b < |States| ==> States[a] != States[b]
  {
  }

  /** Two rows of counters agree when they agree on every entry of `States`. */
  lemma CountersEqual(a: Counters, b: Counters)
    requires forall m :: 0 <= m < |States| ==> a.Get(States[m]) == b.Get(States[m])
    ensures a == b
  {
    assert a.Get(States[0]) == b.Get(States[0]);
    assert a.Get(States[1]) == b.Get(States[1]);
    assert a.Get(States[2]) == b.Get(States[2]);
    assert a.Get(States[3]) == b.Get(States[3]);
    assert a.Get(States[4]) == b.Get(States[4]);
    assert a.Get(States[5]) == b.Get(States[5]);
    assert a.Get(States[6]) == b.Get(States[6]);
    assert a.Get(States[7]) == b.Get(States[7]);
  }

  lemma GetWith(c: Counters, s: Stat, v: nat, t: Stat)
    ensures c.With(s, v).Get(t) == if s == t then v else c.Get(t)
  {
  }

  /** One pass of the inner `states.forEach`: adds a group's counters to the
      running totals, state by state. */
  method AddRow(totals: Counters, row: Counters) returns (sum: Counters)
    ensures sum == totals.Plus(row)
  {
    StatesDistinct();
    sum := totals;
    var k := 0;
    while k < |States|
      invariant 0 <= k <= |States|
      invariant forall m :: 0 <= m < |States| ==>
        sum.Get(States[m]) == totals.Get(States[m]) + (if m < k then row.Get(States[m]) else 0)
    {
      var s := States[k];
      ghost var prev := sum;
      sum := sum.With(s, sum.Get(s) + row.Get(s));
      forall m | 0 <= m < |States|
        ensures sum.Get(States[m]) == totals.Get(States[m]) + (if m < k + 1 then row.Get(States[m]) else 0)
      {
        GetWith(prev, s, prev.Get(s) + row.Get(s), States[m]);
      }
      k := k + 1;
    }
    CountersEqual(sum, totals.Plus(row));
  }

  /** `getOverview`: builds the totals row by adding every group's counters,
      puts it in front of the groups and hands back only that first row. Its
      counters are the number of records and, per flag, the number of records
      the classifier flags. */
  method GetOverview(jobs: seq<Job>, now: int) returns (overview: Summary)
    ensures overview.displayName == AllJobs && overview.meta == {}
    ensures overview.counts.total == |jobs|
    ensures forall f :: overview.counts.Get(Count(f)) == CountFlag(jobs, f, now)
    ensures overview.counts == SumCounts(Groups(jobs, now))
  {
    var results := Groups(jobs, now);
    var totals := Zero;
    var i := 0;
    while i < |results|
      invariant 0 <= i <= |results|
      invariant totals == SumCounts(results[..i])
    {
      totals := AddRow(totals, results[i].counts);
      assert results[..i + 1][..i] == results[..i];
      i := i + 1;
    }
    assert results[..i] == results;
    var rows := [Summary(AllJobs, {}, totals)] + results;
    overview := rows[0];
    GroupsCountEverything(jobs, now);
    TallyCounts(jobs, now);
  }

  lemma {:induction false} CountIsMatching(jobs: seq<Job>, f: Flag, now: int)
    ensures CountFlag(jobs, f, now) == |Listing.Matching(jobs, "", FlagName(f), now)|
  {
    if jobs != [] {
      CountIsMatching(jobs[1..], f, now);
    }
  }

  /** The totals row agrees with the listing: for each flag it counts exactly
      the records the unfiltered listing for that state would show, and there
      are as many listed rows as that count as long as it fits on a page. */
  lemma CountMatchesListing(jobs: seq<Job>, f: Flag, now: int)
    ensures CountFlag(jobs, f, now) == |Listing.Matching(jobs, "", FlagName(f), now)|
    ensures |Listing.GetJobs(jobs, "", FlagName(f), now)| == Listing.Min(CountFlag(jobs, f, now), Listing.PageLimit)
  {
    CountIsMatching(jobs, f, now);
    Listing.GetJobsPage(jobs, "", FlagName(f), now);
  }
}
