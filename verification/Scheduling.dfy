// The greedy first-fit production scheduler: what it guarantees and how far it is from the best packing.
module Scheduling {
  import opened Option

  // `dueDate` is the parsed date; a priority, when given, replaces it as the sort key.
  datatype Job = Job(id: string, minutes: real, dueDate: real, priority: Option<real>)

  datatype Resource = Resource(id: string, capacity: real)

  datatype Assignment = Assignment(job: string, resource: string, start: real, end: real)

  datatype Plan = Plan(assignments: seq<Assignment>, unassigned: seq<string>, cursor: map<string, real>)

  function Key(job: Job): real {
    if job.priority.Some? then job.priority.value else job.dueDate
  }

  // ----- Sorting ---------------------------------------------------------------------------------

  // Inserts after every job with a key that is not larger, so equal keys keep their order.
  function Insert(sorted: seq<Job>, job: Job): seq<Job> {
    if sorted == [] then [job]
    else
      var n := |sorted| - 1;
      if Key(sorted[n]) <= Key(job) then sorted + [job] else Insert(sorted[..n], job) + [sorted[n]]
  }

  function SortByKey(jobs: seq<Job>): seq<Job> {
    if jobs == [] then [] else Insert(SortByKey(jobs[..|jobs| - 1]), jobs[|jobs| - 1])
  }

  predicate Sorted(jobs: seq<Job>) {
    forall i, j | 0 <= i < j < |jobs| :: Key(jobs[i]) <= Key(jobs[j])
  }

  // The jobs with one given key, in order.
  function WithKey(jobs: seq<Job>, key: real): seq<Job> {
    if jobs == [] then []
    else WithKey(jobs[..|jobs| - 1], key) + if Key(jobs[|jobs| - 1]) == key then [jobs[|jobs| - 1]] else []
  }

  lemma SortedAppend(sorted: seq<Job>, last: Job)
    requires Sorted(sorted) && forall job | job in multiset(sorted) :: Key(job) <= Key(last)
    ensures Sorted(sorted + [last])
  {
    forall i | 0 <= i < |sorted| ensures Key(sorted[i]) <= Key(last) {
      assert sorted[i] in multiset(sorted);
    }
  }

  lemma MultisetSplit(jobs: seq<Job>)
    requires jobs != []
    ensures multiset(jobs) == multiset(jobs[..|jobs| - 1]) + multiset{jobs[|jobs| - 1]}
  {
    assert jobs == jobs[..|jobs| - 1] + [jobs[|jobs| - 1]];
  }

  lemma SortedBelowLast(sorted: seq<Job>, job: Job)
    requires sorted != [] && Sorted(sorted) && job in multiset(sorted)
    ensures Key(job) <= Key(sorted[|sorted| - 1])
  {
  }

  lemma {:induction false} InsertSorts(sorted: seq<Job>, job: Job)
    requires Sorted(sorted)
    ensures Sorted(Insert(sorted, job)) && multiset(Insert(sorted, job)) == multiset(sorted) + multiset{job}
  {
    if sorted == [] {
      assert Insert(sorted, job) == [job];
    } else {
      var front, last := sorted[..|sorted| - 1], sorted[|sorted| - 1];
      MultisetSplit(sorted);
      if Key(last) <= Key(job) {
        forall x | x in multiset(sorted) ensures Key(x) <= Key(job) {
          SortedBelowLast(sorted, x);
        }
        SortedAppend(sorted, job);
      } else {
        InsertSorts(front, job);
        forall x | x in multiset(front) + multiset{job} ensures Key(x) <= Key(last) {
          if x in multiset(front) { SortedBelowLast(sorted, x); }
        }
        SortedAppend(Insert(front, job), last);
      }
    }
  }

  lemma WithKeyAppend(jobs: seq<Job>, job: Job, key: real)
    ensures WithKey(jobs + [job], key) == WithKey(jobs, key) + if Key(job) == key then [job] else []
  {
    assert (jobs + [job])[..|jobs|] == jobs;
  }

  // A job with a smaller key than the last one goes in front of it.
  lemma InsertBeforeLast(front: seq<Job>, last: Job, inserted: seq<Job>, job: Job, key: real)
    requires Key(job) < Key(last)
    requires WithKey(inserted, key) == WithKey(front, key) + if Key(job) == key then [job] else []
    ensures WithKey(inserted + [last], key) == WithKey(front + [last], key) + if Key(job) == key then [job] else []
  {
    WithKeyAppend(front, last, key);
    WithKeyAppend(inserted, last, key);
    hide WithKey;
    if Key(last) == key {
      assert WithKey(inserted, key) == WithKey(front, key);
    }
  }

  lemma {:induction false} InsertStable(sorted: seq<Job>, job: Job, key: real)
    ensures WithKey(Insert(sorted, job), key) == WithKey(sorted, key) + if Key(job) == key then [job] else []
  {
    if sorted == [] {
      WithKeyAppend([], job, key);
      assert [] + [job] == [job];
    } else {
      var n := |sorted| - 1;
      assert sorted == sorted[..n] + [sorted[n]];
      if Key(sorted[n]) <= Key(job) {
        WithKeyAppend(sorted, job, key);
      } else {
        InsertStable(sorted[..n], job, key);
        hide WithKey;
        InsertBeforeLast(sorted[..n], sorted[n], Insert(sorted[..n], job), job, key);
      }
    }
  }

  // The sort is a permutation in key order.
  lemma {:induction false} SortByKeySorts(jobs: seq<Job>)
    ensures Sorted(SortByKey(jobs)) && multiset(SortByKey(jobs)) == multiset(jobs)
  {
    if jobs != [] {
      var front, last := jobs[..|jobs| - 1], jobs[|jobs| - 1];
      SortByKeySorts(front);
      InsertSorts(SortByKey(front), last);
      MultisetSplit(jobs);
    }
  }

  // The sort is stable: jobs with equal keys keep their order.
  lemma {:induction false} SortByKeyStable(jobs: seq<Job>, key: real)
    ensures WithKey(SortByKey(jobs), key) == WithKey(jobs, key)
  {
    if jobs != [] {
      SortByKeyStable(jobs[..|jobs| - 1], key);
      InsertStable(SortByKey(jobs[..|jobs| - 1]), jobs[|jobs| - 1], key);
    }
  }

  // ----- First fit -------------------------------------------------------------------------------

  function Cursor(cursor: map<string, real>, id: string): real {
    if id in cursor then cursor[id] else 0.0
  }

  predicate Fits(r: Resource, cursor: map<string, real>, minutes: real) {
    Cursor(cursor, r.id) + minutes <= r.capacity
  }

  // The first resource with room, if any.
  function FirstFit(resources: seq<Resource>, cursor: map<string, real>, minutes: real): (k: Option<nat>)
    ensures k.Some? ==> k.value < |resources| && Fits(resources[k.value], cursor, minutes)
                        && forall i | 0 <= i < k.value :: !Fits(resources[i], cursor, minutes)
    ensures k.None? ==> forall i | 0 <= i < |resources| :: !Fits(resources[i], cursor, minutes)
  {
    if resources == [] then None
    else if Fits(resources[0], cursor, minutes) then Some(0)
    else
      var k := FirstFit(resources[1..], cursor, minutes);
      if k.None? then None else Some(k.value + 1)
  }

  function Place(plan: Plan, resources: seq<Resource>, job: Job): Plan {
    var k := FirstFit(resources, plan.cursor, job.minutes);
    if k.None? then plan.(unassigned := plan.unassigned + [job.id])
    else
      var id := resources[k.value].id;
      var start := Cursor(plan.cursor, id);
      Plan(plan.assignments + [Assignment(job.id, id, start, start + job.minutes)], plan.unassigned,
           plan.cursor[id := start + job.minutes])
  }

  // The plan after the jobs have been placed one by one.
  function Greedy(resources: seq<Resource>, jobs: seq<Job>): Plan {
    if jobs == [] then Plan([], [], map r | r in resources :: r.id := 0.0)
    else Place(Greedy(resources, jobs[..|jobs| - 1]), resources, jobs[|jobs| - 1])
  }

  lemma GreedyStep(resources: seq<Resource>, jobs: seq<Job>, i: nat)
    requires i < |jobs|
    ensures Greedy(resources, jobs[..i + 1]) == Place(Greedy(resources, jobs[..i]), resources, jobs[i])
  {
    assert jobs[..i + 1][..i] == jobs[..i];
  }

  lemma GreedyStart(resources: seq<Resource>, jobs: seq<Job>)
    ensures Greedy(resources, jobs[..0]) == Plan([], [], map r | r in resources :: r.id := 0.0)
  {
  }

  method Schedule(jobs: seq<Job>, resources: seq<Resource>)
    returns (assignments: seq<Assignment>, unassigned: seq<string>)
    ensures var plan := Greedy(resources, SortByKey(jobs));
            assignments == plan.assignments && unassigned == plan.unassigned
  {
    hide FirstFit, Greedy, SortByKey;
    var sorted := SortByKey(jobs);
    var cursor: map<string, real> := map[];
    for i := 0 to |resources|
      invariant cursor == map r | r in resources[..i] :: r.id := 0.0
    {
      assert resources[..i + 1] == resources[..i] + [resources[i]];
      cursor := cursor[resources[i].id := 0.0];
    }
    assert resources[..|resources|] == resources;
    assignments, unassigned := [], [];
    GreedyStart(resources, sorted);
    for i := 0 to |sorted|
      invariant Greedy(resources, sorted[..i]) == Plan(assignments, unassigned, cursor)
    {
      var job := sorted[i];
      GreedyStep(resources, sorted, i);
      var k := FirstFit(resources, cursor, job.minutes);
      if k.None? {
        unassigned := unassigned + [job.id];
        continue;
      }
      var id := resources[k.value].id;
      var start := Cursor(cursor, id);
      var end := start + job.minutes;
      cursor := cursor[id := end];
      assignments := assignments + [Assignment(job.id, id, start, end)];
    }
    assert sorted[..|sorted|] == sorted;
  }

  // ----- Soundness -------------------------------------------------------------------------------

  // The jobs that found a place, in the order in which they were placed.
  function Placed(resources: seq<Resource>, jobs: seq<Job>): seq<Job> {
    if jobs == [] then []
    else
      var n := |jobs| - 1;
      Placed(resources, jobs[..n])
      + if FirstFit(resources, Greedy(resources, jobs[..n]).cursor, jobs[n].minutes).Some? then [jobs[n]] else []
  }

  function Ids(jobs: seq<Job>): seq<string> {
    seq(|jobs|, i requires 0 <= i < |jobs| => jobs[i].id)
  }

  function AssignedIds(assignments: seq<Assignment>): seq<string> {
    seq(|assignments|, i requires 0 <= i < |assignments| => assignments[i].job)
  }

  // The assignments on one resource, in order.
  function On(assignments: seq<Assignment>, id: string): seq<Assignment> {
    if assignments == [] then []
    else
      var last := assignments[|assignments| - 1];
      On(assignments[..|assignments| - 1], id) + if last.resource == id then [last] else []
  }

  // Consecutive intervals that start at zero and end at `to`, without gap or overlap.
  predicate Tiles(slots: seq<Assignment>, to: real) {
    if slots == [] then to == 0.0
    else
      var last := slots[|slots| - 1];
      last.end == to && Tiles(slots[..|slots| - 1], last.start)
  }

  ghost predicate WithinCapacity(resources: seq<Resource>, a: Assignment) {
    exists r :: r in resources && r.id == a.resource && a.end <= r.capacity
  }

  lemma PlaceConserves(plan: Plan, resources: seq<Resource>, job: Job)
    ensures var next := Place(plan, resources, job);
            multiset(AssignedIds(next.assignments)) + multiset(next.unassigned)
            == multiset(AssignedIds(plan.assignments)) + multiset(plan.unassigned) + multiset{job.id}
  {
    hide FirstFit;
    if FirstFit(resources, plan.cursor, job.minutes).Some? {
      assert AssignedIds(Place(plan, resources, job).assignments) == AssignedIds(plan.assignments) + [job.id];
    }
  }

  // Every job ends up either assigned or unassigned: nothing is lost, invented or doubled.
  lemma {:induction false} GreedyConserves(resources: seq<Resource>, jobs: seq<Job>)
    ensures var plan := Greedy(resources, jobs);
            multiset(Ids(jobs)) == multiset(AssignedIds(plan.assignments)) + multiset(plan.unassigned)
  {
    hide Place;
    if jobs != [] {
      var n := |jobs| - 1;
      GreedyConserves(resources, jobs[..n]);
      assert Ids(jobs) == Ids(jobs[..n]) + [jobs[n].id];
      PlaceConserves(Greedy(resources, jobs[..n]), resources, jobs[n]);
    }
  }

  // Every resource's slots tile the time from zero to its cursor.
  lemma {:induction false} GreedyTiles(resources: seq<Resource>, jobs: seq<Job>, id: string)
    ensures var plan := Greedy(resources, jobs); Tiles(On(plan.assignments, id), Cursor(plan.cursor, id))
  {
    if jobs != [] {
      var n := |jobs| - 1;
      var before, plan := Greedy(resources, jobs[..n]), Greedy(resources, jobs);
      GreedyTiles(resources, jobs[..n], id);
      if FirstFit(resources, before.cursor, jobs[n].minutes).Some? {
        var last := plan.assignments[|plan.assignments| - 1];
        assert plan.assignments[..|plan.assignments| - 1] == before.assignments;
        if last.resource == id {
          assert On(plan.assignments, id) == On(before.assignments, id) + [last];
          assert On(plan.assignments, id)[..|On(before.assignments, id)|] == On(before.assignments, id);
        } else {
          assert On(plan.assignments, id) == On(before.assignments, id);
        }
      }
    }
  }

  // The k-th assignment is for the k-th placed job, lasts as long as the job, and ends within capacity.
  lemma {:induction false} GreedySlots(resources: seq<Resource>, jobs: seq<Job>)
    ensures var plan, placed := Greedy(resources, jobs), Placed(resources, jobs);
            && |plan.assignments| == |placed|
            && forall k | 0 <= k < |placed| ::
                 && plan.assignments[k].job == placed[k].id
                 && plan.assignments[k].end - plan.assignments[k].start == placed[k].minutes
                 && WithinCapacity(resources, plan.assignments[k])
  {
    if jobs != [] {
      var n := |jobs| - 1;
      var before, plan := Greedy(resources, jobs[..n]), Greedy(resources, jobs);
      GreedySlots(resources, jobs[..n]);
      var k := FirstFit(resources, before.cursor, jobs[n].minutes);
      if k.Some? {
        assert resources[k.value] in resources;
        assert WithinCapacity(resources, plan.assignments[|plan.assignments| - 1]);
      }
    }
  }

  // Jobs are placed in key order.
  lemma {:induction false} PlacedInOrder(resources: seq<Resource>, jobs: seq<Job>)
    requires Sorted(jobs)
    ensures Sorted(Placed(resources, jobs)) && forall job | job in Placed(resources, jobs) :: job in jobs
  {
    if jobs != [] {
      var n := |jobs| - 1;
      PlacedInOrder(resources, jobs[..n]);
      forall job | job in Placed(resources, jobs[..n]) ensures Key(job) <= Key(jobs[n]) {
        assert job in jobs[..n];
      }
    }
  }

  // Which of two jobs must go first: a given priority counts instead of the due date, and the smaller number wins.
  predicate Sooner(a: Job, b: Job) {
    match (a.priority, b.priority)
    case (Some(p), Some(q)) => p < q
    case (Some(p), None) => p < b.dueDate
    case (None, Some(q)) => a.dueDate < q
    case (None, None) => a.dueDate < b.dueDate
  }

  // No job is placed before one that must go sooner.
  lemma ScheduledSoonerFirst(resources: seq<Resource>, jobs: seq<Job>, i: nat, j: nat)
    requires i < j < |Placed(resources, SortByKey(jobs))|
    ensures var placed := Placed(resources, SortByKey(jobs)); !Sooner(placed[j], placed[i])
  {
    SortByKeySorts(jobs);
    PlacedInOrder(resources, SortByKey(jobs));
  }

  lemma {:induction false} CursorsOnlyGrow(resources: seq<Resource>, jobs: seq<Job>, n: nat, id: string)
    requires n <= |jobs| && forall job | job in jobs :: job.minutes >= 0.0
    ensures 0.0 <= Cursor(Greedy(resources, jobs[..n]).cursor, id) <= Cursor(Greedy(resources, jobs).cursor, id)
    decreases |jobs|
  {
    if n == |jobs| {
      assert jobs[..n] == jobs;
      if n > 0 { CursorsOnlyGrow(resources, jobs[..n - 1], 0, id); }
    } else {
      assert jobs[..|jobs| - 1][..n] == jobs[..n];
      CursorsOnlyGrow(resources, jobs[..|jobs| - 1], n, id);
    }
  }

  // A job left out when its turn came does not fit any resource at the end either.
  lemma UnassignedFitsNowhere(resources: seq<Resource>, jobs: seq<Job>, n: nat, i: nat)
    requires n < |jobs| && i < |resources| && forall job | job in jobs :: job.minutes >= 0.0
    requires FirstFit(resources, Greedy(resources, jobs[..n]).cursor, jobs[n].minutes).None?
    ensures !Fits(resources[i], Greedy(resources, jobs).cursor, jobs[n].minutes)
  {
    CursorsOnlyGrow(resources, jobs, n, resources[i].id);
    assert !Fits(resources[i], Greedy(resources, jobs[..n]).cursor, jobs[n].minutes);
  }

  // ----- Distance from the best packing ----------------------------------------------------------

  predicate Uniform(resources: seq<Resource>, capacity: real) {
    && (forall r | r in resources :: r.capacity == capacity)
    && (forall i, j | 0 <= i < j < |resources| :: resources[i].id != resources[j].id)
  }

  predicate Used(assignments: seq<Assignment>, r: Resource) {
    exists a | a in assignments :: a.resource == r.id
  }

  // Number of used resources among the first k.
  function UsedCount(plan: Plan, resources: seq<Resource>, k: nat): nat
    requires k <= |resources|
  {
    if k == 0 then 0 else UsedCount(plan, resources, k - 1) + if Used(plan.assignments, resources[k - 1]) then 1 else 0
  }

  function LoadSum(cursor: map<string, real>, resources: seq<Resource>, k: nat): real
    requires k <= |resources|
  {
    if k == 0 then 0.0 else LoadSum(cursor, resources, k - 1) + Cursor(cursor, resources[k - 1].id)
  }

  function TotalMinutes(jobs: seq<Job>): real {
    if jobs == [] then 0.0 else TotalMinutes(jobs[..|jobs| - 1]) + jobs[|jobs| - 1].minutes
  }

  function Times(n: nat, x: real): real {
    if n == 0 then 0.0 else Times(n - 1, x) + x
  }

  lemma {:induction false} LoadSumUpdate(cursor: map<string, real>, resources: seq<Resource>, k: nat, i: nat,
                                         load: real)
    requires k <= |resources| && i < |resources|
    requires forall i, j | 0 <= i < j < |resources| :: resources[i].id != resources[j].id
    ensures LoadSum(cursor[resources[i].id := load], resources, k) ==
            LoadSum(cursor, resources, k) + if i < k then load - Cursor(cursor, resources[i].id) else 0.0
  {
    if k > 0 {
      LoadSumUpdate(cursor, resources, k - 1, i, load);
    }
  }

  // First fit opens a resource only when the job overflows every earlier one: together with any earlier resource, a
  // used one holds more than one capacity.
  ghost predicate PairsOverflow(plan: Plan, resources: seq<Resource>, capacity: real) {
    && (forall i | 0 <= i < |resources| :: Cursor(plan.cursor, resources[i].id) >= 0.0)
    && (forall j | 0 <= j < |resources| && Used(plan.assignments, resources[j]) ::
          && Cursor(plan.cursor, resources[j].id) <= capacity
          && forall i | 0 <= i < j ::
               Cursor(plan.cursor, resources[i].id) + Cursor(plan.cursor, resources[j].id) > capacity)
  }

  lemma PlaceKeepsOverflow(plan: Plan, resources: seq<Resource>, job: Job, capacity: real)
    requires Uniform(resources, capacity) && PairsOverflow(plan, resources, capacity) && job.minutes >= 0.0
    ensures PairsOverflow(Place(plan, resources, job), resources, capacity)
  {
    hide FirstFit;
    var k, next := FirstFit(resources, plan.cursor, job.minutes), Place(plan, resources, job);
    if k.Some? {
      assert forall i | 0 <= i < |resources| :: resources[i] in resources;
      forall j | 0 <= j < |resources| && Used(next.assignments, resources[j]) && j != k.value
        ensures Used(plan.assignments, resources[j])
      {
      }
      forall i | 0 <= i < k.value ensures !Fits(resources[i], plan.cursor, job.minutes) {
      }
    }
  }

  lemma {:induction false} GreedyOverflows(resources: seq<Resource>, jobs: seq<Job>, capacity: real)
    requires Uniform(resources, capacity) && forall job | job in jobs :: job.minutes >= 0.0
    ensures PairsOverflow(Greedy(resources, jobs), resources, capacity)
  {
    if jobs != [] {
      var n := |jobs| - 1;
      assert jobs[n] in jobs;
      GreedyOverflows(resources, jobs[..n], capacity);
      PlaceKeepsOverflow(Greedy(resources, jobs[..n]), resources, jobs[n], capacity);
    }
  }

  lemma PlaceLoads(plan: Plan, resources: seq<Resource>, job: Job)
    requires forall i, j | 0 <= i < j < |resources| :: resources[i].id != resources[j].id
    ensures LoadSum(Place(plan, resources, job).cursor, resources, |resources|)
            == LoadSum(plan.cursor, resources, |resources|)
               + if FirstFit(resources, plan.cursor, job.minutes).Some? then job.minutes else 0.0
  {
    hide LoadSum, FirstFit;
    var k := FirstFit(resources, plan.cursor, job.minutes);
    if k.Some? {
      var load := Cursor(plan.cursor, resources[k.value].id) + job.minutes;
      LoadSumUpdate(plan.cursor, resources, |resources|, k.value, load);
    }
  }

  lemma TotalMinutesAppend(jobs: seq<Job>, job: Job)
    ensures TotalMinutes(jobs + [job]) == TotalMinutes(jobs) + job.minutes
  {
    assert (jobs + [job])[..|jobs|] == jobs;
  }

  // The cursors together hold exactly the minutes of the placed jobs.
  lemma {:induction false} GreedyLoads(resources: seq<Resource>, jobs: seq<Job>)
    requires forall i, j | 0 <= i < j < |resources| :: resources[i].id != resources[j].id
    ensures LoadSum(Greedy(resources, jobs).cursor, resources, |resources|) == TotalMinutes(Placed(resources, jobs))
  {
    if jobs == [] {
      EmptyLoads(resources, |resources|);
    } else {
      var n := |jobs| - 1;
      var before := Greedy(resources, jobs[..n]);
      GreedyLoads(resources, jobs[..n]);
      hide LoadSum, TotalMinutes, Place, FirstFit;
      PlaceLoads(before, resources, jobs[n]);
      if FirstFit(resources, before.cursor, jobs[n].minutes).Some? {
        TotalMinutesAppend(Placed(resources, jobs[..n]), jobs[n]);
      } else {
        assert Placed(resources, jobs) == Placed(resources, jobs[..n]);
      }
    }
  }

  lemma {:induction false} EmptyLoads(resources: seq<Resource>, k: nat)
    requires k <= |resources|
    ensures LoadSum(Greedy(resources, []).cursor, resources, k) == 0.0
  {
    if k > 0 { EmptyLoads(resources, k - 1); }
  }

  // The last used resource among the first k.
  function LastUsed(plan: Plan, resources: seq<Resource>, k: nat): (i: nat)
    requires k <= |resources| && UsedCount(plan, resources, k) > 0
    ensures i < k && Used(plan.assignments, resources[i])
  {
    if Used(plan.assignments, resources[k - 1]) then k - 1 else LastUsed(plan, resources, k - 1)
  }

  // Pairing up used resources from the left: each full pair holds more than one capacity.
  lemma {:induction false} PairUp(plan: Plan, resources: seq<Resource>, capacity: real, k: nat)
    requires PairsOverflow(plan, resources, capacity) && k <= |resources|
    ensures var count, sum := UsedCount(plan, resources, k), LoadSum(plan.cursor, resources, k);
            var odd := if count % 2 == 1 then Cursor(plan.cursor, resources[LastUsed(plan, resources, k)].id) else 0.0;
            && sum >= Times(count / 2, capacity) + odd
            && (count >= 2 ==> sum > Times(count / 2, capacity) + odd)
  {
    if k > 0 {
      PairUp(plan, resources, capacity, k - 1);
      if Used(plan.assignments, resources[k - 1]) && UsedCount(plan, resources, k - 1) % 2 == 1 {
        var i := LastUsed(plan, resources, k - 1);
        assert Cursor(plan.cursor, resources[i].id) + Cursor(plan.cursor, resources[k - 1].id) > capacity;
      }
    }
  }

  // A packing puts each job in one of m bins.
  function BinLoad(jobs: seq<Job>, bins: seq<nat>, b: nat): real
    requires |jobs| == |bins|
  {
    if jobs == [] then 0.0
    else
      var n := |jobs| - 1;
      BinLoad(jobs[..n], bins[..n], b) + if bins[n] == b then jobs[n].minutes else 0.0
  }

  predicate Packs(jobs: seq<Job>, bins: seq<nat>, m: nat, capacity: real) {
    && |bins| == |jobs|
    && (forall b | b in bins :: b < m)
    && forall b: nat | b < m :: BinLoad(jobs, bins, b) <= capacity
  }

  function AllBins(jobs: seq<Job>, bins: seq<nat>, m: nat): real
    requires |jobs| == |bins|
  {
    if m == 0 then 0.0 else AllBins(jobs, bins, m - 1) + BinLoad(jobs, bins, m - 1)
  }

  lemma {:induction false} AllBinsUnfold(jobs: seq<Job>, bins: seq<nat>, m: nat)
    requires |jobs| == |bins| > 0
    ensures var n := |jobs| - 1;
            AllBins(jobs, bins, m) == AllBins(jobs[..n], bins[..n], m) + if bins[n] < m then jobs[n].minutes else 0.0
  {
    if m > 0 { AllBinsUnfold(jobs, bins, m - 1); }
  }

  lemma {:induction false} AllBinsTotal(jobs: seq<Job>, bins: seq<nat>, m: nat)
    requires |jobs| == |bins| && forall b | b in bins :: b < m
    ensures AllBins(jobs, bins, m) == TotalMinutes(jobs)
  {
    if jobs == [] {
      NoJobsNoLoad(bins, m);
    } else {
      assert bins[|bins| - 1] in bins;
      var front := bins[..|bins| - 1];
      forall i | 0 <= i < |front| ensures front[i] < m {
        assert bins[i] in bins;
      }
      AllBinsTotal(jobs[..|jobs| - 1], bins[..|bins| - 1], m);
      AllBinsUnfold(jobs, bins, m);
    }
  }

  lemma {:induction false} NoJobsNoLoad(bins: seq<nat>, m: nat)
    requires bins == []
    ensures AllBins([], bins, m) == 0.0
  {
    if m > 0 { NoJobsNoLoad(bins, m - 1); }
  }

  lemma {:induction false} BinsWithinTimes(jobs: seq<Job>, bins: seq<nat>, m: nat, k: nat, capacity: real)
    requires Packs(jobs, bins, m, capacity) && k <= m
    ensures AllBins(jobs, bins, k) <= Times(k, capacity)
  {
    if k > 0 { BinsWithinTimes(jobs, bins, m, k - 1, capacity); }
  }

  lemma {:induction false} TimesMonotone(a: nat, b: nat, x: real)
    requires a <= b && x >= 0.0
    ensures Times(a, x) <= Times(b, x)
  {
    if a < b { TimesMonotone(a, b - 1, x); }
  }

  // First fit is within a factor two of any packing: if the placed jobs fit on m resources at all, the schedule uses
  // at most 2m - 1 of them, whatever the order of the jobs.
  lemma FirstFitBound(resources: seq<Resource>, jobs: seq<Job>, capacity: real, m: nat, bins: seq<nat>)
    requires Uniform(resources, capacity) && forall job | job in jobs :: job.minutes >= 0.0
    requires m >= 1 && Packs(Placed(resources, jobs), bins, m, capacity)
    ensures UsedCount(Greedy(resources, jobs), resources, |resources|) <= 2 * m - 1
  {
    var plan := Greedy(resources, jobs);
    GreedyOverflows(resources, jobs, capacity);
    GreedyLoads(resources, jobs);
    PairUp(plan, resources, capacity, |resources|);
    AllBinsTotal(Placed(resources, jobs), bins, m);
    BinsWithinTimes(Placed(resources, jobs), bins, m, m, capacity);
    var count := UsedCount(plan, resources, |resources|);
    if count >= 2 * m {
      var i := LastUsed(plan, resources, |resources|);
      TimesMonotone(m, count / 2, capacity);
    }
  }
}
