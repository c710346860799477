/**
 * The dashboard page of src/dashboard/DashboardPage.tsx: its `jobs`,
 * `loading` and `error` state, the `fetchJobs` refresh, and the values the
 * page derives from the job list on every render: the status counts, the
 * per-type histogram, and the five most recent jobs.
 */
module Dashboard {
  import opened Wrappers
  import opened Js
  import opened Jobs

  const LoadFailedMessage := "Failed to load jobs. Please try again later."
  const RecentCount := 5

  /** `jobs.filter(p)`: the jobs that satisfy `p`, in order. */
  function Filter(jobs: seq<Job>, p: Job -> bool): (r: seq<Job>)
    ensures |r| <= |jobs|
    ensures forall j :: j in r ==> j in jobs && p(j)
    ensures forall j :: j in jobs && p(j) ==> j in r
    ensures forall j :: multiset(r)[j] == if p(j) then multiset(jobs)[j] else 0
  {
    if jobs == [] then []
    else
      assert jobs == [jobs[0]] + jobs[1..];
      (if p(jobs[0]) then [jobs[0]] else []) + Filter(jobs[1..], p)
  }

  predicate IsCompleted(job: Job) { job.status == Completed }
  predicate IsFailed(job: Job) { job.status == Failed }
  /** `['pending', 'processing'].includes(job.status)`. */
  predicate IsOutstanding(job: Job) { job.status == Pending || job.status == Processing }

  datatype Stats = Stats(total: nat, completed: nat, failed: nat, pending: nat)

  /** The `stats` object. */
  function ComputeStats(jobs: seq<Job>): (r: Stats)
    ensures r.total == |jobs|
    ensures r.completed <= r.total && r.failed <= r.total && r.pending <= r.total
  {
    Stats(|jobs|, |Filter(jobs, IsCompleted)|, |Filter(jobs, IsFailed)|, |Filter(jobs, IsOutstanding)|)
  }

  /** Every job is counted in exactly one of `completed`, `failed` and `pending`. */
  lemma {:induction false} StatsPartition(jobs: seq<Job>)
    ensures var s := ComputeStats(jobs); s.completed + s.failed + s.pending == s.total
  {
    if jobs != [] {
      StatsPartition(jobs[1..]);
    }
  }

  /** Adding a job to the front adds one to exactly the count of its status. */
  lemma StatsCons(job: Job, jobs: seq<Job>)
    ensures var before := ComputeStats(jobs);
      var after := ComputeStats([job] + jobs);
      && after.total == before.total + 1
      && after.completed == before.completed + (if job.status == Completed then 1 else 0)
      && after.failed == before.failed + (if job.status == Failed then 1 else 0)
      && after.pending == before.pending + (if job.status == Pending || job.status == Processing then 1 else 0)
  {
    assert ([job] + jobs)[1..] == jobs;
  }

  /** The accumulator step of the `reduce`: `acc[t] = (acc[t] || 0) + 1`. */
  function Tally(acc: map<string, nat>, job: Job): (r: map<string, nat>)
    ensures r.Keys == acc.Keys + {job.jobType}
    ensures r[job.jobType] == (if job.jobType in acc then acc[job.jobType] else 0) + 1
    ensures forall t :: t in acc && t != job.jobType ==> r[t] == acc[t]
  {
    var previous := if job.jobType in acc && acc[job.jobType] != 0 then acc[job.jobType] else 0;
    acc[job.jobType := previous + 1]
  }

  /**
   * `jobs.reduce(Tally, acc)`, a left fold: its keys are the starting keys
   * plus the types that occur, each value the starting value plus that
   * type's number of jobs.
   */
  function TallyAll(acc: map<string, nat>, jobs: seq<Job>): (r: map<string, nat>)
    ensures r.Keys == acc.Keys + Types(jobs)
    ensures forall t :: t in r ==> r[t] == (if t in acc then acc[t] else 0) + CountType(jobs, t)
    decreases |jobs|
  {
    if jobs == [] then acc
    else
      TypesCons(jobs);
      TallyAll(Tally(acc, jobs[0]), jobs[1..])
  }

  /** `jobsByType`: a key exactly for each type that occurs, holding its number of jobs, which is at least one. */
  function JobsByType(jobs: seq<Job>): (r: map<string, nat>)
    ensures r.Keys == Types(jobs)
    ensures forall t :: t in r ==> r[t] == CountType(jobs, t) >= 1
  {
    var r := TallyAll(map[], jobs);
    assert forall t :: t in r ==> CountType(jobs, t) >= 1 by {
      forall t | t in r
        ensures CountType(jobs, t) >= 1
      {
        CountTypePositive(jobs, t);
      }
    }
    r
  }

  /** The number of jobs of type `t`. */
  function CountType(jobs: seq<Job>, t: string): nat {
    if jobs == [] then 0 else (if jobs[0].jobType == t then 1 else 0) + CountType(jobs[1..], t)
  }

  /** The types that occur. */
  function Types(jobs: seq<Job>): set<string> {
    set j | j in jobs :: j.jobType
  }

  lemma TypesCons(jobs: seq<Job>)
    requires jobs != []
    ensures Types(jobs) == {jobs[0].jobType} + Types(jobs[1..])
  {
    forall t | t in Types(jobs) ensures t in {jobs[0].jobType} + Types(jobs[1..]) {
      var j :| j in jobs && j.jobType == t;
      if j != jobs[0] {
        assert j in jobs[1..];
      }
    }
  }

  lemma {:induction false} CountTypePositive(jobs: seq<Job>, t: string)
    requires t in Types(jobs)
    ensures CountType(jobs, t) >= 1
  {
    if jobs[0].jobType != t {
      var j :| j in jobs && j.jobType == t;
      assert j in jobs[1..];
      CountTypePositive(jobs[1..], t);
    }
  }

  /** The sum of the values of a histogram. */
  ghost function Sum(m: map<string, nat>): nat
    decreases |m|
  {
    if |m| == 0 then 0
    else
      var k :| k in m;
      RemoveShrinks(m, k);
      m[k] + Sum(m - {k})
  }

  lemma RemoveShrinks(m: map<string, nat>, k: string)
    requires k in m
    ensures |m - {k}| == |m| - 1
  {
    assert (m - {k}).Keys == m.Keys - {k};
  }

  /** Names the key `Sum` picks first. */
  lemma SumUnfold(m: map<string, nat>) returns (j: string)
    requires |m| > 0
    ensures j in m && Sum(m) == m[j] + Sum(m - {j})
  {
    j :| j in m && Sum(m) == m[j] + Sum(m - {j});
  }

  /** `Sum` does not depend on which key it picks first. */
  lemma {:induction false} SumRemove(m: map<string, nat>, k: string)
    requires k in m
    ensures Sum(m) == m[k] + Sum(m - {k})
    decreases |m|
  {
    RemoveShrinks(m, k);
    var j := SumUnfold(m);
    if j != k {
      RemoveShrinks(m, j);
      var withoutJ, withoutK := m - {j}, m - {k};
      assert k in withoutJ && j in withoutK;
      SumRemove(withoutJ, k);
      SumRemove(withoutK, j);
      assert withoutJ - {k} == withoutK - {j};
      assert withoutJ[k] == m[k] && withoutK[j] == m[j];
    }
  }

  lemma TallySum(acc: map<string, nat>, job: Job)
    ensures Sum(Tally(acc, job)) == Sum(acc) + 1
  {
    var t := job.jobType;
    var r := Tally(acc, job);
    SumRemove(r, t);
    assert r - {t} == acc - {t};
    if t in acc {
      SumRemove(acc, t);
    } else {
      assert acc - {t} == acc;
    }
  }

  lemma {:induction false} TallyAllSum(acc: map<string, nat>, jobs: seq<Job>)
    ensures Sum(TallyAll(acc, jobs)) == Sum(acc) + |jobs|
    decreases |jobs|
  {
    if jobs != [] {
      TallySum(acc, jobs[0]);
      TallyAllSum(Tally(acc, jobs[0]), jobs[1..]);
    }
  }

  /** The histogram's counts add up to the number of jobs. */
  lemma JobsByTypeTotal(jobs: seq<Job>)
    ensures Sum(JobsByType(jobs)) == |jobs|
  {
    TallyAllSum(map[], jobs);
    assert Sum(map[]) == 0;
  }

  /** `jobs.slice(0, 5)`: the overview's recent jobs. */
  function RecentJobs(jobs: seq<Job>): (r: seq<Job>)
    ensures |r| == if |jobs| < RecentCount then |jobs| else RecentCount
    ensures r <= jobs
  {
    if |jobs| < RecentCount then jobs else jobs[..RecentCount]
  }

  /** The page's state. */
  class DashboardPage {
    var jobs: seq<Job>
    var loading: bool
    var error: Option<string>

    /** The first render: no jobs, loading, no error. */
    constructor()
      ensures jobs == [] && loading && error == None
    {
      jobs := [];
      loading := true;
      error := None;
    }

    /**
     * `fetchJobs`, given what `apiClient.listJobs()` yielded: the list in
     * `response.jobs`, or the value thrown (a rejected fetch, an error
     * response, or a `null` response whose `jobs` cannot be read).
     */
    method FetchJobs(outcome: Result<seq<Job>, Thrown>)
      modifies this
      ensures !loading
      ensures outcome.Success? ==> jobs == outcome.value && error == None
      ensures outcome.Failure? ==> jobs == old(jobs) && error == Some(LoadFailedMessage)
    {
      loading := true;
      match outcome {
        case Success(list) =>
          jobs := list;
          error := None;
        case Failure(_) =>
          error := Some(LoadFailedMessage);
      }
      loading := false;
    }
  }
}
