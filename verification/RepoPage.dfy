/** The repository page: the newest jobs of a repository from the newest of each of its remotes. */
module RepoPage {
  import opened Common
  import opened Sorting
  import opened Store
  import opened Database

  const MAX_ROWS := 100
  const DEFAULT_ROWS := 10

  function Rows(asked: Option<nat>): nat {
    var rows := asked.GetOr(DEFAULT_ROWS);
    var capped := if rows < MAX_ROWS then rows else MAX_ROWS;
    if capped > DEFAULT_ROWS then capped else DEFAULT_ROWS
  }

  lemma RowsAsAsked(asked: Option<nat>)
    ensures asked.None? || asked.value < 10 ==> Rows(asked) == 10
    ensures asked.Some? && 10 <= asked.value <= 100 ==> Rows(asked) == asked.value
    ensures asked.Some? && asked.value > 100 ==> Rows(asked) == 100
  {
  }

  /** All the jobs of some remotes. */
  function JobsOfRemotes(db: Db, remotes: seq<nat>): set<JobRow> {
    set j | j in db.jobs && db.jobs[j].remoteId in remotes :: JobRow(j, db.jobs[j])
  }

  /** The page shows the `rows` newest of `jobs`, newest first; which of equally old ones is not said. */
  ghost predicate ShowsNewest(jobs: set<JobRow>, rows: nat, shown: seq<JobRow>) {
    && |shown| == (if |jobs| < rows then |jobs| else rows)
    && SortedDesc(shown, JobAge)
    && multiset(shown) <= multiset(jobs)
    && (forall x, y :: x in jobs && x !in shown && y in shown ==> JobAge(x) <= JobAge(y))
  }

  /** There are `rows` builds that are no older than `x`. */
  ghost predicate Outdone(x: JobRow, builds: multiset<JobRow>, rows: nat) {
    exists part: seq<JobRow> :: |part| == rows && multiset(part) <= builds && forall y :: y in part ==> JobAge(y) >= JobAge(x)
  }

  /** What the loop over the remotes has gathered: no job twice, and none left out but for enough others. */
  ghost predicate Gathered(jobs: set<JobRow>, rows: nat, builds: multiset<JobRow>) {
    builds <= multiset(jobs) && forall x :: x in jobs ==> x in builds || Outdone(x, builds, rows)
  }

  /** The head of a sorted list outdoes what follows it. */
  lemma HeadOutdoes(all: seq<JobRow>, rows: nat, x: JobRow)
    requires SortedDesc(all, JobAge) && rows <= |all| && x in all[rows..]
    ensures Outdone(x, multiset(all[..rows]), rows)
  {
    var part := all[..rows];
    assert |part| == rows && multiset(part) <= multiset(all[..rows]);
    forall y | y in part
      ensures JobAge(y) >= JobAge(x)
    {
      PrefixIsLargest(all, JobAge, rows, y, x);
    }
  }

  lemma OneRemote(db: Db, remote: nat, rows: nat, recent: seq<JobRow>)
    requires Recent(db, remote, rows, recent)
    ensures Gathered(JobsOfRemote(db, remote), rows, multiset(recent))
  {
    var all :| SortedDesc(all, JobAge) && multiset(all) == multiset(JobsOfRemote(db, remote))
      && recent == all[..if |all| < rows then |all| else rows];
    PrefixOfBag(all, |recent|);
    forall x | x in JobsOfRemote(db, remote) && x !in recent
      ensures Outdone(x, multiset(recent), rows)
    {
      assert x in multiset(all);
      HeadOutdoes(all, rows, x);
    }
  }

  /** Remotes have no jobs in common, so what was gathered from each adds up. */
  lemma GatheredFromBoth(a: set<JobRow>, b: set<JobRow>, rows: nat, m: multiset<JobRow>, n: multiset<JobRow>)
    requires a !! b && Gathered(a, rows, m) && Gathered(b, rows, n)
    ensures Gathered(a + b, rows, m + n)
  {
    forall x | x in a + b && x !in m + n
      ensures Outdone(x, m + n, rows)
    {
      var builds := if x in a then m else n;
      var part: seq<JobRow> :| |part| == rows && multiset(part) <= builds && forall y :: y in part ==> JobAge(y) >= JobAge(x);
      assert multiset(part) <= m + n;
    }
  }

  /** A job that `rows` others outdo is no newer than any of the first `rows`. */
  lemma OutdoneByShown(sorted: seq<JobRow>, rows: nat, x: JobRow, i: nat)
    requires SortedDesc(sorted, JobAge) && Outdone(x, multiset(sorted), rows) && i < |sorted| && i < rows
    ensures JobAge(x) <= JobAge(sorted[i])
  {
    var part: seq<JobRow> :| |part| == rows && multiset(part) <= multiset(sorted) && forall y :: y in part ==> JobAge(y) >= JobAge(x);
    if JobAge(x) > JobAge(sorted[i]) {
      assert sorted == sorted[..i] + sorted[i..];
      forall y | y in multiset(part)
        ensures multiset(part)[y] <= multiset(sorted[..i])[y]
      {
        assert y in part;
        assert y !in sorted[i..];
      }
      SubBagIsSmaller(multiset(part), multiset(sorted[..i]));
    }
  }

  lemma SubBagIsSmaller(a: multiset<JobRow>, b: multiset<JobRow>)
    requires forall y :: y in a ==> a[y] <= b[y]
    ensures |a| <= |b|
  {
    assert a <= b;
    assert b == a + (b - a);
  }

  /** As many builds were gathered as can be shown. */
  lemma EnoughGathered(jobs: set<JobRow>, rows: nat, builds: multiset<JobRow>)
    requires Gathered(jobs, rows, builds)
    ensures |builds| <= |jobs| && (|builds| < rows ==> |builds| == |jobs|)
  {
    SubBagIsSmaller(builds, multiset(jobs));
    if x :| x in jobs && x !in builds {
      var part: seq<JobRow> :| |part| == rows && multiset(part) <= builds && forall y :: y in part ==> JobAge(y) >= JobAge(x);
      SubBagIsSmaller(multiset(part), builds);
    } else {
      SubBagIsSmaller(multiset(jobs), builds);
    }
  }

  /** The newest of what was gathered are the newest there are. */
  lemma NewestOfTheNewest(jobs: set<JobRow>, rows: nat, sorted: seq<JobRow>)
    requires SortedDesc(sorted, JobAge) && Gathered(jobs, rows, multiset(sorted))
    ensures ShowsNewest(jobs, rows, sorted[..if |sorted| < rows then |sorted| else rows])
  {
    var k := if |sorted| < rows then |sorted| else rows;
    EnoughGathered(jobs, rows, multiset(sorted));
    PrefixOfBag(sorted, k);
    forall x, y | x in jobs && x !in sorted[..k] && y in sorted[..k]
      ensures JobAge(x) <= JobAge(y)
    {
      LeftOutIsOlder(jobs, rows, sorted, k, x, y);
    }
  }

  lemma PrefixOfBag(s: seq<JobRow>, k: nat)
    requires k <= |s|
    ensures multiset(s[..k]) <= multiset(s)
    ensures forall x :: x in s ==> x in s[..k] || x in s[k..]
  {
    assert s == s[..k] + s[k..];
  }

  lemma LeftOutIsOlder(jobs: set<JobRow>, rows: nat, sorted: seq<JobRow>, k: nat, x: JobRow, y: JobRow)
    requires SortedDesc(sorted, JobAge) && Gathered(jobs, rows, multiset(sorted)) && k <= |sorted| && k <= rows
    requires x in jobs && x !in sorted[..k] && y in sorted[..k]
    ensures JobAge(x) <= JobAge(y)
  {
    if x in multiset(sorted) {
      PrefixOfBag(sorted, k);
      PrefixIsLargest(sorted, JobAge, k, y, x);
    } else {
      var i :| 0 <= i < k && sorted[..k][i] == y;
      OutdoneByShown(sorted, rows, x, i);
    }
  }

  method SortBuilds(builds: seq<JobRow>) returns (sorted: seq<JobRow>)
    ensures SortedDesc(sorted, JobAge) && multiset(sorted) == multiset(builds)
  {
    sorted := [];
    for i := 0 to |builds|
      invariant SortedDesc(sorted, JobAge) && multiset(sorted) == multiset(builds[..i])
    {
      assert builds[..i + 1] == builds[..i] + [builds[i]];
      sorted := InsertDesc(sorted, builds[i], JobAge);
    }
    assert builds[..|builds|] == builds;
  }

  function OfFirst(db: Db, remotes: seq<nat>, n: nat): set<JobRow>
    requires n <= |remotes|
  {
    set j | j in db.jobs && db.jobs[j].remoteId in remotes[..n] :: JobRow(j, db.jobs[j])
  }

  lemma OneMoreRemote(db: Db, remotes: seq<nat>, n: nat)
    requires n < |remotes| && forall i, j :: 0 <= i < j < |remotes| ==> remotes[i] != remotes[j]
    ensures OfFirst(db, remotes, n + 1) == OfFirst(db, remotes, n) + JobsOfRemote(db, remotes[n])
    ensures OfFirst(db, remotes, n) !! JobsOfRemote(db, remotes[n])
  {
    assert remotes[..n + 1] == remotes[..n] + [remotes[n]];
    assert remotes[n] !in remotes[..n];
  }

  /** The newest `rows` of each remote, put together. */
  method GatherBuilds(db: DbCtx, remotes: seq<nat>, rows: nat) returns (builds: seq<JobRow>)
    requires db.Valid()
    requires forall i, j :: 0 <= i < j < |remotes| ==> remotes[i] != remotes[j]
    ensures Gathered(JobsOfRemotes(db.Contents(), remotes), rows, multiset(builds))
  {
    builds := [];
    for i := 0 to |remotes|
      invariant Gathered(OfFirst(db.Contents(), remotes, i), rows, multiset(builds))
    {
      var recent := db.RecentJobsFromRemote(remotes[i], rows);
      OneRemote(db.Contents(), remotes[i], rows, recent);
      OneMoreRemote(db.Contents(), remotes, i);
      GatheredFromBoth(OfFirst(db.Contents(), remotes, i), JobsOfRemote(db.Contents(), remotes[i]),
                       rows, multiset(builds), multiset(recent));
      builds := builds + recent;
    }
    assert OfFirst(db.Contents(), remotes, |remotes|) == JobsOfRemotes(db.Contents(), remotes);
  }

  /** The jobs listed by `handle_repo_summary` for a repository with these remotes. */
  method RepoSummary(db: DbCtx, remotes: seq<nat>, asked: Option<nat>) returns (shown: seq<JobRow>)
    requires db.Valid()
    requires forall i, j :: 0 <= i < j < |remotes| ==> remotes[i] != remotes[j]
    ensures ShowsNewest(JobsOfRemotes(db.Contents(), remotes), Rows(asked), shown)
    ensures var all := |Ids(db.jobs, remotes)|;
            && (asked.None? || asked.value < 10 ==> |shown| == if all < 10 then all else 10)
            && (asked.Some? && 10 <= asked.value <= 100 ==> |shown| == if all < asked.value then all else asked.value)
            && (asked.Some? && asked.value > 100 ==> |shown| == if all < 100 then all else 100)
    ensures forall i, j :: 0 <= i < j < |shown| ==> shown[i].id != shown[j].id && shown[i].job.createdTime >= shown[j].job.createdTime
    ensures forall x :: x in shown ==> x.id in db.jobs && x.job == db.jobs[x.id] && x.job.remoteId in remotes
    ensures forall j, y :: j in db.jobs && db.jobs[j].remoteId in remotes && y in shown ==>
              JobRow(j, db.jobs[j]) in shown || db.jobs[j].createdTime <= y.job.createdTime
  {
    var rows := Rows(asked);
    RowsAsAsked(asked);
    var builds := GatherBuilds(db, remotes, rows);
    var sorted := SortBuilds(builds);
    NewestOfTheNewest(JobsOfRemotes(db.Contents(), remotes), rows, sorted);
    shown := sorted[..if |sorted| < rows then |sorted| else rows];
    ShownAsRows(db.Contents(), remotes, rows, shown);
  }

  /** The ids of the jobs of some remotes. */
  function Ids(jobs: map<nat, Job>, remotes: seq<nat>): (ids: set<nat>)
    ensures forall j :: j in ids <==> j in jobs && jobs[j].remoteId in remotes
  {
    set j | j in jobs && jobs[j].remoteId in remotes
  }

  function RowsOf(jobs: map<nat, Job>, ids: set<nat>): set<JobRow>
    requires ids <= jobs.Keys
  {
    set j | j in ids :: JobRow(j, jobs[j])
  }

  lemma {:induction false} NumberOfRows(jobs: map<nat, Job>, ids: set<nat>)
    requires ids <= jobs.Keys
    ensures |RowsOf(jobs, ids)| == |ids|
  {
    if ids != {} {
      var i :| i in ids;
      NumberOfRows(jobs, ids - {i});
      assert RowsOf(jobs, ids) == RowsOf(jobs, ids - {i}) + {JobRow(i, jobs[i])};
    }
  }

  /** What is shown are rows of the table, as many as can be, each once and newest first. */
  lemma ShownAsRows(db: Db, remotes: seq<nat>, rows: nat, shown: seq<JobRow>)
    requires ShowsNewest(JobsOfRemotes(db, remotes), rows, shown)
    ensures |shown| == var all := |Ids(db.jobs, remotes)|; if all < rows then all else rows
    ensures forall i, j :: 0 <= i < j < |shown| ==> shown[i].id != shown[j].id && shown[i].job.createdTime >= shown[j].job.createdTime
    ensures forall x :: x in shown ==> x.id in db.jobs && x.job == db.jobs[x.id] && x.job.remoteId in remotes
    ensures forall j, y :: j in db.jobs && db.jobs[j].remoteId in remotes && y in shown ==>
              JobRow(j, db.jobs[j]) in shown || db.jobs[j].createdTime <= y.job.createdTime
  {
    var jobs := JobsOfRemotes(db, remotes);
    assert jobs == RowsOf(db.jobs, Ids(db.jobs, remotes));
    NumberOfRows(db.jobs, Ids(db.jobs, remotes));
    EachOnce(jobs, shown);
    forall i, j | 0 <= i < j < |shown|
      ensures shown[i].id != shown[j].id && shown[i].job.createdTime >= shown[j].job.createdTime
    {
      assert JobAge(shown[i]) >= JobAge(shown[j]);
      assert shown[i] in jobs && shown[j] in jobs;
    }
    forall j, y | j in db.jobs && db.jobs[j].remoteId in remotes && y in shown
      ensures JobRow(j, db.jobs[j]) in shown || db.jobs[j].createdTime <= y.job.createdTime
    {
      assert JobRow(j, db.jobs[j]) in jobs;
      assert JobRow(j, db.jobs[j]) in shown || JobAge(JobRow(j, db.jobs[j])) <= JobAge(y);
    }
  }

  lemma EachOnce(jobs: set<JobRow>, s: seq<JobRow>)
    requires multiset(s) <= multiset(jobs)
    ensures NoDuplicates(s) && forall x :: x in s ==> x in jobs
  {
    forall x | x in s
      ensures x in jobs
    {
      assert x in multiset(s);
    }
    forall i, j | 0 <= i < j < |s|
      ensures s[i] != s[j]
    {
      if s[i] == s[j] {
        TwiceInBag(s, i, j);
      }
    }
  }

  lemma TwiceInBag(s: seq<JobRow>, i: nat, j: nat)
    requires i < j < |s| && s[i] == s[j]
    ensures multiset(s)[s[i]] >= 2
  {
    assert s == s[..j] + [s[j]] + s[j + 1..];
    assert s[i] in s[..j];
  }
}
