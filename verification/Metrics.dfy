/**
 The metrics table, upserted by (run, name) and listed by id, and the summary table of a job.  The
 specification is the list of reports itself.
 */
module Metrics {
  import opened Common
  import opened Protocol

  datatype MetricRecord = MetricRecord(id: nat, runId: nat, name: string, value: string)

  datatype Report = Report(runId: nat, name: string, value: string)

  datatype Table = Table(rows: seq<MetricRecord>, nextId: nat)

  const EMPTY := Table([], 1)

  /** The row that an insert for this run and name conflicts with, or the number of rows. */
  function Find(rows: seq<MetricRecord>, runId: nat, name: string): (k: nat)
    ensures k <= |rows|
    ensures forall i :: 0 <= i < k ==> !(rows[i].runId == runId && rows[i].name == name)
    ensures k < |rows| ==> rows[k].runId == runId && rows[k].name == name
  {
    if rows == [] || (rows[0].runId == runId && rows[0].name == name) then 0
    else 1 + Find(rows[1..], runId, name)
  }

  /** `insert ... on conflict (run_id, name) do update set value`. */
  function Upsert(t: Table, r: Report): Table {
    var k := Find(t.rows, r.runId, r.name);
    if k < |t.rows| then t.(rows := t.rows[k := t.rows[k].(value := r.value)])
    else Table(t.rows + [MetricRecord(t.nextId, r.runId, r.name, r.value)], t.nextId + 1)
  }

  function Store(reports: seq<Report>): Table {
    if reports == [] then EMPTY else Upsert(Store(reports[..|reports| - 1]), reports[|reports| - 1])
  }

  /** `metrics_for_run`: the rows are kept in id order. */
  function ForRun(rows: seq<MetricRecord>, runId: nat): seq<MetricRecord> {
    if rows == [] then []
    else ForRun(rows[..|rows| - 1], runId) + (if rows[|rows| - 1].runId == runId then [rows[|rows| - 1]] else [])
  }

  lemma {:induction false} ForRunMembers(rows: seq<MetricRecord>, runId: nat)
    ensures forall x :: x in ForRun(rows, runId) <==> x in rows && x.runId == runId
  {
    if rows != [] {
      ForRunMembers(rows[..|rows| - 1], runId);
      assert rows == rows[..|rows| - 1] + [rows[|rows| - 1]];
    }
  }

  // ---- What was reported ----

  /** The names a run reported, in the order it first reported them. */
  function FirstReported(reports: seq<Report>, runId: nat): (names: seq<string>)
    ensures forall n :: n in names <==> exists r :: r in reports && r.runId == runId && r.name == n
  {
    if reports == [] then []
    else
      var earlier, last := FirstReported(reports[..|reports| - 1], runId), reports[|reports| - 1];
      assert reports == reports[..|reports| - 1] + [last];
      if last.runId == runId && last.name !in earlier then earlier + [last.name] else earlier
  }

  /** The value a run last reported under a name. */
  function LastReported(reports: seq<Report>, runId: nat, name: string): string {
    if reports == [] then ""
    else if reports[|reports| - 1].runId == runId && reports[|reports| - 1].name == name then reports[|reports| - 1].value
    else LastReported(reports[..|reports| - 1], runId, name)
  }

  lemma {:induction false} FirstReportedOnce(reports: seq<Report>, runId: nat)
    ensures NoDuplicates(FirstReported(reports, runId))
  {
    if reports != [] {
      FirstReportedOnce(reports[..|reports| - 1], runId);
    }
  }

  function Names(rows: seq<MetricRecord>): (names: seq<string>)
    ensures |names| == |rows| && forall i :: 0 <= i < |rows| ==> names[i] == rows[i].name
  {
    if rows == [] then [] else Names(rows[..|rows| - 1]) + [rows[|rows| - 1].name]
  }

  /** One row for each run and name, holding the value last reported. */
  ghost predicate Holds(rows: seq<MetricRecord>, reports: seq<Report>) {
    && (forall i, j :: 0 <= i < j < |rows| ==> rows[i].runId != rows[j].runId || rows[i].name != rows[j].name)
    && (forall i :: 0 <= i < |rows| ==> rows[i].value == LastReported(reports, rows[i].runId, rows[i].name))
  }

  lemma {:induction false} NamesAppend(rows: seq<MetricRecord>, x: MetricRecord)
    ensures Names(rows + [x]) == Names(rows) + [x.name]
  {
    assert (rows + [x])[..|rows|] == rows;
  }

  lemma {:induction false} AppendRow(rows: seq<MetricRecord>, x: MetricRecord, runId: nat)
    ensures Names(ForRun(rows + [x], runId)) == Names(ForRun(rows, runId)) + (if x.runId == runId then [x.name] else [])
  {
    assert (rows + [x])[..|rows|] == rows;
    NamesAppend(ForRun(rows, runId), x);
  }

  lemma SameThen(a: seq<MetricRecord>, b: seq<MetricRecord>, z: MetricRecord, runId: nat)
    requires Names(ForRun(a, runId)) == Names(ForRun(b, runId))
    ensures Names(ForRun(a + [z], runId)) == Names(ForRun(b + [z], runId))
  {
    AppendRow(a, z, runId);
    AppendRow(b, z, runId);
  }

  lemma Regroup<T>(before: seq<T>, x: T, after: seq<T>)
    requires after != []
    ensures before + [x] + after == before + [x] + after[..|after| - 1] + [after[|after| - 1]]
  {
  }

  /** Changing a row's value changes neither which rows a run has nor their names. */
  lemma {:induction false} UpdateKeepsNames(before: seq<MetricRecord>, x: MetricRecord, y: MetricRecord, after: seq<MetricRecord>, runId: nat)
    requires x.runId == y.runId && x.name == y.name
    ensures Names(ForRun(before + [x] + after, runId)) == Names(ForRun(before + [y] + after, runId))
  {
    if after == [] {
      AppendRow(before, x, runId);
      AppendRow(before, y, runId);
      assert before + [x] + after == before + [x] && before + [y] + after == before + [y];
    } else {
      var n := |after| - 1;
      UpdateKeepsNames(before, x, y, after[..n], runId);
      SameThen(before + [x] + after[..n], before + [y] + after[..n], after[n], runId);
      Regroup(before, x, after);
      Regroup(before, y, after);
    }
  }

  lemma SplitAt<T>(s: seq<T>, k: nat, y: T)
    requires k < |s|
    ensures s == s[..k] + [s[k]] + s[k + 1..]
    ensures s[k := y] == s[..k] + [y] + s[k + 1..]
  {
  }

  lemma {:induction false} ReplaceKeepsNames(rows: seq<MetricRecord>, k: nat, value: string, runId: nat)
    requires k < |rows|
    ensures Names(ForRun(rows[k := rows[k].(value := value)], runId)) == Names(ForRun(rows, runId))
  {
    var y := rows[k].(value := value);
    SplitAt(rows, k, y);
    UpdateKeepsNames(rows[..k], rows[k], y, rows[k + 1..], runId);
  }

  /** The table has a row for a run and name exactly when the run has reported that name. */
  lemma {:induction false} FoundExactly(rows: seq<MetricRecord>, reports: seq<Report>, runId: nat, name: string)
    requires Names(ForRun(rows, runId)) == FirstReported(reports, runId)
    ensures Find(rows, runId, name) < |rows| <==> name in FirstReported(reports, runId)
  {
    var found, k := ForRun(rows, runId), Find(rows, runId, name);
    ForRunMembers(rows, runId);
    if k < |rows| {
      assert rows[k] in found;
      var i :| 0 <= i < |found| && found[i] == rows[k];
      assert Names(found)[i] == name;
    }
    if name in Names(found) {
      var i :| 0 <= i < |found| && Names(found)[i] == name;
      assert found[i] in rows;
    }
  }

  /** One more report: the conflicting row is given the new value, or a row is added at the end. */
  lemma {:induction false} UpsertKeepsHolds(t: Table, before: seq<Report>, r: Report)
    requires Holds(t.rows, before)
    ensures Holds(Upsert(t, r).rows, before + [r])
  {
    var rows := Upsert(t, r).rows;
    forall i | 0 <= i < |rows|
      ensures rows[i].value == LastReported(before + [r], rows[i].runId, rows[i].name)
    {
      assert (before + [r])[..|before|] == before;
    }
  }

  lemma {:induction false} UpsertKeepsNames(t: Table, before: seq<Report>, r: Report, runId: nat)
    requires Names(ForRun(t.rows, runId)) == FirstReported(before, runId)
    requires Names(ForRun(t.rows, r.runId)) == FirstReported(before, r.runId)
    ensures Names(ForRun(Upsert(t, r).rows, runId)) == FirstReported(before + [r], runId)
  {
    var k := Find(t.rows, r.runId, r.name);
    assert (before + [r])[..|before|] == before;
    FoundExactly(t.rows, before, r.runId, r.name);
    if k < |t.rows| {
      ReplaceKeepsNames(t.rows, k, r.value, runId);
    } else {
      AppendRow(t.rows, MetricRecord(t.nextId, r.runId, r.name, r.value), runId);
    }
  }

  lemma StoreNext(reports: seq<Report>)
    requires reports != []
    ensures var before, r := reports[..|reports| - 1], reports[|reports| - 1];
            reports == before + [r] && Store(reports) == Upsert(Store(before), r)
  {
  }

  lemma {:induction false} StoreHolds(reports: seq<Report>)
    ensures Holds(Store(reports).rows, reports)
  {
    if reports != [] {
      var before, r := reports[..|reports| - 1], reports[|reports| - 1];
      StoreNext(reports);
      StoreHolds(before);
      UpsertKeepsHolds(Store(before), before, r);
    }
  }

  lemma {:induction false} StoreNames(reports: seq<Report>, runId: nat)
    ensures Names(ForRun(Store(reports).rows, runId)) == FirstReported(reports, runId)
  {
    if reports != [] {
      var before, r := reports[..|reports| - 1], reports[|reports| - 1];
      StoreNext(reports);
      StoreNames(before, runId);
      StoreNames(before, r.runId);
      UpsertKeepsNames(Store(before), before, r, runId);
    }
  }

  /** Rows are in id order, so listing them in place is listing them by id. */
  lemma {:induction false} IdsAscend(reports: seq<Report>)
    ensures var t := Store(reports);
            && (forall i, j :: 0 <= i < j < |t.rows| ==> t.rows[i].id < t.rows[j].id)
            && (forall i :: 0 <= i < |t.rows| ==> t.rows[i].id < t.nextId)
  {
    if reports != [] {
      IdsAscend(reports[..|reports| - 1]);
      assert Store(reports) == Upsert(Store(reports[..|reports| - 1]), reports[|reports| - 1]);
    }
  }

  /** Each run lists every name it reported once, in first-report order, with the value last reported. */
  lemma {:induction false} EachRunListsItsReports(reports: seq<Report>, runId: nat)
    ensures var listed := ForRun(Store(reports).rows, runId);
            && Names(listed) == FirstReported(reports, runId) && NoDuplicates(Names(listed))
            && forall x :: x in listed ==> x.value == LastReported(reports, runId, x.name)
  {
    StoreHolds(reports);
    StoreNames(reports, runId);
    FirstReportedOnce(reports, runId);
    ForRunMembers(Store(reports).rows, runId);
  }

  // ---- The summary of a job's runs ----

  /** Names not met before go to the end, in order. */
  function AddNames(names: seq<string>, more: seq<string>): seq<string> {
    if more == [] then names
    else
      var sofar, n := AddNames(names, more[..|more| - 1]), more[|more| - 1];
      if n in sofar then sofar else sofar + [n]
  }

  function Merge(lists: seq<seq<string>>): seq<string> {
    if lists == [] then [] else AddNames(Merge(lists[..|lists| - 1]), lists[|lists| - 1])
  }

  /** The names of each run, as the table lists them. */
  function NameLists(rows: seq<MetricRecord>, runs: seq<nat>): (lists: seq<seq<string>>)
    ensures |lists| == |runs| && forall i :: 0 <= i < |runs| ==> lists[i] == Names(ForRun(rows, runs[i]))
  {
    if runs == [] then [] else NameLists(rows, runs[..|runs| - 1]) + [Names(ForRun(rows, runs[|runs| - 1]))]
  }

  function Column(listed: seq<MetricRecord>): map<string, string> {
    if listed == [] then map[]
    else Column(listed[..|listed| - 1])[listed[|listed| - 1].name := listed[|listed| - 1].value]
  }

  lemma {:induction false} AddNamesAddsAll(names: seq<string>, more: seq<string>)
    requires NoDuplicates(names)
    ensures var all := AddNames(names, more);
            && NoDuplicates(all) && names <= all
            && (forall n :: n in all <==> n in names || n in more)
  {
    if more != [] {
      AddNamesAddsAll(names, more[..|more| - 1]);
      assert more == more[..|more| - 1] + [more[|more| - 1]];
    }
  }

  /** Names met for the first time are added as they come, so a duplicate-free first list is copied. */
  lemma {:induction false} AddNamesToNone(more: seq<string>)
    requires NoDuplicates(more)
    ensures AddNames([], more) == more
  {
    if more != [] {
      AddNamesToNone(more[..|more| - 1]);
      assert more == more[..|more| - 1] + [more[|more| - 1]];
    }
  }

  lemma {:induction false} MergeIsUnion(lists: seq<seq<string>>)
    requires forall l :: l in lists ==> NoDuplicates(l)
    ensures NoDuplicates(Merge(lists))
    ensures forall n :: n in Merge(lists) <==> exists l :: l in lists && n in l
    ensures lists != [] ==> lists[0] <= Merge(lists)
  {
    if lists != [] {
      var before, last := lists[..|lists| - 1], lists[|lists| - 1];
      assert lists == before + [last];
      MergeIsUnion(before);
      AddNamesAddsAll(Merge(before), last);
      if before == [] {
        AddNamesToNone(last);
      }
    }
  }

  lemma {:induction false} ColumnHasListed(listed: seq<MetricRecord>)
    requires NoDuplicates(Names(listed))
    ensures forall n :: n in Column(listed) <==> n in Names(listed)
    ensures forall x :: x in listed ==> x.name in Column(listed) && Column(listed)[x.name] == x.value
  {
    if listed != [] {
      var before, x := listed[..|listed| - 1], listed[|listed| - 1];
      assert listed == before + [x];
      NamesAppend(before, x);
      assert Names(before) == Names(listed)[..|before|];
      ColumnHasListed(before);
      assert forall y :: y in before ==> y.name in Names(before);
    }
  }

  /**
   The summary's list of names has each name some run reported, once, beginning with the first run's
   own list in the order of its reports.
   */
  lemma SummaryNames(reports: seq<Report>, runs: seq<nat>)
    requires runs != []
    ensures var names := Merge(NameLists(Store(reports).rows, runs));
            && NoDuplicates(names)
            && FirstReported(reports, runs[0]) <= names
            && forall n :: n in names <==> exists i :: 0 <= i < |runs| && n in FirstReported(reports, runs[i])
  {
    var lists := NameLists(Store(reports).rows, runs);
    forall i | 0 <= i < |runs|
      ensures lists[i] == FirstReported(reports, runs[i]) && NoDuplicates(lists[i])
    {
      EachRunListsItsReports(reports, runs[i]);
    }
    MergeIsUnion(lists);
  }

  /** A column maps just the names its run reported to the values it last reported. */
  lemma SummaryColumn(reports: seq<Report>, runId: nat)
    ensures var column := Column(ForRun(Store(reports).rows, runId));
            && (forall n :: n in column <==> n in FirstReported(reports, runId))
            && (forall n :: n in column ==> column[n] == LastReported(reports, runId, n))
  {
    var listed := ForRun(Store(reports).rows, runId);
    EachRunListsItsReports(reports, runId);
    ColumnHasListed(listed);
    forall n | n in Column(listed)
      ensures Column(listed)[n] == LastReported(reports, runId, n)
    {
      var k :| 0 <= k < |listed| && Names(listed)[k] == n;
      assert listed[k] in listed && listed[k].name == n;
    }
  }

  lemma {:induction false} AddNamesNext(names: seq<string>, metrics: seq<MetricRecord>, j: nat)
    requires j < |metrics|
    ensures var sofar, n := AddNames(names, Names(metrics[..j])), metrics[j].name;
            AddNames(names, Names(metrics[..j + 1])) == if n in sofar then sofar else sofar + [n]
  {
    assert metrics[..j + 1] == metrics[..j] + [metrics[j]];
    NamesAppend(metrics[..j], metrics[j]);
    var more := Names(metrics[..j]) + [metrics[j].name];
    assert more[..|more| - 1] == Names(metrics[..j]);
  }

  lemma {:induction false} ColumnNext(metrics: seq<MetricRecord>, j: nat)
    requires j < |metrics|
    ensures Column(metrics[..j + 1]) == Column(metrics[..j])[metrics[j].name := metrics[j].value]
  {
    assert metrics[..j + 1][..j] == metrics[..j];
  }

  // ---- Beside a column, the host it is from ----

  datatype HostDesc = HostDesc(hostname: string, cpuDesc: string, maxFreq: nat)

  /** A run of the job, one for each host, and its column of the table. */
  datatype JobRun = JobRun(id: nat, hostId: Option<nat>)

  datatype RunColumn = RunColumn(metrics: map<string, string>, host: HostDesc)

  function Ids(runs: seq<JobRun>): (ids: seq<nat>)
    ensures |ids| == |runs| && forall i :: 0 <= i < |runs| ==> ids[i] == runs[i].id
  {
    if runs == [] then [] else Ids(runs[..|runs| - 1]) + [runs[|runs| - 1].id]
  }

  function CpuDesc(vendor: string, family: string, model: string): string {
    if (vendor, family, model) == ("Arm Limited", "8", "0xd03") then "aarch64 A53"
    else if (vendor, family, model) == ("Arm Limited", "8", "0xd0c") then "aarch64 Neoverse N1"
    else if (vendor, family, model) == ("GenuineIntel", "6", "85") then "x86_64 Skylake"
    else if (vendor, family, model) == ("GenuineIntel", "6", "58") then "x86_64 Ivy Bridge"
    else if (vendor, family, model) == ("AuthenticAMD", "23", "113") then "x86_64 Matisse"
    else "unknown " + vendor + ":" + family + ":" + model
  }

  /** Exactly the five models that are known are called by a name of their own. */
  lemma KnownCpus(vendor: string, family: string, model: string)
    ensures CpuDesc("Arm Limited", "8", "0xd03") == "aarch64 A53" && CpuDesc("Arm Limited", "8", "0xd0c") == "aarch64 Neoverse N1"
    ensures CpuDesc("GenuineIntel", "6", "85") == "x86_64 Skylake" && CpuDesc("GenuineIntel", "6", "58") == "x86_64 Ivy Bridge"
    ensures CpuDesc("AuthenticAMD", "23", "113") == "x86_64 Matisse"
    ensures CpuDesc(vendor, family, model) == "unknown " + vendor + ":" + family + ":" + model
         || (vendor, family, model) in {("Arm Limited", "8", "0xd03"), ("Arm Limited", "8", "0xd0c"), ("GenuineIntel", "6", "85"),
                                        ("GenuineIntel", "6", "58"), ("AuthenticAMD", "23", "113")}
  {
  }

  /** Whoever took the run; a run nobody has taken is from an unknown host. */
  function Described(hosts: map<nat, HostInfo>, hostId: Option<nat>): HostDesc
    requires hostId.Some? ==> hostId.value in hosts
  {
    match hostId
    case Some(h) => HostDesc(hosts[h].hostname, CpuDesc(hosts[h].vendorId, hosts[h].family, hosts[h].model), hosts[h].maxFreq)
    case None => UNKNOWN_HOST
  }

  const UNKNOWN_HOST := HostDesc("unknown", CpuDesc("unknown", "0", "0"), 0)

  function ColumnOf(rows: seq<MetricRecord>, hosts: map<nat, HostInfo>, run: JobRun): RunColumn
    requires run.hostId.Some? ==> run.hostId.value in hosts
  {
    RunColumn(Column(ForRun(rows, run.id)), Described(hosts, run.hostId))
  }

  ghost predicate HostsKnown(hosts: map<nat, HostInfo>, runs: seq<JobRun>) {
    forall i :: 0 <= i < |runs| && runs[i].hostId.Some? ==> runs[i].hostId.value in hosts
  }

  /** The columns of the summary, in the order of the runs. */
  function Columns(rows: seq<MetricRecord>, hosts: map<nat, HostInfo>, runs: seq<JobRun>): seq<RunColumn>
    requires HostsKnown(hosts, runs)
  {
    if runs == [] then []
    else Columns(rows, hosts, runs[..|runs| - 1]) + [ColumnOf(rows, hosts, runs[|runs| - 1])]
  }

  lemma {:induction false} ColumnsNext(rows: seq<MetricRecord>, hosts: map<nat, HostInfo>, runs: seq<JobRun>, n: nat)
    requires HostsKnown(hosts, runs) && n < |runs|
    ensures Columns(rows, hosts, runs[..n + 1]) == Columns(rows, hosts, runs[..n]) + [ColumnOf(rows, hosts, runs[n])]
  {
    assert runs[..n + 1][..n] == runs[..n];
  }

  /** Each run has its own column: just the names it reported, with the values it last reported, and its host. */
  lemma {:induction false} SummaryColumns(reports: seq<Report>, hosts: map<nat, HostInfo>, runs: seq<JobRun>, i: nat)
    requires HostsKnown(hosts, runs) && i < |runs|
    ensures var columns := Columns(Store(reports).rows, hosts, runs);
            && |columns| == |runs| && columns[i].host == Described(hosts, runs[i].hostId)
            && (runs[i].hostId.None? ==> columns[i].host.hostname == "unknown" && columns[i].host.maxFreq == 0)
            && (runs[i].hostId.Some? ==>
                  && columns[i].host.hostname == hosts[runs[i].hostId.value].hostname
                  && columns[i].host.maxFreq == hosts[runs[i].hostId.value].maxFreq)
            && (forall n :: n in columns[i].metrics <==> n in FirstReported(reports, runs[i].id))
            && (forall n :: n in columns[i].metrics ==> columns[i].metrics[n] == LastReported(reports, runs[i].id, n))
  {
    ColumnAt(Store(reports).rows, hosts, runs, i);
    SummaryColumn(reports, runs[i].id);
  }

  lemma {:induction false} ColumnAt(rows: seq<MetricRecord>, hosts: map<nat, HostInfo>, runs: seq<JobRun>, i: nat)
    requires HostsKnown(hosts, runs) && i < |runs|
    ensures |Columns(rows, hosts, runs)| == |runs| && Columns(rows, hosts, runs)[i] == ColumnOf(rows, hosts, runs[i])
  {
    if |runs| > 1 {
      ColumnAt(rows, hosts, runs[..|runs| - 1], if i < |runs| - 1 then i else 0);
    }
  }

  /** The names of the first `n` runs. */
  function MergedUpTo(rows: seq<MetricRecord>, runs: seq<JobRun>, n: nat): seq<string>
    requires n <= |runs|
  {
    Merge(NameLists(rows, Ids(runs))[..n])
  }

  lemma MergedNone(rows: seq<MetricRecord>, runs: seq<JobRun>)
    ensures MergedUpTo(rows, runs, 0) == []
  {
  }

  lemma {:induction false} MergedNext(rows: seq<MetricRecord>, runs: seq<JobRun>, n: nat)
    requires n < |runs|
    ensures MergedUpTo(rows, runs, n + 1) == AddNames(MergedUpTo(rows, runs, n), Names(ForRun(rows, runs[n].id)))
  {
    var lists := NameLists(rows, Ids(runs));
    assert lists[..n + 1][..n] == lists[..n];
  }

  lemma {:induction false} MergedAll(rows: seq<MetricRecord>, runs: seq<JobRun>)
    ensures MergedUpTo(rows, runs, |runs|) == Merge(NameLists(rows, Ids(runs)))
  {
    var lists := NameLists(rows, Ids(runs));
    assert lists[..|runs|] == lists;
  }

  /** The metrics table of the database. */
  class MetricStore {
    var table: Table

    constructor ()
      ensures table == EMPTY
    {
      table := EMPTY;
    }

    method InsertMetric(runId: nat, name: string, value: string)
      modifies this
      ensures table == Upsert(old(table), Report(runId, name, value))
    {
      var k := 0;
      while k < |table.rows| && (table.rows[k].runId != runId || table.rows[k].name != name)
        invariant k <= |table.rows|
        invariant forall i :: 0 <= i < k ==> !(table.rows[i].runId == runId && table.rows[i].name == name)
      {
        k := k + 1;
      }
      if k < |table.rows| {
        table := table.(rows := table.rows[k := table.rows[k].(value := value)]);
      } else {
        table := Table(table.rows + [MetricRecord(table.nextId, runId, name, value)], table.nextId + 1);
      }
    }

    method MetricsForRun(runId: nat) returns (metrics: seq<MetricRecord>)
      ensures metrics == ForRun(table.rows, runId)
    {
      metrics := [];
      for i := 0 to |table.rows|
        invariant metrics == ForRun(table.rows[..i], runId)
      {
        assert table.rows[..i + 1][..i] == table.rows[..i];
        if table.rows[i].runId == runId {
          metrics := metrics + [table.rows[i]];
        }
      }
      assert table.rows[..|table.rows|] == table.rows;
    }

    /** One pass over a run's metrics: extend the list of names, and fill the run's column. */
    static method AddRun(names: seq<string>, metrics: seq<MetricRecord>) returns (allNames: seq<string>, column: map<string, string>)
      ensures allNames == AddNames(names, Names(metrics)) && column == Column(metrics)
    {
      allNames, column := names, map[];
      for j := 0 to |metrics|
        invariant allNames == AddNames(names, Names(metrics[..j]))
        invariant column == Column(metrics[..j])
      {
        AddNamesNext(names, metrics, j);
        ColumnNext(metrics, j);
        if metrics[j].name !in allNames {
          allNames := allNames + [metrics[j].name];
        }
        column := column[metrics[j].name := metrics[j].value];
      }
      assert metrics[..|metrics|] == metrics;
    }

    /** What one run contributes; its host's id is one that the run table took from the hosts table. */
    method SummarizeRun(names: seq<string>, hosts: map<nat, HostInfo>, run: JobRun) returns (allNames: seq<string>, entry: RunColumn)
      requires run.hostId.Some? ==> run.hostId.value in hosts
      ensures allNames == AddNames(names, Names(ForRun(table.rows, run.id))) && entry == ColumnOf(table.rows, hosts, run)
    {
      var metrics := MetricsForRun(run.id);
      var column;
      allNames, column := AddRun(names, metrics);
      entry := RunColumn(column, Described(hosts, run.hostId));
    }

    method SummarizeJobMetrics(hosts: map<nat, HostInfo>, runs: seq<JobRun>) returns (allNames: seq<string>, columns: seq<RunColumn>)
      requires HostsKnown(hosts, runs)
      ensures allNames == Merge(NameLists(table.rows, Ids(runs)))
      ensures columns == Columns(table.rows, hosts, runs)
    {
      allNames, columns := [], [];
      MergedNone(table.rows, runs);
      for i := 0 to |runs|
        invariant allNames == MergedUpTo(table.rows, runs, i)
        invariant columns == Columns(table.rows, hosts, runs[..i])
      {
        var entry;
        allNames, entry := SummarizeRun(allNames, hosts, runs[i]);
        MergedNext(table.rows, runs, i);
        ColumnsNext(table.rows, hosts, runs, i);
        columns := columns + [entry];
      }
      MergedAll(table.rows, runs);
      assert runs[..|runs|] == runs;
    }
  }
}
