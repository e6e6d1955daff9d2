/**
 The `hosts` table.  Its UNIQUE key has eleven of the twelve columns that describe a host; the maximum
 frequency is not in the key, but the lookup after the insertion compares it.
 */
module Hosts {
  import opened Common
  import opened Protocol

  const NO_ROWS := "Query returned no rows"

  /** The eleven columns of the key. */
  function Key(info: HostInfo): HostInfo {
    info.(maxFreq := 0)
  }

  predicate SameKey(a: HostInfo, b: HostInfo) {
    Key(a) == Key(b)
  }

  /** Does some row clash with a description in the UNIQUE key? */
  ghost predicate Clashes(hosts: map<nat, HostInfo>, info: HostInfo) {
    exists h :: h in hosts && SameKey(hosts[h], info)
  }

  ghost predicate Holds(hosts: map<nat, HostInfo>, info: HostInfo) {
    exists h :: h in hosts && hosts[h] == info
  }

  ghost predicate KeysDistinct(hosts: map<nat, HostInfo>) {
    forall g, h :: g in hosts && h in hosts && SameKey(hosts[g], hosts[h]) ==> g == h
  }

  class HostTable {
    var hosts: map<nat, HostInfo>
    var next: nat

    /** No two rows clash. */
    ghost predicate Valid()
      reads this
    {
      && 1 <= next && (forall h :: h in hosts <==> 1 <= h < next)
      && KeysDistinct(hosts)
    }

    constructor ()
      ensures Valid() && hosts == map[]
    {
      hosts, next := map[], 1;
    }

    method InsertOrIgnore(info: HostInfo)
      requires Valid()
      modifies this
      ensures Valid()
      ensures if Clashes(old(hosts), info)
              then hosts == old(hosts) && next == old(next)
              else hosts == old(hosts)[old(next) := info] && next == old(next) + 1
    {
      for h := 1 to next
        invariant forall g :: g in hosts && g < h ==> !SameKey(hosts[g], info)
        invariant hosts == old(hosts) && next == old(next)
      {
        if SameKey(hosts[h], info) {
          return;
        }
      }
      hosts, next := hosts[next := info], next + 1;
    }

    /** The id for a description, which is recorded if it is new. */
    method IdForHost(info: HostInfo) returns (res: Result<nat>)
      requires Valid()
      modifies this
      ensures Valid() && Interned(old(hosts), old(next), info, res, hosts, next)
      ensures res.Ok? ==> res.value in hosts && hosts[res.value] == info
      ensures res.Err? <==> exists h :: h in old(hosts) && old(hosts)[h] != info && old(hosts)[h].(maxFreq := info.maxFreq) == info
      ensures forall h :: h in old(hosts) ==> h in hosts && hosts[h] == old(hosts)[h]
    {
      ErrExactly(hosts, next, info);
      InsertOrIgnore(info);
      for h := 1 to next
        invariant forall g :: g in hosts && g < h ==> hosts[g] != info
        invariant hosts == (if Clashes(old(hosts), info) then old(hosts) else old(hosts)[old(next) := info])
        invariant Valid() && old(next) <= next <= old(next) + 1
      {
        if hosts[h] == info {
          return Ok(h);
        }
      }
      return Err(NO_ROWS);
    }
  }

  /**
   One call: either a row that does not clash with any is added, or nothing is; the id is then that of
   the row with all twelve columns, if there is one.
   */
  ghost predicate Interned(hosts: map<nat, HostInfo>, next: nat, info: HostInfo, res: Result<nat>, hosts': map<nat, HostInfo>, next': nat) {
    && Added(hosts, next, info, hosts', next')
    && match res
       case Ok(h) => h in hosts' && hosts'[h] == info
       case Err(reason) => reason == NO_ROWS && !Holds(hosts', info)
  }

  ghost predicate Added(hosts: map<nat, HostInfo>, next: nat, info: HostInfo, hosts': map<nat, HostInfo>, next': nat) {
    if Clashes(hosts, info)
    then hosts' == hosts && next' == next
    else hosts' == hosts[next := info] && next' == next + 1
  }

  /** The table before each of a series of calls, and after the last. */
  datatype Table = Table(hosts: map<nat, HostInfo>, next: nat)

  ghost predicate History(tables: seq<Table>, calls: seq<HostInfo>, results: seq<Result<nat>>) {
    && |tables| == |calls| + 1 && |results| == |calls|
    && tables[0] == Table(map[], 1)
    && forall i :: 0 <= i < |calls| ==> Call(tables, calls, results, i)
  }

  ghost predicate Call(tables: seq<Table>, calls: seq<HostInfo>, results: seq<Result<nat>>, i: nat)
    requires i < |calls| && |tables| == |calls| + 1 && |results| == |calls|
  {
    Interned(tables[i].hosts, tables[i].next, calls[i], results[i], tables[i + 1].hosts, tables[i + 1].next)
  }

  predicate FirstOfItsKey(calls: seq<HostInfo>, i: nat)
    requires i < |calls|
  {
    forall j :: 0 <= j < i ==> !SameKey(calls[j], calls[i])
  }

  /** Some call not after `i` was the first of its key. */
  lemma {:induction false} First(calls: seq<HostInfo>, i: nat) returns (f: nat)
    requires i < |calls|
    ensures f <= i && FirstOfItsKey(calls, f) && SameKey(calls[f], calls[i])
  {
    if FirstOfItsKey(calls, i) {
      f := i;
    } else {
      var j :| 0 <= j < i && SameKey(calls[j], calls[i]);
      f := First(calls, j);
    }
  }

  ghost predicate CalledFirst(calls: seq<HostInfo>, n: nat, info: HostInfo)
    requires n <= |calls|
  {
    exists i :: 0 <= i < n && FirstOfItsKey(calls, i) && calls[i] == info
  }

  ghost predicate CalledBefore(calls: seq<HostInfo>, n: nat, info: HostInfo)
    requires n <= |calls|
  {
    exists i :: 0 <= i < n && SameKey(calls[i], info)
  }

  /** The table holds the first of every family of clashing descriptions that were called with, and no more. */
  ghost predicate HoldsFirsts(t: Table, calls: seq<HostInfo>, n: nat)
    requires n <= |calls|
  {
    && KeysDistinct(t.hosts) && (forall h :: h in t.hosts ==> h < t.next)
    && forall info :: Holds(t.hosts, info) <==> CalledFirst(calls, n, info)
  }

  /** So a description clashes with a row exactly when it does with an earlier call. */
  lemma ClashMeansCalled(t: Table, calls: seq<HostInfo>, n: nat, info: HostInfo)
    requires n <= |calls| && HoldsFirsts(t, calls, n)
    ensures Clashes(t.hosts, info) <==> CalledBefore(calls, n, info)
  {
    if Clashes(t.hosts, info) {
      var h :| h in t.hosts && SameKey(t.hosts[h], info);
      assert Holds(t.hosts, t.hosts[h]);
    }
    if CalledBefore(calls, n, info) {
      var i :| 0 <= i < n && SameKey(calls[i], info);
      var f := First(calls, i);
      assert CalledFirst(calls, n, calls[f]);
    }
  }

  lemma AddingHolds(hosts: map<nat, HostInfo>, next: nat, info: HostInfo, other: HostInfo)
    requires next !in hosts
    ensures Holds(hosts[next := info], other) <==> Holds(hosts, other) || other == info
  {
    var hosts' := hosts[next := info];
    if Holds(hosts, other) {
      var h :| h in hosts && hosts[h] == other;
      assert h in hosts' && hosts'[h] == other;
    }
    assert next in hosts' && hosts'[next] == info;
  }

  lemma CalledFirstNext(calls: seq<HostInfo>, n: nat, info: HostInfo)
    requires n < |calls|
    ensures CalledFirst(calls, n + 1, info) <==> CalledFirst(calls, n, info) || (FirstOfItsKey(calls, n) && info == calls[n])
  {
  }

  lemma CallKeepsFirsts(t: Table, calls: seq<HostInfo>, n: nat, t': Table)
    requires n < |calls| && HoldsFirsts(t, calls, n) && Added(t.hosts, t.next, calls[n], t'.hosts, t'.next)
    ensures HoldsFirsts(t', calls, n + 1)
  {
    ClashMeansCalled(t, calls, n, calls[n]);
    forall info
      ensures Holds(t'.hosts, info) <==> CalledFirst(calls, n + 1, info)
    {
      CalledFirstNext(calls, n, info);
      if !Clashes(t.hosts, calls[n]) {
        AddingHolds(t.hosts, t.next, calls[n], info);
      }
    }
  }

  lemma {:induction false} AlwaysHoldsFirsts(tables: seq<Table>, calls: seq<HostInfo>, results: seq<Result<nat>>, n: nat)
    requires History(tables, calls, results) && n <= |calls|
    ensures HoldsFirsts(tables[n], calls, n)
  {
    if n > 0 {
      AlwaysHoldsFirsts(tables, calls, results, n - 1);
      assert Call(tables, calls, results, n - 1);
      CallKeepsFirsts(tables[n - 1], calls, n - 1, tables[n]);
    }
  }

  /** Rows are never changed. */
  lemma {:induction false} RowsStay(tables: seq<Table>, calls: seq<HostInfo>, results: seq<Result<nat>>, m: nat, n: nat, h: nat)
    requires History(tables, calls, results) && m <= n <= |calls| && h in tables[m].hosts
    ensures h in tables[n].hosts && tables[n].hosts[h] == tables[m].hosts[h]
  {
    if m < n {
      RowsStay(tables, calls, results, m, n - 1, h);
      NextIsNew(tables, calls, results, n - 1);
      assert Call(tables, calls, results, n - 1);
    }
  }

  lemma NextIsNew(tables: seq<Table>, calls: seq<HostInfo>, results: seq<Result<nat>>, n: nat)
    requires History(tables, calls, results) && n <= |calls|
    ensures tables[n].next !in tables[n].hosts
  {
    AlwaysHoldsFirsts(tables, calls, results, n);
  }

  /**
   A call fails exactly when the first call that agreed with it in all but the maximum frequency had another
   one.
   */
  lemma FailsExactly(tables: seq<Table>, calls: seq<HostInfo>, results: seq<Result<nat>>, n: nat, f: nat)
    requires History(tables, calls, results) && f <= n < |calls|
    requires calls[f].(maxFreq := calls[n].maxFreq) == calls[n]
    requires forall j :: 0 <= j < f ==> calls[j].(maxFreq := calls[n].maxFreq) != calls[n]
    ensures results[n].Err? <==> calls[f].maxFreq != calls[n].maxFreq
    ensures results[n].Err? ==> results[n].reason == NO_ROWS && tables[n + 1] == tables[n]
  {
    FirstInColumns(calls, n, f);
    AlwaysHoldsFirsts(tables, calls, results, n + 1);
    assert Call(tables, calls, results, n);
    HeldExactly(tables[n + 1], calls, n, f);
    NewIsHeld(tables[n], calls[n], tables[n + 1]);
  }

  lemma HeldExactly(t: Table, calls: seq<HostInfo>, n: nat, f: nat)
    requires f <= n < |calls| && HoldsFirsts(t, calls, n + 1)
    requires FirstOfItsKey(calls, f) && SameKey(calls[f], calls[n])
    ensures Holds(t.hosts, calls[n]) <==> calls[f].maxFreq == calls[n].maxFreq
  {
    assert CalledFirst(calls, n + 1, calls[f]);
    assert Key(calls[f]).(maxFreq := calls[f].maxFreq) == calls[f];
    assert Key(calls[n]).(maxFreq := calls[n].maxFreq) == calls[n];
    if CalledFirst(calls, n + 1, calls[n]) {
      var i :| 0 <= i <= n && FirstOfItsKey(calls, i) && calls[i] == calls[n];
      assert SameKey(calls[f], calls[i]);
      assert i == f;
    }
  }

  lemma NewIsHeld(t: Table, info: HostInfo, t': Table)
    requires Added(t.hosts, t.next, info, t'.hosts, t'.next)
    ensures t' == t || Holds(t'.hosts, info)
  {
    if !Clashes(t.hosts, info) {
      assert t.next in t'.hosts && t'.hosts[t.next] == info;
    }
  }

  /** To agree in the key is to agree in all but the frequency. */
  lemma KeyIsElevenColumns(a: HostInfo, b: HostInfo)
    ensures SameKey(a, b) <==> a.(maxFreq := b.maxFreq) == b
  {
    assert Key(b).(maxFreq := b.maxFreq) == b;
    assert Key(a).(maxFreq := b.maxFreq) == a.(maxFreq := b.maxFreq);
    assert Key(a.(maxFreq := b.maxFreq)) == Key(a);
  }

  lemma FirstInColumns(calls: seq<HostInfo>, n: nat, f: nat)
    requires f <= n < |calls|
    requires calls[f].(maxFreq := calls[n].maxFreq) == calls[n]
    requires forall j :: 0 <= j < f ==> calls[j].(maxFreq := calls[n].maxFreq) != calls[n]
    ensures FirstOfItsKey(calls, f) && SameKey(calls[f], calls[n])
  {
    KeyIsElevenColumns(calls[f], calls[n]);
    forall j | 0 <= j < f
      ensures !SameKey(calls[j], calls[f])
    {
      KeyIsElevenColumns(calls[j], calls[n]);
    }
  }

  /** A lookup finds nothing exactly if the row that clashes differs. */
  lemma ErrExactly(hosts: map<nat, HostInfo>, next: nat, info: HostInfo)
    requires KeysDistinct(hosts) && next !in hosts
    ensures Holds(if Clashes(hosts, info) then hosts else hosts[next := info], info) <==>
            !exists h :: h in hosts && hosts[h] != info && hosts[h].(maxFreq := info.maxFreq) == info
  {
    forall h | h in hosts
      ensures SameKey(hosts[h], info) <==> hosts[h].(maxFreq := info.maxFreq) == info
    {
      KeyIsElevenColumns(hosts[h], info);
    }
    if !Clashes(hosts, info) {
      AddingHolds(hosts, next, info, info);
    }
  }

  /** Successful calls are given equal ids exactly for equal descriptions, however far apart they are. */
  lemma IdsIdentifyHosts(tables: seq<Table>, calls: seq<HostInfo>, results: seq<Result<nat>>, m: nat, n: nat)
    requires History(tables, calls, results) && m <= n < |calls| && results[m].Ok? && results[n].Ok?
    ensures results[m].value == results[n].value <==> calls[m] == calls[n]
  {
    assert Call(tables, calls, results, m) && Call(tables, calls, results, n);
    RowsStay(tables, calls, results, m + 1, n + 1, results[m].value);
    AlwaysHoldsFirsts(tables, calls, results, n + 1);
    assert KeysDistinct(tables[n + 1].hosts);
  }

  lemma {:induction false} FirstLike(calls: seq<HostInfo>, n: nat) returns (f: nat)
    requires n < |calls|
    ensures f <= n && calls[f].(maxFreq := calls[n].maxFreq) == calls[n]
    ensures forall j :: 0 <= j < f ==> calls[j].(maxFreq := calls[n].maxFreq) != calls[n]
  {
    f := 0;
    while calls[f].(maxFreq := calls[n].maxFreq) != calls[n]
      invariant f <= n
      invariant forall j :: 0 <= j < f ==> calls[j].(maxFreq := calls[n].maxFreq) != calls[n]
      decreases n - f
    {
      f := f + 1;
    }
  }

  /** A description that once succeeded always does, and one that once failed always does. */
  lemma OutcomeIsStable(tables: seq<Table>, calls: seq<HostInfo>, results: seq<Result<nat>>, m: nat, n: nat)
    requires History(tables, calls, results) && m <= n < |calls| && calls[m] == calls[n]
    ensures results[m] == results[n]
  {
    var f := FirstLike(calls, m);
    FailsExactly(tables, calls, results, m, f);
    FailsExactly(tables, calls, results, n, f);
    if results[m].Ok? {
      IdsIdentifyHosts(tables, calls, results, m, n);
    }
  }
}
