/**
 What the times in the run table are the times of.  Under every interleaving a recorded start is the clock
 at a moment when the client that the run was started for held it, and a recorded completion the clock at a
 moment when a client was at work on it: neither is the time of a push, of a query or of the update itself.
 */
module Times {
  import opened Common
  import opened Store
  import opened System

  /** A run held at some time by a client with this token and host. */
  datatype Hold = Hold(run: nat, at: nat, token: nat, host: nat)

  datatype Work = Work(run: nat, at: nat)

  predicate HeldBy(s: Sys, c: nat, h: Hold) {
    && c in s.cands && s.cands[c].phase.Holding? && s.cands[c].phase.run == h.run
    && s.now == h.at && s.cands[c].token == h.token && s.cands[c].host == h.host
  }

  predicate WorkedOnBy(s: Sys, c: nat, w: Work) {
    c in s.cands && s.cands[c].phase == Working(w.run) && s.now == w.at
  }

  ghost predicate Held(tr: seq<Sys>, i: nat, h: Hold)
    requires i < |tr|
  {
    exists k, c :: 0 <= k <= i && HeldBy(tr[k], c, h)
  }

  ghost predicate WorkedOn(tr: seq<Sys>, i: nat, w: Work)
    requires i < |tr|
  {
    exists k, c :: 0 <= k <= i && WorkedOnBy(tr[k], c, w)
  }

  ghost function Holds(tr: seq<Sys>, i: nat): iset<Hold>
    requires i < |tr|
  {
    iset h: Hold | Held(tr, i, h)
  }

  ghost function Works(tr: seq<Sys>, i: nat): iset<Work>
    requires i < |tr|
  {
    iset w: Work | WorkedOn(tr, i, w)
  }

  ghost predicate StartsOk(runs: map<nat, Run>, cands: map<nat, Candidate>, holds: iset<Hold>) {
    && (forall c :: c in cands && (cands[c].phase.Submitting? || cands[c].phase.Acked?) ==>
          Hold(cands[c].phase.run, cands[c].phase.start, cands[c].token, cands[c].host) in holds)
    && (forall r :: r in runs && runs[r].startTime.Some? ==> StartOk(runs[r], r, holds))
  }

  ghost predicate StartOk(row: Run, r: nat, holds: iset<Hold>)
    requires row.startTime.Some?
  {
    row.buildToken.Some? && row.hostId.Some? && Hold(r, row.startTime.value, row.buildToken.value, row.hostId.value) in holds
  }

  ghost predicate EndsOk(runs: map<nat, Run>, cands: map<nat, Candidate>, works: iset<Work>) {
    && (forall c :: c in cands && cands[c].phase.Completing? ==> Work(cands[c].phase.run, cands[c].phase.at) in works)
    && (forall r :: r in runs && runs[r].completeTime.Some? ==> Work(r, runs[r].completeTime.value) in works)
  }

  ghost predicate TimesOk(s: Sys, holds: iset<Hold>, works: iset<Work>) {
    StartsOk(s.db.runs, s.cands, holds) && EndsOk(s.db.runs, s.cands, works)
  }

  /** All that is the case at this moment is among what is known. */
  ghost predicate Covers(s: Sys, holds: iset<Hold>, works: iset<Work>) {
    && (forall c, h :: HeldBy(s, c, h) ==> h in holds)
    && (forall c, w :: WorkedOnBy(s, c, w) ==> w in works)
  }

  lemma WorldKeepsTimes(s: Sys, w: WorldStep, holds: iset<Hold>, works: iset<Work>)
    requires TimesOk(s, holds, works) && WorldEnabled(s, w)
    ensures TimesOk(WorldApply(s, w), holds, works)
  {
  }

  lemma SearchKeepsTimes(s: Sys, c: nat, q: SearchStep, holds: iset<Hold>, works: iset<Work>)
    requires TimesOk(s, holds, works) && c in s.cands && SearchEnabled(s, c, q)
    ensures TimesOk(SearchApply(s, c, q), holds, works)
  {
  }

  lemma HandOffKeepsStarts(s: Sys, c: nat, h: HandOffStep, holds: iset<Hold>, works: iset<Work>)
    requires TimesOk(s, holds, works) && Covers(s, holds, works) && c in s.cands && HandOffEnabled(s, c, h)
    ensures StartsOk(HandOffApply(s, c, h).db.runs, HandOffApply(s, c, h).cands, holds)
  {
    if h.ReadStart? {
      assert HeldBy(s, c, Hold(s.cands[c].phase.run, s.now, s.cands[c].token, s.cands[c].host));
    }
  }

  lemma HandOffKeepsEnds(s: Sys, c: nat, h: HandOffStep, holds: iset<Hold>, works: iset<Work>)
    requires TimesOk(s, holds, works) && Covers(s, holds, works) && c in s.cands && HandOffEnabled(s, c, h)
    ensures EndsOk(HandOffApply(s, c, h).db.runs, HandOffApply(s, c, h).cands, works)
  {
    if h.Status? {
      assert WorkedOnBy(s, c, Work(s.cands[c].phase.run, s.now));
    }
  }

  lemma SweepKeepsTimes(s: Sys, r: SweepStep, holds: iset<Hold>, works: iset<Work>)
    requires TimesOk(s, holds, works) && SweepEnabled(s, r)
    ensures TimesOk(SweepApply(s, r), holds, works)
  {
  }

  lemma NextKeepsTimes(s: Sys, s': Sys, holds: iset<Hold>, works: iset<Work>)
    requires TimesOk(s, holds, works) && Covers(s, holds, works) && Next(s, s')
    ensures TimesOk(s', holds, works)
  {
    var st :| Enabled(s, st) && s' == Apply(s, st);
    match st
    case World(w) => WorldKeepsTimes(s, w, holds, works);
    case Search(c, q) => SearchKeepsTimes(s, c, q, holds, works);
    case HandOff(c, h) => HandOffKeepsStarts(s, c, h, holds, works); HandOffKeepsEnds(s, c, h, holds, works);
    case Sweep(r) => SweepKeepsTimes(s, r, holds, works);
  }

  /** More is known later. */
  lemma KnownStays(s: Sys, holds: iset<Hold>, works: iset<Work>, holds': iset<Hold>, works': iset<Work>)
    requires TimesOk(s, holds, works) && holds <= holds' && works <= works'
    ensures TimesOk(s, holds', works')
  {
  }

  lemma {:induction false} TimesOkAlways(tr: seq<Sys>, i: nat)
    requires Behaviour(tr) && Init(tr[0]) && i < |tr|
    ensures TimesOk(tr[i], Holds(tr, i), Works(tr, i))
  {
    if i > 0 {
      TimesOkAlways(tr, i - 1);
      assert StepAt(tr, i - 1);
      NextKeepsTimes(tr[i - 1], tr[i], Holds(tr, i - 1), Works(tr, i - 1));
      KnownStays(tr[i], Holds(tr, i - 1), Works(tr, i - 1), Holds(tr, i), Works(tr, i));
    }
  }

  /**
   A start time is the clock of an earlier moment, of this process or one before it, at which the client
   that the row names, by host and token, held the run and had not been offered it yet.
   */
  lemma StartsAreWhenHeld(tr: seq<Sys>, i: nat, r: nat) returns (k: nat, c: nat)
    requires Behaviour(tr) && Init(tr[0]) && i < |tr| && r in tr[i].db.runs && tr[i].db.runs[r].startTime.Some?
    ensures k <= i && c in tr[k].cands && tr[k].cands[c].phase.Holding? && tr[k].cands[c].phase.run == r
    ensures tr[i].db.runs[r].startTime == Some(tr[k].now)
    ensures tr[i].db.runs[r].buildToken == Some(tr[k].cands[c].token) && tr[i].db.runs[r].hostId == Some(tr[k].cands[c].host)
  {
    TimesOkAlways(tr, i);
    var row := tr[i].db.runs[r];
    assert StartOk(row, r, Holds(tr, i));
    k, c :| 0 <= k <= i && HeldBy(tr[k], c, Hold(r, row.startTime.value, row.buildToken.value, row.hostId.value));
  }

  /** A completion time is the clock of an earlier moment at which a client was at work on the run. */
  lemma EndsAreWhenReported(tr: seq<Sys>, i: nat, r: nat) returns (k: nat, c: nat)
    requires Behaviour(tr) && Init(tr[0]) && i < |tr| && r in tr[i].db.runs && tr[i].db.runs[r].completeTime.Some?
    ensures k <= i && c in tr[k].cands && tr[k].cands[c].phase == Working(r)
    ensures tr[i].db.runs[r].completeTime == Some(tr[k].now)
  {
    TimesOkAlways(tr, i);
    var row := tr[i].db.runs[r];
    assert Work(r, row.completeTime.value) in Works(tr, i);
    k, c :| 0 <= k <= i && WorkedOnBy(tr[k], c, Work(r, row.completeTime.value));
  }
}
