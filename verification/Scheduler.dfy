/** One scheduler pass over both queues, against storage that may refuse any transaction. */
module Scheduler {
  import opened Wrappers
  import opened Text
  import opened Jobs
  import opened JobStore
  import opened Registry
  import QueueRuns

  function Detail(state: PublishState): string {
    match state
    case Published => "scheduled local runner workflow completed; remote platform processing is not confirmed"
    case Unavailable => "scheduled local runner was unavailable; no remote platform publication was attempted"
    case _ => "scheduled local runner workflow was incomplete; remote platform processing is not confirmed"
  }

  /** How a pass leaves one claimed job: completed, queued again, or still dispatching under its ticket. */
  datatype Settlement = Finished | Requeued | Left

  function Fate(claimed: Job, s: Settlement, outcome: PublishState, at: nat): Job {
    match s
    case Finished => Moved(claimed, outcome, at)
    case Requeued => Moved(claimed, Queued, at)
    case Left => claimed
  }

  /**
   Completion is tried in transaction `n`. If it is refused, or the row cannot be written,
   requeue is tried in the next one; only if that is refused too is the job left.
   */
  function Settled(faults: nat -> bool, n: nat, collides: bool): Settlement {
    if !faults(n) && !collides then Finished
    else if !faults(n + 1) then Requeued
    else Left
  }

  function Transactions(s: Settlement): nat { if s.Finished? then 1 else 2 }

  /** The number of the next transaction after the given settlements. */
  function Clock(start: nat, settled: seq<Settlement>): nat {
    if settled == [] then start else Clock(start, settled[..|settled| - 1]) + Transactions(settled[|settled| - 1])
  }

  // ---------------------------------------------------------------- progress

  /** The first `|settled|` claimed jobs have met their fate, the others are dispatching, the rest is untouched. */
  ghost predicate JobsSettled(before: map<string, Job>, after: map<string, Job>, taken: seq<string>,
                              settled: seq<Settlement>, outcomes: seq<PublishState>, at: nat)
    requires |settled| <= |taken| <= |outcomes|
  {
    && after.Keys == before.Keys && Keyed(after)
    && (forall id :: id in before && id !in taken ==> after[id] == before[id])
    && (forall i :: 0 <= i < |taken| ==> taken[i] in before)
    && (forall i, j :: 0 <= i < j < |taken| ==> taken[i] != taken[j])
    && (forall i :: 0 <= i < |settled| ==>
          after[taken[i]] == Fate(Moved(before[taken[i]], Dispatching, at), settled[i], outcomes[i], at))
    && (forall i :: |settled| <= i < |taken| ==> after[taken[i]] == Moved(before[taken[i]], Dispatching, at))
  }

  predicate RowOf(jobs: map<string, Job>, before: map<string, HistoryRow>, after: map<string, HistoryRow>, id: string, row: string) {
    && id in jobs && row !in before && row in after
    && after[row].state == jobs[id].state && after[row].request == RunnerSafe(jobs[id].request)
    && after[row].recordedAt == jobs[id].updatedAt
  }

  /** Each finished job has a new history row of its own with its outcome; nothing else was written. */
  ghost predicate RowsWritten(jobs: map<string, Job>, before: map<string, HistoryRow>, after: map<string, HistoryRow>,
                              rows: map<string, string>)
  {
    && (forall id :: id in rows ==> RowOf(jobs, before, after, id, rows[id]))
    && (forall a, b :: a in rows && b in rows && a != b ==> rows[a] != rows[b])
    && after.Keys == before.Keys + rows.Values
    && (forall row :: row in before ==> after[row] == before[row])
  }

  /** Exactly the finished jobs have rows. */
  ghost predicate RowsOfFinished(taken: seq<string>, settled: seq<Settlement>, rows: map<string, string>)
    requires |settled| <= |taken|
  {
    && (forall i :: 0 <= i < |settled| ==> (settled[i].Finished? <==> taken[i] in rows))
    && (forall id :: id in rows ==> id in taken[..|settled|])
  }

  /** The rows of a pass carry numbers its sequence has used up. */
  ghost predicate RowsNumbered(before: Db, after: Db, rows: map<string, string>) {
    && after.kind == before.kind && after.historySequence >= before.historySequence
    && forall id :: id in rows ==>
         exists n: nat :: n <= after.historySequence && rows[id] == Numbered(HistoryPrefix(before.kind), n)
  }

  ghost predicate Progress(before: Db, after: Db, taken: seq<string>, settled: seq<Settlement>,
                           outcomes: seq<PublishState>, at: nat, rows: map<string, string>)
    requires |settled| <= |taken| <= |outcomes|
  {
    && JobsSettled(before.jobs, after.jobs, taken, settled, outcomes, at)
    && RowsWritten(after.jobs, before.history, after.history, rows)
    && RowsOfFinished(taken, settled, rows)
    && RowsNumbered(before, after, rows)
  }

  /** An article row that was stored beforehand ahead of the sequence, such as an imported one. */
  ghost predicate Obstructed(db: Db) {
    db.kind == Article
    && exists n: nat :: n > db.historySequence && Numbered(HistoryPrefix(Article), n) in db.history
  }

  /** Each settlement is the one its two transactions determine; only an obstructed history adds a failure. */
  ghost predicate Explained(faults: nat -> bool, before: Db, start: nat, settled: seq<Settlement>) {
    forall i :: 0 <= i < |settled| ==>
      || settled[i] == Settled(faults, Clock(start, settled[..i]), false)
      || (Obstructed(before) && settled[i] == Settled(faults, Clock(start, settled[..i]), true))
  }

  lemma OneMoreJob(before: map<string, Job>, now: map<string, Job>, next: map<string, Job>, taken: seq<string>,
                   settled: seq<Settlement>, s: Settlement, outcomes: seq<PublishState>, at: nat)
    requires |settled| < |taken| <= |outcomes| && JobsSettled(before, now, taken, settled, outcomes, at)
    requires next.Keys == now.Keys && Keyed(next)
    requires forall id :: id in now && id != taken[|settled|] ==> next[id] == now[id]
    requires next[taken[|settled|]] == Fate(now[taken[|settled|]], s, outcomes[|settled|], at)
    ensures JobsSettled(before, next, taken, settled + [s], outcomes, at)
  {
    hide Fate;
  }

  lemma RowsStay(jobs: map<string, Job>, next: map<string, Job>, before: map<string, HistoryRow>, after: map<string, HistoryRow>,
                 rows: map<string, string>, id: string)
    requires RowsWritten(jobs, before, after, rows) && id !in rows
    requires next.Keys == jobs.Keys && forall x :: x in jobs && x != id ==> next[x] == jobs[x]
    ensures RowsWritten(next, before, after, rows)
  {
  }

  lemma AddedValue(rows: map<string, string>, id: string, row: string)
    requires id !in rows
    ensures rows[id := row].Values == rows.Values + {row}
  {
    var rows' := rows[id := row];
    assert rows'[id] == row;
    forall r | r in rows.Values ensures r in rows'.Values {
      var x :| x in rows && rows[x] == r;
      assert rows'[x] == r;
    }
  }

  lemma OneMoreRow(jobs: map<string, Job>, next: map<string, Job>, before: map<string, HistoryRow>, after: map<string, HistoryRow>,
                   rows: map<string, string>, id: string, row: string, record: HistoryRow)
    requires RowsWritten(jobs, before, after, rows) && id !in rows && id in next && row !in after
    requires next.Keys == jobs.Keys && forall x :: x in jobs && x != id ==> next[x] == jobs[x]
    requires record.state == next[id].state && record.request == RunnerSafe(next[id].request)
    requires record.recordedAt == next[id].updatedAt
    ensures RowsWritten(next, before, after[row := record], rows[id := row])
  {
    var rows' := rows[id := row];
    AddedValue(rows, id, row);
    assert after[row := record].Keys == after.Keys + {row};
    forall x | x in rows' ensures RowOf(next, before, after[row := record], x, rows'[x]) {
      if x != id { assert RowOf(jobs, before, after, x, rows[x]); }
    }
    forall a, b | a in rows' && b in rows' && a != b ensures rows'[a] != rows'[b] {
      assert a in rows ==> RowOf(jobs, before, after, a, rows[a]);
      assert b in rows ==> RowOf(jobs, before, after, b, rows[b]);
    }
  }

  /** The next identifier can only be one that was stored before the pass began. */
  lemma CollisionsAreOld(before: Db, now: Db, rows: map<string, string>)
    requires RowsNumbered(before, now, rows) && now.history.Keys == before.history.Keys + rows.Values
    requires Collides(now)
    ensures Obstructed(before)
  {
    var n := now.historySequence + 1;
    var row := Numbered(HistoryPrefix(Article), n);
    assert RowId(now) == row && row in now.history.Keys;
    if row in rows.Values {
      var id :| id in rows && rows[id] == row;
      var m: nat :| m <= now.historySequence && rows[id] == Numbered(HistoryPrefix(before.kind), m);
      NumberedInjective(HistoryPrefix(Article), m, n);
      assert false;
    }
    assert n > before.historySequence && row in before.history;
  }

  // ---------------------------------------------------------- one claimed job

  /** A live ticket passes every check of completion but the row's identifier, and every check of requeue. */
  lemma LiveTicket(now: Db, job: Job, outcome: PublishState, at: nat, detail: string)
    requires job.id in now.jobs && now.jobs[job.id] == job && job.state.Dispatching? && Terminal(outcome)
    ensures var r := Complete(now, job.id, job.revision, outcome, at, detail);
      && (r.Ok? <==> !Collides(now))
      && (r.Ok? ==>
            && r.value.0.jobs == now.jobs[job.id := Moved(job, outcome, at)] && r.value.1 == RowId(now)
            && r.value.0.kind == now.kind && r.value.0.historySequence == RowNumber(now)
            && r.value.0.history == now.history[RowId(now) := HistoryRow(RunnerSafe(job.request), outcome, at, detail)])
    ensures Requeue(now, job.id, job.revision, at) == Ok(Put(now, Moved(job, Queued, at)))
  {
  }

  lemma RowIsFresh(db: Db)
    ensures !Collides(db) ==> RowId(db) !in db.history && RowNumber(db) > db.historySequence
    ensures RowId(db) == Numbered(HistoryPrefix(db.kind), RowNumber(db))
  {
  }

  /** Completion, and requeue of the exact claim if and only if completion fails. */
  method SettleClaim(store: Store, job: Job, outcome: PublishState, at: nat)
    returns (ghost s: Settlement)
    requires store.Valid() && Terminal(outcome)
    requires job.id in store.jobs && store.jobs[job.id] == job && job.state.Dispatching?
    modifies store
    ensures store.Valid()
    ensures s == Settled(store.faults, old(store.transactions), Collides(old(store.Tables())))
    ensures store.transactions == old(store.transactions) + Transactions(s)
    ensures store.jobs == old(store.jobs)[job.id := Fate(job, s, outcome, at)]
    ensures s.Finished? <==> !store.faults(old(store.transactions)) && !Collides(old(store.Tables()))
    ensures s.Left? <==> !s.Finished? && store.faults(old(store.transactions) + 1)
    ensures store.jobs[job.id] ==
      if s.Left? then job
      else job.(state := if s.Finished? then outcome else Queued, revision := job.revision + 1, updatedAt := at)
    ensures s.Finished? ==>
      && store.historySequence == RowNumber(old(store.Tables())) && RowId(old(store.Tables())) !in old(store.history)
      && store.history == old(store.history)[RowId(old(store.Tables())) :=
           HistoryRow(job.request.(routed := false), outcome, at, Detail(outcome))]
    ensures !s.Finished? ==>
      store.history == old(store.history) && store.historySequence == old(store.historySequence)
  {
    hide Complete;
    hide Requeue;
    hide Collides;
    hide RowId;
    hide RowNumber;
    hide Detail;
    ghost var now, n := store.Tables(), store.transactions;
    LiveTicket(now, job, outcome, at, Detail(outcome));
    var completed := store.CompleteJobWithHistory(job.id, job.revision, outcome, at, Detail(outcome));
    s := Settled(store.faults, n, Collides(now));
    if completed.Err? {
      assert store.Tables() == now;
      var requeued := store.RequeueClaim(job.id, job.revision, at);
      assert now.jobs == now.jobs[job.id := job];
    }
  }

  // --------------------------------------------------------------- one queue

  /** The jobs a claim handed out, as the pass sees them. */
  ghost predicate JustClaimed(before: Db, store: Store, taken: seq<string>, claimed: seq<Job>, at: nat)
    reads store
  {
    && Keyed(before.jobs) && |claimed| == |taken| && store.kind == before.kind
    && (forall i :: 0 <= i < |taken| ==> taken[i] in store.jobs && claimed[i] == store.jobs[taken[i]])
    && store.history == before.history && store.historySequence == before.historySequence
    && (forall i :: 0 <= i < |taken| ==> taken[i] in before.jobs)
    && (forall i, j :: 0 <= i < j < |taken| ==> taken[i] != taken[j])
    && store.jobs.Keys == before.jobs.Keys
    && forall id :: id in before.jobs ==>
         store.jobs[id] == if id in taken then Moved(before.jobs[id], Dispatching, at) else before.jobs[id]
  }

  /** The outcome a claimed job is recorded with, video `i` of the pass meeting `providers(i)`. */
  ghost predicate VideoOutcomes(before: Db, taken: seq<string>, providers: nat -> Providers, outcomes: seq<PublishState>) {
    |outcomes| == |taken|
    && forall i :: 0 <= i < |taken| && taken[i] in before.jobs ==>
         var request := before.jobs[taken[i]].request.(scheduledAt := None);
         outcomes[i] == TickOutcome(if Validates(request) then Ok(ReportOf(providers(i), request)) else Err(()))
  }

  ghost predicate ArticleOutcomes(taken: seq<string>, runner: Option<nat -> ArticleReply>, outcomes: seq<PublishState>) {
    |outcomes| == |taken|
    && forall i :: 0 <= i < |taken| ==> outcomes[i] == AnswerOf(runner, i)
  }

  /** What the runner's reply to article `i` of the pass, or its absence, is recorded as. */
  function AnswerOf(runner: Option<nat -> ArticleReply>, i: nat): (state: PublishState)
    ensures Terminal(state)
  {
    ArticleOutcome(if runner.None? then None else Some(runner.value(i)))
  }

  lemma StartOfPass(before: Db, store: Store, taken: seq<string>, claimed: seq<Job>, outcomes: seq<PublishState>, at: nat)
    requires store.Valid() && JustClaimed(before, store, taken, claimed, at) && |outcomes| == |taken|
    ensures Progress(before, store.Tables(), taken, [], outcomes, at, map[])
  {
    var none: map<string, string> := map[];
    assert none.Values == {};
  }

  lemma ClaimedTickets(before: Db, store: Store, taken: seq<string>, claimed: seq<Job>, at: nat)
    requires JustClaimed(before, store, taken, claimed, at)
    ensures Keyed(before.jobs) && |claimed| == |taken|
    ensures forall i :: 0 <= i < |taken| ==> taken[i] in before.jobs && claimed[i] == Moved(before.jobs[taken[i]], Dispatching, at)
  {
    forall i | 0 <= i < |taken|
      ensures taken[i] in before.jobs && claimed[i] == Moved(before.jobs[taken[i]], Dispatching, at)
    {
      assert taken[i] in taken;
    }
  }

  /** The next job of a pass still sits under its ticket. */
  lemma NextTicket(before: Db, now: Db, taken: seq<string>, settled: seq<Settlement>, outcomes: seq<PublishState>, at: nat, rows: map<string, string>)
    requires Keyed(before.jobs) && |settled| < |taken| <= |outcomes| && Progress(before, now, taken, settled, outcomes, at, rows)
    ensures var id := taken[|settled|];
      && id in before.jobs && id in now.jobs && id !in rows
      && now.jobs[id] == Moved(before.jobs[id], Dispatching, at) && now.jobs[id].id == id
  {
    assert taken[|settled|] !in taken[..|settled|];
  }

  lemma OneMoreFinished(taken: seq<string>, settled: seq<Settlement>, s: Settlement, rows: map<string, string>, rows': map<string, string>)
    requires |settled| < |taken| && RowsOfFinished(taken, settled, rows)
    requires forall i, j :: 0 <= i < j < |taken| ==> taken[i] != taken[j]
    requires rows'.Keys == if s.Finished? then rows.Keys + {taken[|settled|]} else rows.Keys
    ensures RowsOfFinished(taken, settled + [s], rows')
  {
    var n := |settled|;
    assert taken[..n + 1] == taken[..n] + [taken[n]];
    assert taken[n] !in taken[..n];
    forall id | id in rows' ensures id in taken[..n + 1] { }
    assert taken[n] !in rows;
  }

  lemma OneMoreNumber(before: Db, now: Db, next: Db, rows: map<string, string>, id: string, row: string)
    requires RowsNumbered(before, now, rows) && next.kind == before.kind
    requires next.historySequence > now.historySequence && row == Numbered(HistoryPrefix(before.kind), next.historySequence)
    ensures RowsNumbered(before, next, rows[id := row])
  {
    var rows' := rows[id := row];
    forall x | x in rows'
      ensures exists n: nat :: n <= next.historySequence && rows'[x] == Numbered(HistoryPrefix(before.kind), n)
    {
      if x != id {
        var n: nat :| n <= now.historySequence && rows[x] == Numbered(HistoryPrefix(before.kind), n);
        assert n <= next.historySequence && rows'[x] == Numbered(HistoryPrefix(before.kind), n);
      }
    }
  }

  /** The settlements are explained and account for all transactions since `start`. */
  ghost predicate OnTime(faults: nat -> bool, before: Db, start: nat, settled: seq<Settlement>, n: nat) {
    Explained(faults, before, start, settled) && n == Clock(start, settled)
  }

  lemma OneMoreExplained(faults: nat -> bool, before: Db, start: nat, settled: seq<Settlement>, n: nat, collides: bool)
    requires OnTime(faults, before, start, settled, n) && (collides ==> Obstructed(before))
    ensures var s := Settled(faults, n, collides);
      OnTime(faults, before, start, settled + [s], n + Transactions(s))
  {
    var s := Settled(faults, n, collides);
    hide Obstructed;
    var more := settled + [s];
    assert more[..|settled|] == settled;
    forall i | 0 <= i < |more|
      ensures more[i] == Settled(faults, Clock(start, more[..i]), false)
              || (Obstructed(before) && more[i] == Settled(faults, Clock(start, more[..i]), true))
    {
      if i < |settled| { assert more[..i] == settled[..i]; }
    }
  }

  /** The row a completion adds. */
  lemma AccountRow(before: Db, now: Db, next: Db, rows: map<string, string>, id: string, record: HistoryRow)
    requires RowsWritten(now.jobs, before.history, now.history, rows) && RowsNumbered(before, now, rows)
    requires next.kind == now.kind && !Collides(now) && id !in rows && id in now.jobs
    requires next.jobs.Keys == now.jobs.Keys && forall x :: x in now.jobs && x != id ==> next.jobs[x] == now.jobs[x]
    requires record.state == next.jobs[id].state && record.request == RunnerSafe(next.jobs[id].request)
    requires record.recordedAt == next.jobs[id].updatedAt
    requires next.historySequence == RowNumber(now) && next.history == now.history[RowId(now) := record]
    ensures RowsWritten(next.jobs, before.history, next.history, rows[id := RowId(now)])
    ensures RowsNumbered(before, next, rows[id := RowId(now)])
  {
    RowIsFresh(now);
    SameKind(before, now, rows);
    hide RowsWritten;
    hide RowsNumbered;
    hide Collides;
    hide RowId;
    hide RowNumber;
    OneMoreRow(now.jobs, next.jobs, before.history, now.history, rows, id, RowId(now), record);
    OneMoreNumber(before, now, next, rows, id, RowId(now));
  }

  /** What a completion does to the accounts of a pass. */
  lemma AccountFinished(before: Db, now: Db, next: Db, taken: seq<string>, settled: seq<Settlement>,
                        outcomes: seq<PublishState>, at: nat, rows: map<string, string>, detail: string)
    requires Keyed(before.jobs) && |settled| < |taken| <= |outcomes| && Progress(before, now, taken, settled, outcomes, at, rows)
    requires Keyed(next.jobs) && next.kind == now.kind && !Collides(now)
    requires var id := taken[|settled|];
      id in now.jobs && next.jobs == now.jobs[id := Fate(now.jobs[id], Finished, outcomes[|settled|], at)]
    requires next.historySequence == RowNumber(now)
    requires next.history == now.history[RowId(now) :=
      HistoryRow(RunnerSafe(now.jobs[taken[|settled|]].request), outcomes[|settled|], at, detail)]
    ensures Progress(before, next, taken, settled + [Finished], outcomes, at, rows[taken[|settled|] := RowId(now)])
  {
    var id := taken[|settled|];
    NextTicket(before, now, taken, settled, outcomes, at, rows);
    assert forall i, j :: 0 <= i < j < |taken| ==> taken[i] != taken[j];
    hide JobsSettled;
    hide RowsWritten;
    hide RowsOfFinished;
    hide RowsNumbered;
    hide Collides;
    hide RowId;
    hide RowNumber;
    AccountRow(before, now, next, rows, id, HistoryRow(RunnerSafe(now.jobs[id].request), outcomes[|settled|], at, detail));
    OneMoreJob(before.jobs, now.jobs, next.jobs, taken, settled, Finished, outcomes, at);
    OneMoreFinished(taken, settled, Finished, rows, rows[id := RowId(now)]);
  }

  /** ... and a failed completion, whether or not the requeue went through. */
  lemma AccountUnfinished(before: Db, now: Db, next: Db, taken: seq<string>, settled: seq<Settlement>, s: Settlement,
                          outcomes: seq<PublishState>, at: nat, rows: map<string, string>)
    requires Keyed(before.jobs) && |settled| < |taken| <= |outcomes| && Progress(before, now, taken, settled, outcomes, at, rows)
    requires Keyed(next.jobs) && next.kind == now.kind && !s.Finished?
    requires var id := taken[|settled|];
      id in now.jobs && next.jobs == now.jobs[id := Fate(now.jobs[id], s, outcomes[|settled|], at)]
    requires next.history == now.history && next.historySequence == now.historySequence
    ensures Progress(before, next, taken, settled + [s], outcomes, at, rows)
  {
    NextTicket(before, now, taken, settled, outcomes, at, rows);
    assert forall i, j :: 0 <= i < j < |taken| ==> taken[i] != taken[j];
    hide JobsSettled;
    hide RowsWritten;
    hide RowsOfFinished;
    hide RowsNumbered;
    OneMoreJob(before.jobs, now.jobs, next.jobs, taken, settled, s, outcomes, at);
    OneMoreFinished(taken, settled, s, rows, rows);
    RowsStay(now.jobs, next.jobs, before.history, now.history, rows, taken[|settled|]);
    SameNumbers(before, now, next, rows);
  }

  lemma SameKind(before: Db, now: Db, rows: map<string, string>)
    requires RowsNumbered(before, now, rows)
    ensures now.kind == before.kind
  {
  }

  lemma SameNumbers(before: Db, now: Db, next: Db, rows: map<string, string>)
    requires RowsNumbered(before, now, rows) && next.kind == now.kind && next.historySequence == now.historySequence
    ensures RowsNumbered(before, next, rows)
  {
  }

  /** Settles the next claimed job and accounts for it. */
  method Advance(store: Store, job: Job, outcome: PublishState, at: nat, ghost before: Db, ghost start: nat, ghost taken: seq<string>,
                 ghost settled: seq<Settlement>, ghost outcomes: seq<PublishState>, ghost rows: map<string, string>)
    returns (ghost settled': seq<Settlement>, ghost rows': map<string, string>)
    requires store.Valid() && Terminal(outcome)
    requires |settled| < |taken| <= |outcomes| && outcomes[|settled|] == outcome
    requires Progress(before, store.Tables(), taken, settled, outcomes, at, rows)
    requires OnTime(store.faults, before, start, settled, store.transactions)
    requires Keyed(before.jobs) && taken[|settled|] in before.jobs
    requires job == Moved(before.jobs[taken[|settled|]], Dispatching, at)
    modifies store
    ensures store.Valid() && |settled'| == |settled| + 1
    ensures Progress(before, store.Tables(), taken, settled', outcomes, at, rows')
    ensures OnTime(store.faults, before, start, settled', store.transactions)
  {
    hide Progress;
    hide RowsNumbered;
    hide OnTime;
    hide Collides;
    hide RowId;
    hide RowNumber;
    hide Settled;
    hide Fate;
    hide Detail;
    hide Obstructed;
    ghost var now, n := store.Tables(), store.transactions;
    ghost var id := taken[|settled|];
    NextTicket(before, now, taken, settled, outcomes, at, rows);
    RowsSoFar(before, now, taken, settled, outcomes, at, rows);
    OneMoreExplained(store.faults, before, start, settled, n, Collides(now));
    ghost var s := SettleClaim(store, job, outcome, at);
    settled' := settled + [s];
    if s.Finished? {
      FinishedIsFree(store.faults, n, Collides(now));
      rows' := rows[id := RowId(now)];
      AccountFinished(before, now, store.Tables(), taken, settled, outcomes, at, rows, Detail(outcome));
    } else {
      rows' := rows;
      AccountUnfinished(before, now, store.Tables(), taken, settled, s, outcomes, at, rows);
    }
  }

  lemma RowsSoFar(before: Db, now: Db, taken: seq<string>, settled: seq<Settlement>, outcomes: seq<PublishState>, at: nat, rows: map<string, string>)
    requires |settled| <= |taken| <= |outcomes| && Progress(before, now, taken, settled, outcomes, at, rows)
    ensures Collides(now) ==> Obstructed(before)
  {
    hide JobsSettled;
    hide RowsNumbered;
    hide Collides;
    hide Obstructed;
    if Collides(now) { CollisionsAreOld(before, now, rows); }
  }

  lemma FinishedIsFree(faults: nat -> bool, n: nat, collides: bool)
    requires Settled(faults, n, collides).Finished?
    ensures !collides
  {
  }

  method VideoPass(store: Store, claimed: seq<Job>, providers: nat -> Providers, at: nat, ghost before: Db, ghost taken: seq<string>)
    returns (ghost outcomes: seq<PublishState>, ghost settled: seq<Settlement>, ghost rows: map<string, string>)
    requires store.Valid() && JustClaimed(before, store, taken, claimed, at)
    modifies store
    ensures store.Valid() && VideoOutcomes(before, taken, providers, outcomes) && |settled| == |taken|
    ensures Progress(before, store.Tables(), taken, settled, outcomes, at, rows)
    ensures OnTime(store.faults, before, old(store.transactions), settled, store.transactions)
  {
    outcomes := seq(|taken|, i requires 0 <= i < |taken| =>
      var request := claimed[i].request.(scheduledAt := None);
      TickOutcome(if Validates(request) then Ok(ReportOf(providers(i), request)) else Err(())));
    settled, rows := [], map[];
    StartOfPass(before, store, taken, claimed, outcomes, at);
    ClaimedTickets(before, store, taken, claimed, at);
    hide JustClaimed;
    hide Progress;
    hide OnTime;
    NothingExplained(store.faults, before, store.transactions);
    for i := 0 to |claimed|
      invariant store.Valid() && |settled| == i && Progress(before, store.Tables(), taken, settled, outcomes, at, rows)
      invariant OnTime(store.faults, before, old(store.transactions), settled, store.transactions)
    {
      var request := claimed[i].request.(scheduledAt := None);
      var report := DispatchAll(providers(i), request);
      settled, rows := Advance(store, claimed[i], TickOutcome(report), at, before, old(store.transactions), taken, settled, outcomes, rows);
    }
  }

  lemma NothingExplained(faults: nat -> bool, before: Db, start: nat)
    ensures OnTime(faults, before, start, [], start)
  {
  }

  method ArticlePass(store: Store, claimed: seq<Job>, runner: Option<nat -> ArticleReply>, at: nat, ghost before: Db, ghost taken: seq<string>)
    returns (ghost outcomes: seq<PublishState>, ghost settled: seq<Settlement>, ghost rows: map<string, string>)
    requires store.Valid() && JustClaimed(before, store, taken, claimed, at)
    modifies store
    ensures store.Valid() && ArticleOutcomes(taken, runner, outcomes) && |settled| == |taken|
    ensures Progress(before, store.Tables(), taken, settled, outcomes, at, rows)
    ensures OnTime(store.faults, before, old(store.transactions), settled, store.transactions)
  {
    outcomes := seq(|taken|, i requires 0 <= i < |taken| => AnswerOf(runner, i));
    assert ArticleOutcomes(taken, runner, outcomes);
    hide AnswerOf;
    hide ArticleOutcomes;
    settled, rows := [], map[];
    StartOfPass(before, store, taken, claimed, outcomes, at);
    ClaimedTickets(before, store, taken, claimed, at);
    hide JustClaimed;
    hide Progress;
    hide OnTime;
    NothingExplained(store.faults, before, store.transactions);
    for i := 0 to |claimed|
      invariant store.Valid() && |settled| == i && Progress(before, store.Tables(), taken, settled, outcomes, at, rows)
      invariant OnTime(store.faults, before, old(store.transactions), settled, store.transactions)
    {
      settled, rows := Advance(store, claimed[i], AnswerOf(runner, i), at, before, old(store.transactions), taken, settled, outcomes, rows);
    }
  }

  /** Claims from one queue; the facts a pass starts from. */
  method ClaimFor(store: Store, through: string, at: nat, limit: nat) returns (r: Result<seq<Job>, DomainError>)
    requires store.Valid()
    modifies store
    ensures store.Valid()
    ensures store.transactions == old(store.transactions) + if limit > 0 then 1 else 0
    ensures r.Err? <==> limit > 0 && store.faults(old(store.transactions))
    ensures r.Err? ==> store.Tables() == old(store.Tables())
    ensures r.Ok? ==> |r.value| <= limit && |r.value| <= MAX_CLAIM_BATCH
    ensures r.Ok? ==> JustClaimed(old(store.Tables()), store, Selection(old(store.Tables()), through, limit), r.value, at)
  {
    ClaimTakesFront(store.Tables(), through, at, limit);
    r := store.ClaimDue(through, at, limit);
  }

  /** How a pass that claimed `taken`, its first transaction numbered `start`, leaves a queue. */
  ghost predicate PassLeaves(faults: nat -> bool, start: nat, before: Db, after: Db, taken: seq<string>,
                             outcomes: seq<PublishState>, at: nat)
  {
    |outcomes| == |taken| && exists settled: seq<Settlement>, rows: map<string, string> ::
      |settled| == |taken| && Progress(before, after, taken, settled, outcomes, at, rows) && Explained(faults, before, start, settled)
  }

  /** Claim and pass over the video queue; the result is how many jobs were claimed. */
  method TickVideos(store: Store, providers: nat -> Providers, through: string, at: nat, limit: nat)
    returns (r: Result<nat, DomainError>, ghost outcomes: seq<PublishState>)
    requires store.Valid()
    modifies store
    ensures store.Valid()
    ensures r.Err? <==> limit > 0 && store.faults(old(store.transactions))
    ensures r.Err? ==> store.Tables() == old(store.Tables())
    ensures r.Ok? ==>
      var taken := Selection(old(store.Tables()), through, limit);
      && r.value == |taken| <= limit && r.value <= MAX_CLAIM_BATCH
      && VideoOutcomes(old(store.Tables()), taken, providers, outcomes)
      && PassLeaves(store.faults, old(store.transactions) + if limit > 0 then 1 else 0, old(store.Tables()), store.Tables(), taken, outcomes, at)
  {
    hide Progress;
    hide Explained;
    hide JustClaimed;
    outcomes := [];
    ghost var before := store.Tables();
    var claimed := ClaimFor(store, through, at, limit);
    if claimed.Err? {
      return Err(claimed.error), outcomes;
    }
    ghost var settled, rows;
    SameCount(before, store, Selection(before, through, limit), claimed.value, at);
    outcomes, settled, rows := VideoPass(store, claimed.value, providers, at, before, Selection(before, through, limit));
    return Ok(|claimed.value|), outcomes;
  }

  lemma SameCount(before: Db, store: Store, taken: seq<string>, claimed: seq<Job>, at: nat)
    requires JustClaimed(before, store, taken, claimed, at)
    ensures |claimed| == |taken|
  {
  }

  method TickArticles(store: Store, runner: Option<nat -> ArticleReply>, through: string, at: nat, limit: nat)
    returns (r: Result<nat, DomainError>, ghost outcomes: seq<PublishState>)
    requires store.Valid()
    modifies store
    ensures store.Valid()
    ensures r.Err? <==> limit > 0 && store.faults(old(store.transactions))
    ensures r.Err? ==> store.Tables() == old(store.Tables())
    ensures r.Ok? ==>
      var taken := Selection(old(store.Tables()), through, limit);
      && r.value == |taken| <= limit && r.value <= MAX_CLAIM_BATCH
      && ArticleOutcomes(taken, runner, outcomes)
      && PassLeaves(store.faults, old(store.transactions) + if limit > 0 then 1 else 0, old(store.Tables()), store.Tables(), taken, outcomes, at)
  {
    hide Progress;
    hide Explained;
    hide JustClaimed;
    outcomes := [];
    ghost var before := store.Tables();
    var claimed := ClaimFor(store, through, at, limit);
    if claimed.Err? {
      return Err(claimed.error), outcomes;
    }
    ghost var settled, rows;
    SameCount(before, store, Selection(before, through, limit), claimed.value, at);
    outcomes, settled, rows := ArticlePass(store, claimed.value, runner, at, before, Selection(before, through, limit));
    return Ok(|claimed.value|), outcomes;
  }

  /**
   `run_scheduler_tick_at`. An error means a claim was refused and changed nothing.
   Otherwise every claimed job is completed, or, exactly when completing failed, requeued,
   with the outcome of its own dispatch; every other job is untouched, and both queues
   together gave up at most `batchSize` jobs.
   */
  method RunSchedulerTick(videos: Store, articles: Store, providers: nat -> Providers, runner: Option<nat -> ArticleReply>,
                          through: string, at: nat, batchSize: nat)
    returns (r: Result<(), DomainError>, videoCount: Option<nat>, articleCount: Option<nat>,
             ghost videoOutcomes: seq<PublishState>, ghost articleOutcomes: seq<PublishState>)
    requires videos.Valid() && articles.Valid() && videos != articles
    modifies videos, articles
    ensures videos.Valid() && articles.Valid()
    ensures r.Ok? <==> videoCount.Some? && articleCount.Some?
    ensures videoCount.None? <==> batchSize > 0 && videos.faults(old(videos.transactions))
    ensures match videoCount
            case None => videos.Tables() == old(videos.Tables()) && articleCount.None?
            case Some(n) =>
              var taken := Selection(old(videos.Tables()), through, batchSize);
              && n == |taken| <= batchSize
              && VideoOutcomes(old(videos.Tables()), taken, providers, videoOutcomes)
              && PassLeaves(videos.faults, old(videos.transactions) + if batchSize > 0 then 1 else 0,
                            old(videos.Tables()), videos.Tables(), taken, videoOutcomes, at)
    ensures videoCount.Some? ==>
      (articleCount.None? <==> batchSize - videoCount.value > 0 && articles.faults(old(articles.transactions)))
    ensures match articleCount
            case None => articles.Tables() == old(articles.Tables())
            case Some(n) =>
              videoCount.Some? && videoCount.value + n <= batchSize &&
              var limit := batchSize - videoCount.value;
              var taken := Selection(old(articles.Tables()), through, limit);
              && n == |taken|
              && ArticleOutcomes(taken, runner, articleOutcomes)
              && PassLeaves(articles.faults, old(articles.transactions) + if limit > 0 then 1 else 0,
                            old(articles.Tables()), articles.Tables(), taken, articleOutcomes, at)
  {
    hide PassLeaves;
    hide VideoOutcomes;
    hide ArticleOutcomes;
    hide Selection;
    videoCount, articleCount, articleOutcomes := None, None, [];
    var claimed;
    claimed, videoOutcomes := TickVideos(videos, providers, through, at, batchSize);
    if claimed.Err? {
      r := Err(claimed.error);
      return;
    }
    videoCount := Some(claimed.value);
    var rest;
    rest, articleOutcomes := TickArticles(articles, runner, through, at, batchSize - claimed.value);
    if rest.Err? {
      r := Err(rest.error);
      return;
    }
    articleCount := Some(rest.value);
    r := Ok(());
  }

  // -------------------------------------------------------------------- laws

  lemma {:induction false} ClockRuns(start: nat, settled: seq<Settlement>, i: nat)
    requires i < |settled|
    ensures start <= Clock(start, settled[..i])
    ensures Clock(start, settled[..i]) + Transactions(settled[i]) <= Clock(start, settled) <= start + 2 * |settled|
    decreases |settled|
  {
    var n := |settled| - 1;
    if i < n {
      ClockRuns(start, settled[..n], i);
      assert settled[..n][..i] == settled[..i];
    } else {
      ClockBounds(start, settled[..n]);
    }
  }

  lemma {:induction false} ClockBounds(start: nat, settled: seq<Settlement>)
    ensures start <= Clock(start, settled) <= start + 2 * |settled|
  {
    if settled != [] { ClockBounds(start, settled[..|settled| - 1]); }
  }

  /** The row a finished job has of its own. */
  ghost predicate RowAdded(before: map<string, HistoryRow>, after: map<string, HistoryRow>, request: Request, state: PublishState, at: nat) {
    exists row :: row !in before && row in after
      && after[row].request == request.(routed := false) && after[row].state == state && after[row].recordedAt == at
  }

  lemma FinishedHasRow(faults: nat -> bool, start: nat, before: Db, after: Db, taken: seq<string>, outcomes: seq<PublishState>, at: nat, i: nat)
    requires PassLeaves(faults, start, before, after, taken, outcomes, at) && i < |taken| && taken[i] in before.jobs
    requires taken[i] in after.jobs && !after.jobs[taken[i]].state.Queued? && !after.jobs[taken[i]].state.Dispatching?
    ensures RowAdded(before.history, after.history, before.jobs[taken[i]].request, outcomes[i], at)
  {
    var settled: seq<Settlement>, rows: map<string, string> :|
      |settled| == |taken| && Progress(before, after, taken, settled, outcomes, at, rows) && Explained(faults, before, start, settled);
    hide Explained;
    hide RowsNumbered;
    assert settled[i].Finished? && after.jobs[taken[i]].state == outcomes[i] by { hide RowsWritten; hide RowsOfFinished; }
    assert after.jobs[taken[i]].request == before.jobs[taken[i]].request && after.jobs[taken[i]].updatedAt == at by {
      hide RowsWritten;
      hide RowsOfFinished;
    }
    hide JobsSettled;
    var row := rows[taken[i]];
    assert RowOf(after.jobs, before.history, after.history, taken[i], row);
  }

  /** When storage refuses nothing during a pass, every claimed job ends terminal with its outcome. */
  lemma FaultFreePassFinishes(faults: nat -> bool, start: nat, before: Db, after: Db, taken: seq<string>, outcomes: seq<PublishState>, at: nat)
    requires PassLeaves(faults, start, before, after, taken, outcomes, at) && !Obstructed(before)
    requires forall n :: start <= n < start + 2 * |taken| ==> !faults(n)
    ensures |outcomes| == |taken|
    ensures forall i :: 0 <= i < |taken| ==>
      && taken[i] in before.jobs && taken[i] in after.jobs
      && after.jobs[taken[i]] ==
           before.jobs[taken[i]].(state := outcomes[i], revision := before.jobs[taken[i]].revision + 2, updatedAt := at)
      && (Terminal(outcomes[i]) ==> RowAdded(before.history, after.history, before.jobs[taken[i]].request, outcomes[i], at))
  {
    assert |outcomes| == |taken|;
    hide PassLeaves;
    hide Obstructed;
    forall i | 0 <= i < |taken|
      ensures taken[i] in before.jobs && taken[i] in after.jobs
      ensures after.jobs[taken[i]] ==
        before.jobs[taken[i]].(state := outcomes[i], revision := before.jobs[taken[i]].revision + 2, updatedAt := at)
      ensures Terminal(outcomes[i]) ==> RowAdded(before.history, after.history, before.jobs[taken[i]].request, outcomes[i], at)
    {
      hide RowAdded;
      var n, s := SettlementOf(faults, start, before, after, taken, outcomes, at, i);
      if Terminal(outcomes[i]) { FinishedHasRow(faults, start, before, after, taken, outcomes, at, i); }
    }
  }

  /**
   An article is recorded as published iff there is a runner and it accepted, as unavailable iff
   there is none or it says so, and as failed otherwise; after a pass nothing was refused in, so
   are its job and a row of its own.
   */
  lemma ArticlesEndAsAnswered(faults: nat -> bool, start: nat, before: Db, after: Db, taken: seq<string>,
                              runner: Option<nat -> ArticleReply>, outcomes: seq<PublishState>, at: nat, i: nat)
    requires ArticleOutcomes(taken, runner, outcomes) && i < |taken|
    ensures outcomes[i] == Published <==> runner.Some? && runner.value(i) == ArticleAccepted
    ensures outcomes[i] == PublishState.Unavailable <==> runner.None? || runner.value(i) == ArticleUnavailable
    ensures outcomes[i] == Published || outcomes[i] == PublishState.Unavailable || outcomes[i] == Failed
    ensures PassLeaves(faults, start, before, after, taken, outcomes, at) && !Obstructed(before)
            && (forall n :: start <= n < start + 2 * |taken| ==> !faults(n)) ==>
      && taken[i] in before.jobs && taken[i] in after.jobs && after.jobs[taken[i]].state == outcomes[i]
      && RowAdded(before.history, after.history, before.jobs[taken[i]].request, outcomes[i], at)
  {
    hide PassLeaves;
    hide Obstructed;
    hide RowAdded;
    if PassLeaves(faults, start, before, after, taken, outcomes, at) && !Obstructed(before)
       && forall n :: start <= n < start + 2 * |taken| ==> !faults(n) {
      FaultFreePassFinishes(faults, start, before, after, taken, outcomes, at);
    }
  }

  /** Every target of a request is offered to an available provider that accepts it, or to none. */
  predicate AllAccept(providers: Providers, r: Request) {
    forall p :: p in r.targets ==> p in providers && providers[p].available && providers[p].enqueue(r) == Ok(Accepted)
  }

  predicate NoneAvailable(providers: Providers, r: Request) {
    forall p :: p in r.targets ==>
      p !in providers || !providers[p].available || providers[p].enqueue(r) == Ok(NotAvailable)
  }

  /**
   A video is recorded as published iff its request validates and every target's provider is
   available and accepts, as unavailable iff it validates and none is available, and as failed
   otherwise; after a pass nothing was refused in, so are its job and a row of its own.
   */
  lemma VideosEndAsReported(faults: nat -> bool, start: nat, before: Db, after: Db, taken: seq<string>,
                            providers: nat -> Providers, outcomes: seq<PublishState>, at: nat, i: nat)
    requires VideoOutcomes(before, taken, providers, outcomes) && i < |taken| && taken[i] in before.jobs
    ensures var r := before.jobs[taken[i]].request.(scheduledAt := None);
      && (outcomes[i] == Published <==> Validates(r) && AllAccept(providers(i), r))
      && (outcomes[i] == PublishState.Unavailable <==> Validates(r) && NoneAvailable(providers(i), r))
    ensures outcomes[i] == Published || outcomes[i] == PublishState.Unavailable || outcomes[i] == Failed
    ensures PassLeaves(faults, start, before, after, taken, outcomes, at) && !Obstructed(before)
            && (forall n :: start <= n < start + 2 * |taken| ==> !faults(n)) ==>
      && taken[i] in after.jobs && after.jobs[taken[i]].state == outcomes[i]
      && RowAdded(before.history, after.history, before.jobs[taken[i]].request, outcomes[i], at)
  {
    hide PassLeaves;
    hide Obstructed;
    hide RowAdded;
    OutcomeIsReported(before, taken, providers, outcomes, i);
    hide VideoOutcomes;
    if PassLeaves(faults, start, before, after, taken, outcomes, at) && !Obstructed(before)
       && forall n :: start <= n < start + 2 * |taken| ==> !faults(n) {
      FaultFreePassFinishes(faults, start, before, after, taken, outcomes, at);
    }
  }

  lemma OutcomeIsReported(before: Db, taken: seq<string>, providers: nat -> Providers, outcomes: seq<PublishState>, i: nat)
    requires VideoOutcomes(before, taken, providers, outcomes) && i < |taken| && taken[i] in before.jobs
    ensures var r := before.jobs[taken[i]].request.(scheduledAt := None);
      && (outcomes[i] == Published <==> Validates(r) && AllAccept(providers(i), r))
      && (outcomes[i] == PublishState.Unavailable <==> Validates(r) && NoneAvailable(providers(i), r))
    ensures outcomes[i] == Published || outcomes[i] == PublishState.Unavailable || outcomes[i] == Failed
  {
    var r := before.jobs[taken[i]].request.(scheduledAt := None);
    var report := ReportOf(providers(i), r);
    ReportMeans(providers(i), r);
    TickOutcomeMeans(if Validates(r) then Ok(report) else Err(()));
    hide ReportOf;
    hide TickOutcome;
    if Validates(r) {
      assert r.targets[0] in report;
      assert (forall p :: p in report ==> report[p] == Accepted) <==> AllAccept(providers(i), r);
      assert (forall p :: p in report ==> report[p] == NotAvailable) <==> NoneAvailable(providers(i), r);
    }
  }

  /** The settlement of one claimed job, and the number of its first transaction. */
  lemma SettlementOf(faults: nat -> bool, start: nat, before: Db, after: Db, taken: seq<string>, outcomes: seq<PublishState>, at: nat, i: nat)
    returns (n: nat, s: Settlement)
    requires PassLeaves(faults, start, before, after, taken, outcomes, at) && i < |taken|
    ensures start <= n < start + 2 * |taken| && taken[i] in before.jobs && taken[i] in after.jobs && |outcomes| == |taken|
    ensures after.jobs[taken[i]] == Fate(Moved(before.jobs[taken[i]], Dispatching, at), s, outcomes[i], at)
    ensures s == Settled(faults, n, false) || (Obstructed(before) && s == Settled(faults, n, true))
  {
    var settled: seq<Settlement>, rows: map<string, string> :|
      |settled| == |taken| && Progress(before, after, taken, settled, outcomes, at, rows) && Explained(faults, before, start, settled);
    ClockRuns(start, settled, i);
    hide Obstructed;
    hide Fate;
    hide Settled;
    hide RowsWritten;
    hide RowsOfFinished;
    hide RowsNumbered;
    n, s := Clock(start, settled[..i]), settled[i];
  }

  /** A job stays dispatching iff its completion failed and the requeue right after it was refused. */
  lemma LeftIffBothFailed(faults: nat -> bool, start: nat, before: Db, after: Db, taken: seq<string>,
                          outcomes: seq<PublishState>, at: nat, i: nat) returns (n: nat)
    requires PassLeaves(faults, start, before, after, taken, outcomes, at) && i < |taken|
    requires forall k :: 0 <= k < |outcomes| ==> Terminal(outcomes[k])
    ensures start <= n < start + 2 * |taken| && taken[i] in after.jobs
    ensures after.jobs[taken[i]].state.Dispatching? ==> faults(n + 1) && (faults(n) || Obstructed(before))
    ensures !Obstructed(before) ==>
      && (Terminal(after.jobs[taken[i]].state) <==> !faults(n))
      && (after.jobs[taken[i]].state.Queued? <==> faults(n) && !faults(n + 1))
      && (after.jobs[taken[i]].state.Dispatching? <==> faults(n) && faults(n + 1))
  {
    hide PassLeaves;
    hide Obstructed;
    var s;
    n, s := SettlementOf(faults, start, before, after, taken, outcomes, at, i);
  }

  /**
   In any run of the queue the stored video requests validate, so a tick records exactly
   the classification the storage layer gives the dispatch report.
   */
  lemma OutcomesAreStored(history: map<string, HistoryRow>, run: seq<QueueRuns.Action>, taken: seq<string>,
                          providers: nat -> Providers, outcomes: seq<PublishState>, i: nat)
    requires var before := QueueRuns.Exec(QueueRuns.Initial(Video, history), run).db;
      VideoOutcomes(before, taken, providers, outcomes) && i < |taken| && taken[i] in before.jobs
    ensures var request := QueueRuns.Exec(QueueRuns.Initial(Video, history), run).db.jobs[taken[i]].request.(scheduledAt := None);
      outcomes[i] == StoredOutcome(ReportOf(providers(i), request))
  {
    QueueRuns.StoredRequestsValidate(Video, history, run);
    var before := QueueRuns.Exec(QueueRuns.Initial(Video, history), run).db;
    var request := before.jobs[taken[i]].request.(scheduledAt := None);
    assert Validates(before.jobs[taken[i]].request);
    DispatchedReportsAgree(providers(i), request);
  }
}
