/**
 The repository object: each method is one transaction, which either commits or
 leaves the tables as they were. `faults` decides which transactions the storage
 engine refuses.
 */
module JobStore {
  import opened Wrappers
  import opened Text
  import opened Jobs
  import Registry

  function DispatchDetail(state: PublishState): string {
    match state
    case Published => "local provider workflow completed; remote platform processing is not confirmed"
    case Unavailable => "all local providers were unavailable; no remote provider workflow was attempted"
    case _ => "local provider workflow was incomplete; remote platform processing is not confirmed"
  }

  /**
   A row for a direct dispatch: the request without account routing; published iff there was a
   report and every provider accepted, unavailable iff there was one and none was available.
   */
  predicate RecordsDispatch(row: HistoryRow, request: Request, report: Registry.Report, at: nat) {
    && row.request == request.(routed := false) && row.recordedAt == at
    && (row.state == Published || row.state == Unavailable || row.state == Failed)
    && (row.state == Published <==> report != map[] && forall p :: p in report ==> report[p].Accepted?)
    && (row.state == Unavailable <==> report != map[] && forall p :: p in report ==> report[p].NotAvailable?)
    && row.detail == DispatchDetail(row.state)
  }

  lemma DispatchRecorded(request: Request, report: Registry.Report, at: nat)
    ensures var state := Registry.StoredOutcome(report);
      RecordsDispatch(HistoryRow(RunnerSafe(request), state, at, DispatchDetail(state)), request, report, at)
  {
    Registry.StoredOutcomeMeans(report);
    hide Registry.StoredOutcome;
    hide DispatchDetail;
  }

  class Store {
    const kind: Kind
    const faults: nat -> bool
    var jobs: map<string, Job>
    var sequence: nat
    var history: map<string, HistoryRow>
    var historySequence: nat
    var transactions: nat

    ghost function Tables(): Db
      reads this
    {
      Db(kind, jobs, sequence, history, historySequence)
    }

    ghost predicate Valid()
      reads this
    {
      Keyed(jobs)
    }

    constructor (kind: Kind, faults: nat -> bool)
      ensures Valid() && Tables() == Db(kind, map[], 0, map[], 0)
    {
      this.kind, this.faults := kind, faults;
      jobs, sequence, history, historySequence, transactions := map[], 0, map[], 0, 0;
    }

    /** Whether the storage engine refuses the transaction that starts now. */
    method Begin() returns (refused: bool)
      modifies this`transactions
      ensures refused == faults(old(transactions)) && transactions == old(transactions) + 1
    {
      refused := faults(transactions);
      transactions := transactions + 1;
    }

    /** `UPDATE ... WHERE id = .. AND revision = .. [AND state = ..]` on a working copy of the rows. */
    method UpdateRow(rows: map<string, Job>, id: string, state: Option<PublishState>, revision: nat, next: PublishState, at: nat)
      returns (rows': map<string, Job>, changed: nat)
      ensures
        if id in rows && rows[id].revision == revision && (state.Some? ==> rows[id].state == state.value)
        then changed == 1 && rows' == rows[id := rows[id].(state := next, revision := revision + 1, updatedAt := at)]
        else changed == 0 && rows' == rows
    {
      if id !in rows || rows[id].revision != revision || (state.Some? && rows[id].state != state.value) {
        return rows, 0;
      }
      return rows[id := rows[id].(state := next, revision := revision + 1, updatedAt := at)], 1;
    }

    /** Allocates a history id past every collision and stores the row. */
    method InsertTerminalHistory(prefix: string, record: HistoryRow)
      returns (row: string)
      modifies this`history, this`historySequence
      ensures historySequence == NextFree(old(history), prefix, old(historySequence))
      ensures row == Numbered(prefix, historySequence) && row !in old(history)
      ensures history == old(history)[row := record]
    {
      while true
        invariant history == old(history)
        invariant NextFree(history, prefix, historySequence) == NextFree(history, prefix, old(historySequence))
        decreases Ahead(history, prefix, historySequence)
      {
        historySequence := historySequence + 1;
        row := Numbered(prefix, historySequence);
        if row !in history {
          history := history[row := record];
          return;
        }
        AheadShrinks(history, prefix, historySequence - 1);
      }
    }

    /** Records a direct dispatch under the outcome its report is classified as. */
    method RecordProviderDispatch(request: Request, report: Registry.Report, at: nat) returns (r: Result<string, DomainError>)
      requires Valid()
      modifies this`history, this`historySequence, this`transactions
      ensures Valid() && transactions == old(transactions) + 1
      ensures if faults(old(transactions)) then r == Err(Database) && Tables() == old(Tables())
              else
                && historySequence == NextFree(old(history), "dispatch-history", old(historySequence))
                && r == Ok(Numbered("dispatch-history", historySequence)) && r.value !in old(history)
                && r.value in history && history == old(history)[r.value := history[r.value]]
                && RecordsDispatch(history[r.value], request, report, at)
    {
      hide RecordsDispatch;
      hide NextFree;
      hide DispatchDetail;
      var refused := Begin();
      if refused { return Err(Database); }
      var state := Registry.StoredOutcome(report);
      DispatchRecorded(request, report, at);
      var row := InsertTerminalHistory("dispatch-history", HistoryRow(RunnerSafe(request), state, at, DispatchDetail(state)));
      return Ok(row);
    }

    /** `allocate_job_id`: the first half of an enqueue. */
    method AllocateJobId() returns (r: Result<string, DomainError>)
      modifies this`sequence, this`transactions
      ensures transactions == old(transactions) + 1
      ensures if faults(old(transactions)) then r == Err(Database) && sequence == old(sequence)
              else
                && sequence == old(sequence) + 1
                && r == Ok(Numbered(if kind == Video then "job" else "article-job", sequence))
    {
      var refused := Begin();
      if refused { return Err(Database); }
      sequence := sequence + 1;
      return Ok(Numbered(JobPrefix(kind), sequence));
    }

    /** `insert_job`: the second half. */
    method InsertRow(job: Job) returns (r: Result<(), DomainError>)
      requires Valid()
      modifies this`jobs, this`transactions
      ensures Valid() && transactions == old(transactions) + 1
      ensures if faults(old(transactions)) || InsertJob(old(Tables()), job).Err?
              then r == Err(Database) && Tables() == old(Tables())
              else r == Ok(()) && Tables() == InsertJob(old(Tables()), job).value
    {
      var refused := Begin();
      if refused || job.id in jobs { return Err(Database); }
      jobs := jobs[job.id := job];
      return Ok(());
    }

    /** Enqueue runs its two transactions in turn; a failed insert leaves only the used-up number. */
    method Enqueue(request: Request, at: nat) returns (r: Result<Job, DomainError>)
      requires Valid()
      modifies this
      ensures Valid()
      ensures r == Err(InvalidRequest) <==>
        || !request.sane
        || (kind == Article && request.scheduledAt.None?)
        || (kind == Video && (request.targets == []
             || exists i, j :: 0 <= i < j < |request.targets| && request.targets[i] == request.targets[j]))
      ensures r == Err(InvalidRequest) ==> Tables() == old(Tables())
      ensures r.Err? ==> jobs == old(jobs) && old(sequence) <= sequence <= old(sequence) + 1
      ensures r.Ok? ==>
        && sequence == old(sequence) + 1 && r.value == NewJob(kind, sequence, request, at)
        && r.value == Job(Numbered(if kind == Video then "job" else "article-job", sequence), request.(routed := false),
                          if kind == Video && request.draft then Draft else Queued, request.scheduledAt, 0, at)
        && r.value.id !in old(jobs) && jobs == old(jobs)[r.value.id := r.value]
      ensures history == old(history) && historySequence == old(historySequence)
    {
      var valid := request.sane && request.scheduledAt.Some?;
      if kind == Video { valid := Registry.Validate(request); }
      if !valid {
        return Err(InvalidRequest);
      }
      var id := AllocateJobId();
      if id.Err? { return Err(id.error); }
      var job := Job(id.value, RunnerSafe(request), if kind == Video && request.draft then Draft else Queued,
                     request.scheduledAt, 0, at);
      var stored := InsertRow(job);
      return if stored.Err? then Err(stored.error) else Ok(job);
    }

    method TransitionJob(id: string, expected: nat, next: PublishState, at: nat) returns (r: Result<Job, DomainError>)
      requires Valid()
      modifies this`jobs, this`transactions
      ensures Valid() && transactions == old(transactions) + 1
      ensures if faults(old(transactions)) then r == Err(Database) && Tables() == old(Tables())
              else match Transition(old(Tables()), id, expected, next, at)
                   case Err(e) => r == Err(e) && Tables() == old(Tables())
                   case Ok(db) => Tables() == db && r == Ok(jobs[id])
      ensures faults(old(transactions)) ||
        if id !in old(jobs) then r == Err(UnknownJob(id))
        else
          var was := old(jobs)[id];
          if !CanTransition(was.state, next) then r == Err(InvalidStateTransition(was.state, next))
          else if was.revision != expected then r == Err(StaleJobRevision(id, expected, was.revision))
          else r == Ok(was.(state := next, revision := expected + 1, updatedAt := at)) && jobs == old(jobs)[id := r.value]
    {
      var refused := Begin();
      if refused { return Err(Database); }
      if id !in jobs { return Err(UnknownJob(id)); }
      var current := jobs[id];
      if !CanTransition(current.state, next) { return Err(InvalidStateTransition(current.state, next)); }
      if current.revision != expected { return Err(StaleJobRevision(id, expected, current.revision)); }
      var working, changed := UpdateRow(jobs, id, None, expected, next, at);
      if changed != 1 { return Err(ConcurrentJobUpdate(id)); }
      jobs := working;
      return Ok(current.(state := next, revision := expected + 1, updatedAt := at));
    }

    /** Videos retry past identifiers that are taken; an article's next identifier has to be free. */
    method InsertCompletion(record: HistoryRow) returns (row: Option<string>)
      modifies this`history, this`historySequence
      ensures row.None? <==> Collides(old(Tables()))
      ensures row.None? ==> history == old(history) && historySequence == old(historySequence)
      ensures row.None? ==> kind == Article && Numbered("article-scheduled-history", historySequence + 1) in history
      ensures row.Some? ==>
        && historySequence == RowNumber(old(Tables())) && row.value == RowId(old(Tables()))
        && historySequence > old(historySequence)
        && row.value == Numbered(if kind == Video then "scheduled-history" else "article-scheduled-history", historySequence)
        && row.value !in old(history) && history == old(history)[row.value := record]
    {
      if kind == Video {
        var id := InsertTerminalHistory(HistoryPrefix(Video), record);
        return Some(id);
      }
      var id := Numbered(HistoryPrefix(Article), historySequence + 1);
      if id in history { return None; }
      historySequence := historySequence + 1;
      history := history[id := record];
      return Some(id);
    }

    /** Terminal transition plus history row; an aborted transaction also returns the sequence number. */
    method CompleteJobWithHistory(id: string, expected: nat, next: PublishState, at: nat, detail: string)
      returns (r: Result<(Job, string), DomainError>)
      requires Valid()
      modifies this
      ensures Valid() && transactions == old(transactions) + 1
      ensures if faults(old(transactions)) then r == Err(Database) && Tables() == old(Tables())
              else match Complete(old(Tables()), id, expected, next, at, detail)
                   case Err(e) => r == Err(e) && Tables() == old(Tables())
                   case Ok((db, row)) => Tables() == db && r == Ok((jobs[id], row))
      ensures r.Ok? ==>
        && id in old(jobs) && CanTransition(old(jobs)[id].state, next) && old(jobs)[id].revision == expected
        && (kind == Article ==> old(jobs)[id].state == Dispatching)
        && r.value.0 == old(jobs)[id].(state := next, revision := expected + 1, updatedAt := at)
        && jobs == old(jobs)[id := r.value.0] && r.value.1 !in old(history)
        && history == old(history)[r.value.1 := HistoryRow(old(jobs)[id].request.(routed := false), next, at, detail)]
      ensures r.Err? ==> Tables() == old(Tables())
      ensures r.Err? && !faults(old(transactions)) ==>
        if id !in old(jobs) then r == Err(UnknownJob(id))
        else
          var was := old(jobs)[id];
          if !CanTransition(was.state, next) then r == Err(InvalidStateTransition(was.state, next))
          else if was.revision != expected then r == Err(StaleJobRevision(id, expected, was.revision))
          else
            && kind == Article
            && r == Err(if was.state != Dispatching then ConcurrentJobUpdate(id) else Database)
            && (was.state == Dispatching ==> Numbered("article-scheduled-history", historySequence + 1) in history)
    {
      hide RowNumber;
      hide RowId;
      hide Collides;
      var refused := Begin();
      if refused { return Err(Database); }
      if id !in jobs { return Err(UnknownJob(id)); }
      var current := jobs[id];
      if !CanTransition(current.state, next) { return Err(InvalidStateTransition(current.state, next)); }
      if current.revision != expected { return Err(StaleJobRevision(id, expected, current.revision)); }
      var claimed := if kind == Article then Some(Dispatching) else None;
      var working, changed := UpdateRow(jobs, id, claimed, expected, next, at);
      if changed != 1 { return Err(ConcurrentJobUpdate(id)); }
      var record := HistoryRow(RunnerSafe(current.request), next, at, detail);
      var row := InsertCompletion(record);
      if row.None? { return Err(Database); }
      jobs := working;
      return Ok((current.(state := next, revision := expected + 1, updatedAt := at), row.value));
    }

    method RequeueClaim(id: string, expected: nat, at: nat) returns (r: Result<Job, DomainError>)
      requires Valid()
      modifies this`jobs, this`transactions
      ensures Valid() && transactions == old(transactions) + 1
      ensures if faults(old(transactions)) then r == Err(Database) && Tables() == old(Tables())
              else match Requeue(old(Tables()), id, expected, at)
                   case Err(e) => r == Err(e) && Tables() == old(Tables())
                   case Ok(db) => Tables() == db && r == Ok(jobs[id])
      ensures faults(old(transactions)) ||
        if id !in old(jobs) then r == Err(UnknownJob(id))
        else
          var was := old(jobs)[id];
          if was.state != Dispatching then r == Err(InvalidStateTransition(was.state, Queued))
          else if was.revision != expected then r == Err(StaleJobRevision(id, expected, was.revision))
          else r == Ok(was.(state := Queued, revision := expected + 1, updatedAt := at)) && jobs == old(jobs)[id := r.value]
    {
      var refused := Begin();
      if refused { return Err(Database); }
      if id !in jobs { return Err(UnknownJob(id)); }
      var current := jobs[id];
      if current.state != Dispatching { return Err(InvalidStateTransition(current.state, Queued)); }
      if current.revision != expected { return Err(StaleJobRevision(id, expected, current.revision)); }
      var working, changed := UpdateRow(jobs, id, Some(Dispatching), expected, Queued, at);
      if changed != 1 { return Err(ConcurrentJobUpdate(id)); }
      jobs := working;
      return Ok(current.(state := Queued, revision := expected + 1, updatedAt := at));
    }

    /** The claim's candidate query: due rows in (due, id) order, at most `count`. */
    method Candidates(through: string, count: nat) returns (ids: seq<string>)
      requires Valid()
      ensures ids == FirstOf(jobs, Eligible(jobs, through), count)
    {
      hide FirstOf;
      hide Before;
      ids := [];
      var rest := set id | id in jobs && Due(jobs[id], through);
      ghost var all := FirstOf(jobs, rest, count);
      assert rest == Eligible(jobs, through);
      while |ids| < count && rest != {}
        invariant |ids| <= count && rest <= Eligible(jobs, through)
        invariant ids + FirstOf(jobs, rest, count - |ids|) == all
        decreases rest
      {
        FirstExists(jobs, rest);
        var id :| id in rest && forall x :: x in rest ==> Before(jobs[id], jobs[x]);
        assert IsFirst(jobs, rest, id);
        FirstIsUnique(jobs, rest, id, count - |ids|);
        ids := ids + [id];
        rest := rest - {id};
      }
      FrontEnds(jobs, rest, count - |ids|);
    }

    /** Moves the candidate rows to Dispatching one guarded update at a time. */
    method ClaimRows(candidates: seq<string>, at: nat)
      returns (working: map<string, Job>, claimed: Result<seq<Job>, DomainError>)
      requires Valid()
      requires forall i :: 0 <= i < |candidates| ==> candidates[i] in jobs && jobs[candidates[i]].state == Queued
      requires forall i, j :: 0 <= i < j < |candidates| ==> candidates[i] != candidates[j]
      ensures working == Mark(Tables(), candidates, at).jobs
      ensures claimed.Ok? && |claimed.value| == |candidates|
      ensures forall i :: 0 <= i < |candidates| ==> candidates[i] in working && claimed.value[i] == working[candidates[i]]
    {
      working := jobs;
      var rows := [];
      for k := 0 to |candidates|
        invariant working.Keys == jobs.Keys && |rows| == k
        invariant forall id :: id in jobs ==>
          working[id] == if id in candidates[..k] then Moved(jobs[id], Dispatching, at) else jobs[id]
        invariant forall i :: 0 <= i < k ==> rows[i] == working[candidates[i]]
      {
        var current := jobs[candidates[k]];
        assert candidates[k] !in candidates[..k];
        assert candidates[..k + 1] == candidates[..k] + [candidates[k]];
        var changed;
        working, changed := UpdateRow(working, current.id, Some(Queued), current.revision, Dispatching, at);
        if changed != 1 {
          assert false;
          return working, Err(ConcurrentJobUpdate(current.id));
        }
        rows := rows + [current.(state := Dispatching, revision := current.revision + 1, updatedAt := at)];
      }
      assert candidates[..|candidates|] == candidates;
      MarkRows(Tables(), candidates, at);
      return working, Ok(rows);
    }

    /** A claim is one exclusive transaction, so its revision guard never fails. */
    method ClaimDue(through: string, at: nat, limit: nat) returns (r: Result<seq<Job>, DomainError>)
      requires Valid()
      modifies this`jobs, this`transactions
      ensures Valid()
      ensures transactions == old(transactions) + if limit > 0 then 1 else 0
      ensures if limit > 0 && faults(old(transactions)) then r == Err(Database) && Tables() == old(Tables())
              else var taken := Selection(old(Tables()), through, limit);
                && Tables() == Claim(old(Tables()), through, at, limit)
                && r.Ok? && |r.value| == |taken|
                && forall i :: 0 <= i < |taken| ==> taken[i] in jobs && r.value[i] == jobs[taken[i]]
    {
      ClaimTakesFront(Tables(), through, at, limit);
      var cap := if limit < MAX_CLAIM_BATCH then limit else MAX_CLAIM_BATCH;
      if cap == 0 { return Ok([]); }
      var refused := Begin();
      if refused { return Err(Database); }
      var candidates := Candidates(through, cap);
      var working;
      working, r := ClaimRows(candidates, at);
      if r.Ok? {
        jobs := working;
      }
    }
  }

  lemma FrontEnds(jobs: map<string, Job>, ids: set<string>, count: nat)
    requires forall x :: x in ids ==> x in jobs && jobs[x].due.Some?
    requires count == 0 || ids == {}
    ensures FirstOf(jobs, ids, count) == []
  {
  }

  /** Two minimal elements of a keyed table are the same row. */
  lemma FirstIsUnique(jobs: map<string, Job>, ids: set<string>, id: string, count: nat)
    requires Keyed(jobs) && forall x :: x in ids ==> x in jobs && jobs[x].due.Some?
    requires IsFirst(jobs, ids, id) && count > 0
    ensures FirstOf(jobs, ids, count) == [id] + FirstOf(jobs, ids - {id}, count - 1)
  {
    var other := FirstOf(jobs, ids, count)[0];
    assert IsFirst(jobs, ids, other) by { FirstExists(jobs, ids); }
    BeforeIsOrder(jobs[id], jobs[other], jobs[id]);
    assert other == id;
  }
}
