/**
 Any number of schedulers and clients interleaving transactions on one queue.
 An action is one atomic transaction, with whatever arguments its caller chose;
 one the database refuses has no effect. The log records what took effect.
 */
module QueueRuns {
  import opened Wrappers
  import opened Text
  import opened Jobs

  /** `ticket` is the job revision a claim issues, and the one a settlement consumes. */
  datatype Event =
    | Enqueued(id: string)
    | Claimed(id: string, ticket: nat)
    | Completed(id: string, ticket: nat, state: PublishState, row: string)
    | Requeued(id: string, ticket: nat)
    | Advanced(id: string, ticket: nat)

  datatype Action =
    | AllocateId
    | InsertAllocated(n: nat, request: Request, at: nat)
    | ClaimBatch(through: string, at: nat, limit: nat)
    | CompleteJob(id: string, expected: nat, next: PublishState, at: nat, detail: string)
    | RequeueJob(id: string, expected: nat, at: nat)
    | AdvanceJob(id: string, expected: nat, next: PublishState, at: nat)
    | ImportHistory(id: string, row: HistoryRow)
    | RecordDispatch(row: HistoryRow)

  /** `pending` are the numbers allocated by an enqueue whose insert has not run. */
  datatype World = World(db: Db, pending: set<nat>, log: seq<Event>)

  function Initial(kind: Kind, history: map<string, HistoryRow>): World {
    World(Db(kind, map[], 0, history, 0), {}, [])
  }

  function Logged(w: World, db: Db, e: Event): World {
    w.(db := db, log := w.log + [e])
  }

  function ClaimRow(w: World, id: string, at: nat): World {
    if id in w.db.jobs then
      var job := w.db.jobs[id];
      Logged(w, w.db.(jobs := w.db.jobs[id := Moved(job, Dispatching, at)]), Claimed(id, job.revision + 1))
    else w
  }

  /** Rows are claimed one at a time inside the transaction. */
  function ClaimRows(w: World, ids: seq<string>, at: nat): World {
    if ids == [] then w else ClaimRow(ClaimRows(w, ids[..|ids| - 1], at), ids[|ids| - 1], at)
  }

  ghost function Step(w: World, a: Action): World {
    match a
    case AllocateId => w.(db := w.db.(sequence := w.db.sequence + 1), pending := w.pending + {w.db.sequence + 1})
    case InsertAllocated(n, request, at) =>
      if n !in w.pending || !Enqueueable(w.db.kind, request) then w
      else
        var job := NewJob(w.db.kind, n, request, at);
        (match InsertJob(w.db, job)
         case Err(_) => w.(pending := w.pending - {n})
         case Ok(db) => Logged(w, db, Enqueued(job.id)).(pending := w.pending - {n}))
    case ClaimBatch(through, at, limit) => ClaimRows(w, Selection(w.db, through, limit), at)
    case CompleteJob(id, expected, next, at, detail) =>
      if !Terminal(next) then w
      else
        (match Complete(w.db, id, expected, next, at, detail)
         case Err(_) => w
         case Ok((db, row)) => Logged(w, db, Completed(id, expected, next, row)))
    case RequeueJob(id, expected, at) =>
      (match Requeue(w.db, id, expected, at)
       case Err(_) => w
       case Ok(db) => Logged(w, db, Requeued(id, expected)))
    case AdvanceJob(id, expected, next, at) =>
      (match Transition(w.db, id, expected, next, at)
       case Err(_) => w
       case Ok(db) => Logged(w, db, Advanced(id, expected)))
    case ImportHistory(id, row) =>
      if id in w.db.history then w else w.(db := w.db.(history := w.db.history[id := row]))
    case RecordDispatch(row) =>
      var n := NextFree(w.db.history, "dispatch-history", w.db.historySequence);
      w.(db := w.db.(history := w.db.history[Numbered("dispatch-history", n) := row], historySequence := n))
  }

  ghost function Exec(w: World, run: seq<Action>): World
    decreases |run|
  {
    if run == [] then w else Step(Exec(w, run[..|run| - 1]), run[|run| - 1])
  }

  // ------------------------------------------------------------------ fencing

  /** The revision an event finds and the one it leaves. */
  function From(e: Event): int {
    match e
    case Enqueued(_) => -1
    case Claimed(_, ticket) => ticket - 1
    case _ => e.ticket
  }

  /** Every effective write finds the revision the previous write on that job left. */
  ghost predicate Fenced(w: World) {
    && Keyed(w.db.jobs)
    && (forall i :: 0 <= i < |w.log| ==>
          w.log[i].id in w.db.jobs && From(w.log[i]) < w.db.jobs[w.log[i].id].revision)
    && (forall i, j :: 0 <= i < j < |w.log| && w.log[i].id == w.log[j].id ==> From(w.log[i]) < From(w.log[j]))
  }

  /** Generated ids in use or allocated never exceed the sequence, so an insert never collides. */
  ghost predicate IdsFresh(w: World) {
    && (forall id :: id in w.db.jobs ==>
          exists n: nat :: n <= w.db.sequence && n !in w.pending && id == Numbered(JobPrefix(w.db.kind), n))
    && (forall n :: n in w.pending ==> n <= w.db.sequence)
  }

  /** One more write on `id`, finding its current revision, keeps the writes fenced. */
  lemma WriteKeepsFenced(w: World, db: Db, e: Event)
    requires Fenced(w) && Keyed(db.jobs)
    requires e.id in db.jobs && From(e) + 1 == db.jobs[e.id].revision
    requires e.id in w.db.jobs ==> From(e) == w.db.jobs[e.id].revision
    requires forall id :: id in w.db.jobs ==> id in db.jobs && (id != e.id ==> db.jobs[id] == w.db.jobs[id])
    ensures Fenced(Logged(w, db, e))
  {
    var w' := Logged(w, db, e);
    forall i | 0 <= i < |w'.log|
      ensures w'.log[i].id in db.jobs && From(w'.log[i]) < db.jobs[w'.log[i].id].revision
    {
      assert i < |w.log| ==> w'.log[i] == w.log[i];
    }
  }

  lemma ClaimRowFenced(w: World, id: string, at: nat)
    requires Fenced(w) && IdsFresh(w) && id in w.db.jobs
    ensures Fenced(ClaimRow(w, id, at)) && IdsFresh(ClaimRow(w, id, at))
    ensures ClaimRow(w, id, at).db.jobs.Keys == w.db.jobs.Keys && ClaimRow(w, id, at).db.kind == w.db.kind
  {
    var job := w.db.jobs[id];
    var db := w.db.(jobs := w.db.jobs[id := Moved(job, Dispatching, at)]);
    WriteKeepsFenced(w, db, Claimed(id, job.revision + 1));
  }

  lemma {:induction false} ClaimRowsFenced(w: World, ids: seq<string>, at: nat)
    requires Fenced(w) && IdsFresh(w)
    requires forall i :: 0 <= i < |ids| ==> ids[i] in w.db.jobs
    ensures Fenced(ClaimRows(w, ids, at)) && IdsFresh(ClaimRows(w, ids, at))
    ensures ClaimRows(w, ids, at).db.jobs.Keys == w.db.jobs.Keys && ClaimRows(w, ids, at).db.kind == w.db.kind
  {
    hide Fenced;
    hide IdsFresh;
    hide ClaimRow;
    if ids != [] {
      var front, id := ids[..|ids| - 1], ids[|ids| - 1];
      ClaimRowsFenced(w, front, at);
      assert id in ClaimRows(w, front, at).db.jobs.Keys;
      ClaimRowFenced(ClaimRows(w, front, at), id, at);
    }
  }

  lemma InsertKeepsFenced(w: World, n: nat, request: Request, at: nat)
    requires Fenced(w) && IdsFresh(w)
    requires n in w.pending && Enqueueable(w.db.kind, request)
    ensures InsertJob(w.db, NewJob(w.db.kind, n, request, at)).Ok?
    ensures Fenced(Step(w, InsertAllocated(n, request, at))) && IdsFresh(Step(w, InsertAllocated(n, request, at)))
  {
    var prefix := JobPrefix(w.db.kind);
    var job := NewJob(w.db.kind, n, request, at);
    if job.id in w.db.jobs {
      var m: nat :| m <= w.db.sequence && m !in w.pending && job.id == Numbered(prefix, m);
      NumberedInjective(prefix, m, n);
    }
    var db := InsertJob(w.db, job).value;
    WriteKeepsFenced(w, db, Enqueued(job.id));
    var w' := Step(w, InsertAllocated(n, request, at));
    forall id | id in w'.db.jobs
      ensures exists m: nat :: m <= w'.db.sequence && m !in w'.pending && id == Numbered(prefix, m)
    {
      if id in w.db.jobs {
        var m: nat :| m <= w.db.sequence && m !in w.pending && id == Numbered(prefix, m);
        assert m !in w'.pending;
      } else {
        assert n !in w'.pending && id == Numbered(prefix, n);
      }
    }
  }

  lemma AllocateKeepsFresh(w: World)
    requires IdsFresh(w)
    ensures IdsFresh(Step(w, AllocateId))
  {
    var w' := Step(w, AllocateId);
    forall id | id in w'.db.jobs
      ensures exists n: nat :: n <= w'.db.sequence && n !in w'.pending && id == Numbered(JobPrefix(w.db.kind), n)
    {
      var n: nat :| n <= w.db.sequence && n !in w.pending && id == Numbered(JobPrefix(w.db.kind), n);
      assert n <= w'.db.sequence && n !in w'.pending;
    }
  }

  lemma CompleteKeepsFenced(w: World, id: string, expected: nat, next: PublishState, at: nat, detail: string)
    requires Fenced(w) && IdsFresh(w) && Terminal(next)
    requires Complete(w.db, id, expected, next, at, detail).Ok?
    ensures var (db, row) := Complete(w.db, id, expected, next, at, detail).value;
      var w' := Logged(w, db, Completed(id, expected, next, row));
      Fenced(w') && IdsFresh(w') && w'.db.kind == w.db.kind
  {
    var (db, row) := Complete(w.db, id, expected, next, at, detail).value;
    assert db.jobs == w.db.jobs[id := Moved(w.db.jobs[id], next, at)] && w.db.jobs[id].revision == expected;
    assert db.kind == w.db.kind && db.sequence == w.db.sequence;
    hide Complete;
    WriteKeepsFenced(w, db, Completed(id, expected, next, row));
    SameKeysFresh(w, Logged(w, db, Completed(id, expected, next, row)));
  }

  lemma SameKeysFresh(w: World, w': World)
    requires IdsFresh(w) && w'.pending == w.pending
    requires w'.db.jobs.Keys == w.db.jobs.Keys && w'.db.kind == w.db.kind && w'.db.sequence == w.db.sequence
    ensures IdsFresh(w')
  {
    forall id | id in w'.db.jobs
      ensures exists n: nat :: n <= w'.db.sequence && n !in w'.pending && id == Numbered(JobPrefix(w'.db.kind), n)
    {
      assert id in w.db.jobs;
    }
  }

  /** A job moved on from the revision its caller named. */
  lemma MoveKeepsFenced(w: World, db: Db, e: Event, next: PublishState, at: nat)
    requires Fenced(w) && IdsFresh(w) && (e.Requeued? || e.Advanced?)
    requires e.id in w.db.jobs && w.db.jobs[e.id].revision == e.ticket && db == Put(w.db, Moved(w.db.jobs[e.id], next, at))
    ensures var w' := Logged(w, db, e);
      Fenced(w') && IdsFresh(w') && w'.db.kind == w.db.kind
  {
    WriteKeepsFenced(w, db, e);
    SameKeysFresh(w, Logged(w, db, e));
  }

  lemma StepKeepsFenced(w: World, a: Action)
    requires Fenced(w) && IdsFresh(w)
    ensures Fenced(Step(w, a)) && IdsFresh(Step(w, a)) && Step(w, a).db.kind == w.db.kind
  {
    hide Complete;
    hide Selection;
    hide IdsFresh;
    match a
    case AllocateId => AllocateKeepsFresh(w);
    case InsertAllocated(n, request, at) =>
      if n in w.pending && Enqueueable(w.db.kind, request) { InsertKeepsFenced(w, n, request, at); }
    case ClaimBatch(through, at, limit) =>
      ClaimTakesFront(w.db, through, at, limit);
      ClaimRowsFenced(w, Selection(w.db, through, limit), at);
    case CompleteJob(id, expected, next, at, detail) =>
      var r := Complete(w.db, id, expected, next, at, detail);
      if Terminal(next) && r.Ok? { CompleteKeepsFenced(w, id, expected, next, at, detail); }
    case RequeueJob(id, expected, at) =>
      var r := Requeue(w.db, id, expected, at);
      if r.Ok? { MoveKeepsFenced(w, r.value, Requeued(id, expected), Queued, at); }
    case AdvanceJob(id, expected, next, at) =>
      var r := Transition(w.db, id, expected, next, at);
      if r.Ok? { MoveKeepsFenced(w, r.value, Advanced(id, expected), next, at); }
    case ImportHistory(_, _) => SameKeysFresh(w, Step(w, a));
    case RecordDispatch(_) => SameKeysFresh(w, Step(w, a));
  }

  lemma {:induction false} RunsAreFenced(kind: Kind, history: map<string, HistoryRow>, run: seq<Action>)
    ensures var w := Exec(Initial(kind, history), run);
      Fenced(w) && IdsFresh(w) && w.db.kind == kind
    decreases |run|
  {
    if run != [] {
      RunsAreFenced(kind, history, run[..|run| - 1]);
      StepKeepsFenced(Exec(Initial(kind, history), run[..|run| - 1]), run[|run| - 1]);
    }
  }

  predicate Settles(e: Event) { e.Completed? || e.Requeued? }

  /**
   Fencing, for every interleaving of arbitrary callers: no ticket is issued twice,
   none is settled twice, and a claimant whose ticket was settled by anyone cannot
   change the job again, even after it was claimed anew.
   */
  lemma TicketsAreFenced(kind: Kind, history: map<string, HistoryRow>, run: seq<Action>, i: nat, j: nat)
    requires i < j < |Exec(Initial(kind, history), run).log|
    ensures var log := Exec(Initial(kind, history), run).log;
      log[i].id == log[j].id ==>
        && From(log[i]) != From(log[j])
        && !(log[i].Claimed? && log[j].Claimed? && log[i].ticket == log[j].ticket)
        && !(Settles(log[i]) && Settles(log[j]) && log[i].ticket == log[j].ticket)
        && !(Settles(log[i]) && log[j].Claimed? && log[j].ticket <= log[i].ticket)
  {
    RunsAreFenced(kind, history, run);
  }

  /** Between its allocation and its insert an enqueue can be overtaken, but never collides. */
  lemma EnqueueNeverCollides(kind: Kind, history: map<string, HistoryRow>, run: seq<Action>, n: nat, request: Request, at: nat)
    requires n in Exec(Initial(kind, history), run).pending && Enqueueable(kind, request)
    ensures var w := Exec(Initial(kind, history), run);
      InsertJob(w.db, NewJob(kind, n, request, at)).Ok?
  {
    RunsAreFenced(kind, history, run);
    InsertKeepsFenced(Exec(Initial(kind, history), run), n, request, at);
  }

  // ---------------------------------------------------------------- lifecycle

  function Claims(log: seq<Event>, id: string): nat {
    if log == [] then 0
    else Claims(log[..|log| - 1], id)
         + (if log[|log| - 1].Claimed? && log[|log| - 1].id == id then 1 else 0)
  }

  function Requeues(log: seq<Event>, id: string): nat {
    if log == [] then 0
    else Requeues(log[..|log| - 1], id)
         + (if log[|log| - 1].Requeued? && log[|log| - 1].id == id then 1 else 0)
  }

  /** History rows written for a job, each in the step that made it terminal. */
  function Completions(log: seq<Event>, id: string): nat {
    if log == [] then 0
    else Completions(log[..|log| - 1], id)
         + (if log[|log| - 1].Completed? && log[|log| - 1].id == id then 1 else 0)
  }

  /** The life of one job, read off its revision and the log. */
  ghost predicate JobLaw(w: World, id: string)
    requires id in w.db.jobs
  {
    var job := w.db.jobs[id];
    var claims, requeues := Claims(w.log, id), Requeues(w.log, id);
    && Completions(w.log, id) == (if Terminal(job.state) then 1 else 0)
    && (job.state.Draft? ==> claims == requeues == job.revision == 0)
    && (job.state.Queued? ==> claims == requeues && job.revision == 2 * requeues)
    && (job.state.Dispatching? ==> claims == requeues + 1 && job.revision == 2 * requeues + 1)
    && (Terminal(job.state) ==> requeues <= claims <= requeues + 1 && job.revision == claims + requeues + 1)
    && (job.state.Dispatching? <==> Claimed(id, job.revision) in w.log)
    && (w.db.kind == Video && job.request.draft ==> job.state.Draft? || job.state.Unavailable?)
    && (!(w.db.kind == Video && job.request.draft) ==> !job.state.Draft?)
  }

  ghost predicate Lifecycle(w: World) {
    && (forall id :: id in w.db.jobs ==> JobLaw(w, id))
    && (forall id :: id !in w.db.jobs ==> Claims(w.log, id) == Requeues(w.log, id) == Completions(w.log, id) == 0)
  }

  /** Each completion's history row is there, states its outcome, and is no other completion's. */
  ghost predicate RowsKept(w: World) {
    && (forall i :: 0 <= i < |w.log| && w.log[i].Completed? ==>
          && w.log[i].id in w.db.jobs && w.db.jobs[w.log[i].id].state == w.log[i].state
          && Terminal(w.log[i].state)
          && w.log[i].row in w.db.history && w.db.history[w.log[i].row].state == w.log[i].state)
    && (forall i, j :: 0 <= i < j < |w.log| && w.log[i].Completed? && w.log[j].Completed? ==>
          w.log[i].row != w.log[j].row)
  }

  ghost predicate Good(w: World) {
    Fenced(w) && IdsFresh(w) && Lifecycle(w) && RowsKept(w)
  }

  lemma CountsAppend(log: seq<Event>, e: Event, id: string)
    ensures Claims(log + [e], id) == Claims(log, id) + (if e.Claimed? && e.id == id then 1 else 0)
    ensures Requeues(log + [e], id) == Requeues(log, id) + (if e.Requeued? && e.id == id then 1 else 0)
    ensures Completions(log + [e], id) == Completions(log, id) + (if e.Completed? && e.id == id then 1 else 0)
  {
    assert (log + [e])[..|log|] == log;
  }

  /** A claim ticket in the log is at most the job's revision. */
  lemma TicketsIssued(w: World, id: string, ticket: nat)
    requires Fenced(w) && Claimed(id, ticket) in w.log
    ensures id in w.db.jobs && ticket <= w.db.jobs[id].revision
  {
    var i :| 0 <= i < |w.log| && w.log[i] == Claimed(id, ticket);
    assert From(w.log[i]) < w.db.jobs[id].revision;
  }

  /** A write that obeys the job's own law obeys everybody's. */
  lemma WriteKeepsLifecycle(w: World, db: Db, e: Event)
    requires Fenced(w) && Lifecycle(w) && db.kind == w.db.kind
    requires forall id :: id in db.jobs <==> id in w.db.jobs || id == e.id
    requires forall id :: id in w.db.jobs && id != e.id ==> db.jobs[id] == w.db.jobs[id]
    requires JobLaw(Logged(w, db, e), e.id)
    ensures Lifecycle(Logged(w, db, e))
  {
    var w' := Logged(w, db, e);
    forall id | id in db.jobs && id != e.id ensures JobLaw(w', id) {
      assert JobLaw(w, id);
      CountsAppend(w.log, e, id);
      assert Claimed(id, db.jobs[id].revision) in w'.log <==> Claimed(id, db.jobs[id].revision) in w.log;
    }
    forall id | id !in db.jobs
      ensures Claims(w'.log, id) == Requeues(w'.log, id) == Completions(w'.log, id) == 0
    {
      CountsAppend(w.log, e, id);
    }
  }

  lemma ClaimedLaw(w: World, id: string, at: nat)
    requires id in w.db.jobs && JobLaw(w, id) && w.db.jobs[id].state.Queued?
    ensures JobLaw(ClaimRow(w, id, at), id)
  {
    var e := Claimed(id, w.db.jobs[id].revision + 1);
    CountsAppend(w.log, e, id);
    assert ClaimRow(w, id, at).log[|w.log|] == e;
  }

  lemma ClaimRowGood(w: World, id: string, at: nat)
    requires Good(w) && id in w.db.jobs && w.db.jobs[id].state.Queued?
    ensures Good(ClaimRow(w, id, at))
  {
    hide JobLaw;
    hide Fenced;
    hide IdsFresh;
    var job := w.db.jobs[id];
    var db := w.db.(jobs := w.db.jobs[id := Moved(job, Dispatching, at)]);
    var e := Claimed(id, job.revision + 1);
    ClaimRowFenced(w, id, at);
    ClaimedLaw(w, id, at);
    WriteKeepsLifecycle(w, db, e);
    RowsUntouched(w, db, e);
  }

  /** A write that is no completion leaves history and finished jobs alone. */
  lemma RowsUntouched(w: World, db: Db, e: Event)
    requires RowsKept(w) && !e.Completed? && db.history == w.db.history
    requires forall id :: id in w.db.jobs ==> id in db.jobs
    requires forall id :: id in w.db.jobs && Terminal(w.db.jobs[id].state) ==> db.jobs[id] == w.db.jobs[id]
    ensures RowsKept(Logged(w, db, e))
  {
    var w' := Logged(w, db, e);
    assert forall i :: 0 <= i < |w.log| ==> w'.log[i] == w.log[i];
  }

  lemma {:induction false} ClaimRowsGood(w: World, ids: seq<string>, at: nat)
    requires Good(w)
    requires forall i :: 0 <= i < |ids| ==> ids[i] in w.db.jobs && w.db.jobs[ids[i]].state.Queued?
    requires forall i, j :: 0 <= i < j < |ids| ==> ids[i] != ids[j]
    ensures Good(ClaimRows(w, ids, at))
    ensures ClaimRows(w, ids, at).db.jobs.Keys == w.db.jobs.Keys
    ensures forall id :: id in w.db.jobs && id !in ids ==> ClaimRows(w, ids, at).db.jobs[id] == w.db.jobs[id]
  {
    hide Good;
    if ids != [] {
      var front, id := ids[..|ids| - 1], ids[|ids| - 1];
      ClaimRowsGood(w, front, at);
      assert id !in front;
      ClaimRowGood(ClaimRows(w, front, at), id, at);
    }
  }

  lemma CompletedLaw(w: World, id: string, next: PublishState, at: nat, history: map<string, HistoryRow>, n: nat, row: string)
    requires Fenced(w) && id in w.db.jobs && JobLaw(w, id)
    requires Terminal(next) && CanTransition(w.db.jobs[id].state, next)
    ensures var job := w.db.jobs[id];
      var db := Put(w.db, Moved(job, next, at)).(history := history, historySequence := n);
      JobLaw(Logged(w, db, Completed(id, job.revision, next, row)), id)
  {
    var e := Completed(id, w.db.jobs[id].revision, next, row);
    CountsAppend(w.log, e, id);
    NoTicketAtNext(w, id, e);
  }

  lemma CompleteGood(w: World, id: string, expected: nat, next: PublishState, at: nat, detail: string)
    requires Good(w)
    ensures Good(Step(w, CompleteJob(id, expected, next, at, detail)))
  {
    hide JobLaw;
    hide IdsFresh;
    var r := Complete(w.db, id, expected, next, at, detail);
    StepKeepsFenced(w, CompleteJob(id, expected, next, at, detail));
    if Terminal(next) && r.Ok? {
      var (db, row) := r.value;
      var e := Completed(id, expected, next, row);
      CompletedLaw(w, id, next, at, db.history, db.historySequence, row);
      WriteKeepsLifecycle(w, db, e);
      CompletionKeepsRows(w, db, e);
    }
  }

  /** The revision a settlement moves to is not a ticket anybody holds. */
  lemma NoTicketAtNext(w: World, id: string, e: Event)
    requires Fenced(w) && id in w.db.jobs && !e.Claimed?
    ensures Claimed(id, w.db.jobs[id].revision + 1) !in w.log + [e]
  {
    if Claimed(id, w.db.jobs[id].revision + 1) in w.log + [e] {
      assert Claimed(id, w.db.jobs[id].revision + 1) in w.log;
      TicketsIssued(w, id, w.db.jobs[id].revision + 1);
    }
  }

  lemma CompletionKeepsRows(w: World, db: Db, e: Event)
    requires RowsKept(w) && Lifecycle(w) && e.Completed? && Terminal(e.state)
    requires e.id in w.db.jobs && !Terminal(w.db.jobs[e.id].state)
    requires e.row !in w.db.history && e.row in db.history && db.history[e.row].state == e.state
    requires db.history == w.db.history[e.row := db.history[e.row]]
    requires e.id in db.jobs && db.jobs[e.id].state == e.state
    requires forall id :: id in w.db.jobs && id != e.id ==> id in db.jobs && db.jobs[id] == w.db.jobs[id]
    ensures RowsKept(Logged(w, db, e))
  {
    var w' := Logged(w, db, e);
    forall i | 0 <= i < |w'.log| && w'.log[i].Completed?
      ensures w'.log[i].id in db.jobs && db.jobs[w'.log[i].id].state == w'.log[i].state
           && Terminal(w'.log[i].state)
           && w'.log[i].row in db.history && db.history[w'.log[i].row].state == w'.log[i].state
    {
      if i < |w.log| {
        assert w'.log[i] == w.log[i];
        assert w.log[i].id != e.id;
      }
    }
    forall i, j | 0 <= i < j < |w'.log| && w'.log[i].Completed? && w'.log[j].Completed?
      ensures w'.log[i].row != w'.log[j].row
    {
      assert w'.log[i] == w.log[i];
      assert j < |w.log| ==> w'.log[j] == w.log[j];
    }
  }

  lemma RequeuedLaw(w: World, id: string, at: nat)
    requires Fenced(w) && id in w.db.jobs && JobLaw(w, id) && w.db.jobs[id].state.Dispatching?
    ensures var job := w.db.jobs[id];
      JobLaw(Logged(w, Put(w.db, Moved(job, Queued, at)), Requeued(id, job.revision)), id)
  {
    var e := Requeued(id, w.db.jobs[id].revision);
    CountsAppend(w.log, e, id);
    NoTicketAtNext(w, id, e);
  }

  lemma RequeueGood(w: World, id: string, expected: nat, at: nat)
    requires Good(w)
    ensures Good(Step(w, RequeueJob(id, expected, at)))
  {
    hide JobLaw;
    hide IdsFresh;
    var r := Requeue(w.db, id, expected, at);
    StepKeepsFenced(w, RequeueJob(id, expected, at));
    if r.Ok? {
      RequeuedLaw(w, id, at);
      WriteKeepsLifecycle(w, r.value, Requeued(id, expected));
      RowsUntouched(w, r.value, Requeued(id, expected));
    }
  }

  lemma EnqueuedLaw(w: World, n: nat, request: Request, at: nat)
    requires Fenced(w) && Lifecycle(w) && Enqueueable(w.db.kind, request)
    requires NewJob(w.db.kind, n, request, at).id !in w.db.jobs
    ensures var job := NewJob(w.db.kind, n, request, at);
      JobLaw(Logged(w, Put(w.db, job), Enqueued(job.id)), job.id)
  {
    var job := NewJob(w.db.kind, n, request, at);
    var e := Enqueued(job.id);
    CountsAppend(w.log, e, job.id);
    if Claimed(job.id, 0) in w.log {
      TicketsIssued(w, job.id, 0);
      assert false;
    }
    assert Claimed(job.id, 0) !in w.log + [e];
  }

  /** Pending allocations play no part in the job laws. */
  lemma PendingAside(w: World, pending: set<nat>)
    requires Lifecycle(w) && RowsKept(w)
    ensures Lifecycle(w.(pending := pending)) && RowsKept(w.(pending := pending))
  {
    forall id | id in w.db.jobs ensures JobLaw(w.(pending := pending), id) { assert JobLaw(w, id); }
  }

  lemma EnqueueGood(w: World, n: nat, request: Request, at: nat)
    requires Good(w)
    ensures Good(Step(w, InsertAllocated(n, request, at)))
  {
    hide JobLaw;
    StepKeepsFenced(w, InsertAllocated(n, request, at));
    if n in w.pending && Enqueueable(w.db.kind, request) {
      InsertKeepsFenced(w, n, request, at);
      hide IdsFresh;
      hide Numbered;
      var job := NewJob(w.db.kind, n, request, at);
      var db := Put(w.db, job);
      var e := Enqueued(job.id);
      EnqueuedLaw(w, n, request, at);
      WriteKeepsLifecycle(w, db, e);
      RowsUntouched(w, db, e);
      PendingAside(Logged(w, db, e), w.pending - {n});
    }
  }

  /** Sequence numbers and imported history concern no job. */
  lemma TablesAsideGood(w: World, a: Action)
    requires Good(w) && (a.AllocateId? || a.ImportHistory? || a.RecordDispatch?)
    ensures Good(Step(w, a))
  {
    StepKeepsFenced(w, a);
    var w' := Step(w, a);
    assert w'.log == w.log && w'.db.jobs == w.db.jobs && w'.db.kind == w.db.kind;
    assert forall row :: row in w.db.history ==> row in w'.db.history && w'.db.history[row] == w.db.history[row];
    hide Step;
    hide Fenced;
    hide IdsFresh;
    SameJobsGood(w, w');
  }

  lemma SameJobsGood(w: World, w': World)
    requires Lifecycle(w) && RowsKept(w) && w'.log == w.log && w'.db.jobs == w.db.jobs && w'.db.kind == w.db.kind
    requires forall row :: row in w.db.history ==> row in w'.db.history && w'.db.history[row] == w.db.history[row]
    ensures Lifecycle(w') && RowsKept(w')
  {
    forall id | id in w'.db.jobs ensures JobLaw(w', id) { assert JobLaw(w, id); }
  }

  /** Every queue operation keeps the job laws; `AdvanceJob`, which writes no history, is not one of them. */
  lemma StepKeepsGood(w: World, a: Action)
    requires Good(w) && !a.AdvanceJob?
    ensures Good(Step(w, a))
  {
    if a.InsertAllocated? {
      EnqueueGood(w, a.n, a.request, a.at);
    } else if a.ClaimBatch? {
      ClaimTakesFront(w.db, a.through, a.at, a.limit);
      ClaimRowsGood(w, Selection(w.db, a.through, a.limit), a.at);
    } else if a.CompleteJob? {
      CompleteGood(w, a.id, a.expected, a.next, a.at, a.detail);
    } else if a.RequeueJob? {
      RequeueGood(w, a.id, a.expected, a.at);
    } else {
      TablesAsideGood(w, a);
    }
  }

  lemma {:induction false} RunsAreGood(kind: Kind, history: map<string, HistoryRow>, run: seq<Action>)
    requires forall i :: 0 <= i < |run| ==> !run[i].AdvanceJob?
    ensures Good(Exec(Initial(kind, history), run))
    decreases |run|
  {
    if run != [] {
      RunsAreGood(kind, history, run[..|run| - 1]);
      StepKeepsGood(Exec(Initial(kind, history), run[..|run| - 1]), run[|run| - 1]);
    }
  }

  lemma LawConsequences(w: World, id: string)
    requires id in w.db.jobs && JobLaw(w, id)
    ensures var job := w.db.jobs[id];
      && Completions(w.log, id) <= 1
      && (Terminal(job.state) <==> Completions(w.log, id) == 1)
      && Claims(w.log, id) <= 1 + Requeues(w.log, id)
      && (!Terminal(job.state) ==>
            job.state == if w.db.kind == Video && job.request.draft then Draft
                         else if job.revision % 2 == 0 then Queued else Dispatching)
  {
    var job := w.db.jobs[id];
    hide Claims;
    hide Requeues;
    hide Completions;
    if job.state.Dispatching? {
      assert job.revision == 2 * Requeues(w.log, id) + 1;
      assert job.revision % 2 == 1;
    }
  }

  predicate Lifecycling(run: seq<Action>) {
    forall i :: 0 <= i < |run| ==> !run[i].AdvanceJob?
  }

  /**
   In every interleaving of enqueues, claims, completions and requeues: a job is
   terminal iff exactly one history row was written for it; it was claimed at most
   once more than it was requeued; and while it is not terminal its state follows
   from how it was enqueued and the parity of its revision.
   */
  lemma JobsFollowTheirLaw(kind: Kind, history: map<string, HistoryRow>, run: seq<Action>, id: string)
    requires Lifecycling(run) && id in Exec(Initial(kind, history), run).db.jobs
    ensures var w := Exec(Initial(kind, history), run);
      var job := w.db.jobs[id];
      && Completions(w.log, id) <= 1
      && (Terminal(job.state) <==> Completions(w.log, id) == 1)
      && Claims(w.log, id) <= 1 + Requeues(w.log, id)
      && (!Terminal(job.state) ==>
            job.state == if kind == Video && job.request.draft then Draft
                         else if job.revision % 2 == 0 then Queued else Dispatching)
  {
    RunsAreGood(kind, history, run);
    RunsAreFenced(kind, history, run);
    hide Exec;
    hide Fenced;
    hide IdsFresh;
    hide RowsKept;
    hide JobLaw;
    LawConsequences(Exec(Initial(kind, history), run), id);
  }

  /** Every completion's row is stored with the job's final state, and no two completions share a row. */
  lemma CompletionsKeepTheirRows(kind: Kind, history: map<string, HistoryRow>, run: seq<Action>)
    requires Lifecycling(run)
    ensures RowsKept(Exec(Initial(kind, history), run))
  {
    RunsAreGood(kind, history, run);
  }

  lemma {:induction false} ClaimRowsSpare(w: World, ids: seq<string>, at: nat, id: string)
    requires id in w.db.jobs && id !in ids
    ensures id in ClaimRows(w, ids, at).db.jobs && ClaimRows(w, ids, at).db.jobs[id] == w.db.jobs[id]
  {
    if ids != [] { ClaimRowsSpare(w, ids[..|ids| - 1], at, id); }
  }

  /** No operation, not even `AdvanceJob`, changes a terminal job. */
  lemma TerminalStep(w: World, a: Action, id: string)
    requires Fenced(w) && id in w.db.jobs && Terminal(w.db.jobs[id].state)
    ensures id in Step(w, a).db.jobs && Step(w, a).db.jobs[id] == w.db.jobs[id]
  {
    if a.ClaimBatch? {
      ClaimTakesFront(w.db, a.through, a.at, a.limit);
      ClaimRowsSpare(w, Selection(w.db, a.through, a.limit), a.at, id);
    }
  }

  /** A terminal job stays exactly as it is, whatever runs afterwards. */
  lemma {:induction false} TerminalIsFinal(kind: Kind, history: map<string, HistoryRow>, run: seq<Action>, more: seq<Action>, id: string)
    requires id in Exec(Initial(kind, history), run).db.jobs
    requires Terminal(Exec(Initial(kind, history), run).db.jobs[id].state)
    ensures id in Exec(Initial(kind, history), run + more).db.jobs
    ensures Exec(Initial(kind, history), run + more).db.jobs[id] == Exec(Initial(kind, history), run).db.jobs[id]
    decreases |more|
  {
    if more == [] {
      assert run + more == run;
    } else {
      var front, a := more[..|more| - 1], more[|more| - 1];
      TerminalIsFinal(kind, history, run, front, id);
      RunsAreFenced(kind, history, run + front);
      TerminalStep(Exec(Initial(kind, history), run + front), a, id);
      assert (run + more)[..|run + more| - 1] == run + front;
    }
  }

  /** Claims never touch what a job was enqueued with. */
  lemma {:induction false} ClaimRowsKeepRequests(w: World, ids: seq<string>, at: nat)
    ensures var after := ClaimRows(w, ids, at).db;
      && after.kind == w.db.kind && after.jobs.Keys == w.db.jobs.Keys
      && forall id :: id in w.db.jobs ==> after.jobs[id].request == w.db.jobs[id].request
  {
    if ids != [] { ClaimRowsKeepRequests(w, ids[..|ids| - 1], at); }
  }

  /** Every video job in the table came through the enqueue checks, whatever has happened to it since. */
  ghost predicate AllValidate(db: Db) {
    db.kind == Video ==> forall id :: id in db.jobs ==> Validates(db.jobs[id].request)
  }

  lemma StepKeepsValid(w: World, a: Action)
    requires AllValidate(w.db)
    ensures AllValidate(Step(w, a).db) && Step(w, a).db.kind == w.db.kind
  {
    hide Selection;
    if a.ClaimBatch? {
      ClaimRowsKeepRequests(w, Selection(w.db, a.through, a.limit), a.at);
    }
  }

  lemma {:induction false} StoredRequestsValidate(kind: Kind, history: map<string, HistoryRow>, run: seq<Action>)
    ensures var db := Exec(Initial(kind, history), run).db;
      AllValidate(db) && db.kind == kind
    decreases |run|
  {
    if run != [] {
      StoredRequestsValidate(kind, history, run[..|run| - 1]);
      StepKeepsValid(Exec(Initial(kind, history), run[..|run| - 1]), run[|run| - 1]);
    }
  }

  /** Account routing is in no stored job and in no row a completion wrote. */
  ghost predicate NothingRouted(w: World) {
    && (forall id :: id in w.db.jobs ==> !w.db.jobs[id].request.routed)
    && forall i :: 0 <= i < |w.log| && w.log[i].Completed? ==>
         w.log[i].row in w.db.history && !w.db.history[w.log[i].row].request.routed
  }

  lemma {:induction false} ClaimRowsComplete(w: World, ids: seq<string>, at: nat)
    ensures var after := ClaimRows(w, ids, at);
      && after.db.history == w.db.history && w.log <= after.log
      && forall i :: |w.log| <= i < |after.log| ==> after.log[i].Claimed?
  {
    if ids != [] { ClaimRowsComplete(w, ids[..|ids| - 1], at); }
  }

  lemma CompletionKeepsUnrouted(w: World, a: Action)
    requires NothingRouted(w) && a.CompleteJob? && Keyed(w.db.jobs)
    ensures NothingRouted(Step(w, a))
  {
    CompleteWritesOneRow(w.db, a.id, a.expected, a.next, a.at, a.detail);
    hide Complete;
  }

  lemma StepKeepsUnrouted(w: World, a: Action)
    requires NothingRouted(w) && Keyed(w.db.jobs)
    ensures NothingRouted(Step(w, a))
  {
    if a.CompleteJob? {
      CompletionKeepsUnrouted(w, a);
    } else if a.ClaimBatch? {
      hide Selection;
      ClaimRowsKeepRequests(w, Selection(w.db, a.through, a.limit), a.at);
      ClaimRowsComplete(w, Selection(w.db, a.through, a.limit), a.at);
    }
  }

  /** In every run, whatever requests were enqueued and whatever history was imported. */
  lemma {:induction false} RoutingIsNeverStored(kind: Kind, history: map<string, HistoryRow>, run: seq<Action>)
    ensures NothingRouted(Exec(Initial(kind, history), run))
    decreases |run|
  {
    if run != [] {
      var front := run[..|run| - 1];
      RoutingIsNeverStored(kind, history, front);
      RunsAreFenced(kind, history, front);
      hide Step;
      hide NothingRouted;
      StepKeepsUnrouted(Exec(Initial(kind, history), front), run[|run| - 1]);
    }
  }

  /** A requeue always returns a claimed ticket; a completion does so iff it found the job dispatching. */
  lemma SettlementsOfClaims(kind: Kind, history: map<string, HistoryRow>, run: seq<Action>, id: string, expected: nat)
    requires Lifecycling(run)
    ensures var w := Exec(Initial(kind, history), run);
      && (forall at :: Requeue(w.db, id, expected, at).Ok? ==> Claimed(id, expected) in w.log)
      && (forall next, at, detail :: Complete(w.db, id, expected, next, at, detail).Ok? ==>
            (Claimed(id, expected) in w.log <==> w.db.jobs[id].state.Dispatching?)
            && (kind == Article ==> Claimed(id, expected) in w.log))
  {
    RunsAreGood(kind, history, run);
    RunsAreFenced(kind, history, run);
    var w := Exec(Initial(kind, history), run);
    if id in w.db.jobs { assert JobLaw(w, id); }
  }

  /** The video completion does not insist on a claim: a queued job can be failed directly. */
  lemma VideoCompletesUnclaimed(request: Request)
    requires Validates(request) && !request.draft
    ensures var run := [AllocateId, InsertAllocated(1, request, 0), CompleteJob(Numbered("job", 1), 0, Failed, 0, "")];
      var w := Exec(Initial(Video, map[]), run);
      && Numbered("job", 1) in w.db.jobs && w.db.jobs[Numbered("job", 1)].state == Failed
      && forall ticket :: Claimed(Numbered("job", 1), ticket) !in w.log
  {
    var id := Numbered("job", 1);
    var run := [AllocateId, InsertAllocated(1, request, 0), CompleteJob(id, 0, Failed, 0, "")];
    var w0 := Initial(Video, map[]);
    var w1 := Step(w0, AllocateId);
    assert run[..3][..2] == [AllocateId, InsertAllocated(1, request, 0)];
    assert run[..2][..1] == [AllocateId] && run[..1][..0] == [];
    assert Exec(w0, run[..1]) == w1;
    var w2 := Step(w1, InsertAllocated(1, request, 0));
    assert Exec(w0, run[..2]) == w2;
    assert w2.log == [Enqueued(id)];
    var r := Complete(w2.db, id, 0, Failed, 0, "");
    assert r.Ok?;
    assert Exec(w0, run) == Step(w2, run[2]);
    assert Step(w2, run[2]).log == [Enqueued(id), Completed(id, 0, Failed, r.value.1)];
  }
}
