/**
 The durable publication queue as tables, and each storage transaction as a
 function from tables to tables. The video and the article queue share this
 shape; `kind` selects the few places where their statements differ.
 */
module Jobs {
  import opened Platforms
  import opened Wrappers
  import opened Text

  datatype PublishState = Draft | Queued | Dispatching | Published | Failed | Unavailable

  predicate Terminal(s: PublishState) { s.Published? || s.Failed? || s.Unavailable? }

  /** The scheduler's transition graph. */
  predicate CanTransition(from: PublishState, next: PublishState) {
    match from
    case Draft => next.Queued? || next.Unavailable?
    case Queued => next.Dispatching? || next.Failed? || next.Unavailable?
    case Dispatching => Terminal(next)
    case _ => false
  }

  /** A job is queued out of a draft, claimed out of the queue, and ends from the queue or from a claim; nothing goes back. */
  lemma TransitionGraph(from: PublishState, next: PublishState)
    ensures CanTransition(from, next) <==>
      || (next == Queued && from == Draft)
      || (next == Dispatching && from == Queued)
      || (next == Published && from == Dispatching)
      || (next == Failed && (from == Queued || from == Dispatching))
      || (next == Unavailable && (from == Draft || from == Queued || from == Dispatching))
  {
  }

  /** `sane` stands for the checks of a request that do not concern its targets. */
  datatype Request = Request(
    title: string,
    targets: seq<Platform>,
    sane: bool,
    draft: bool,
    scheduledAt: Option<string>,
    routed: bool)

  /** Account routing never reaches storage, runners or history. */
  function RunnerSafe(r: Request): Request { r.(routed := false) }

  datatype Job = Job(id: string, request: Request, state: PublishState, due: Option<string>, revision: nat, updatedAt: nat)

  datatype HistoryRow = HistoryRow(request: Request, state: PublishState, recordedAt: nat, detail: string)

  datatype Kind = Video | Article

  datatype DomainError =
    | UnknownJob(id: string)
    | InvalidStateTransition(from: PublishState, to: PublishState)
    | StaleJobRevision(id: string, expected: nat, actual: nat)
    | ConcurrentJobUpdate(id: string)
    | InvalidRequest
    | Database

  datatype Db = Db(
    kind: Kind,
    jobs: map<string, Job>,
    sequence: nat,
    history: map<string, HistoryRow>,
    historySequence: nat)

  const MAX_CLAIM_BATCH: nat := 64

  function JobPrefix(kind: Kind): string {
    if kind == Video then "job" else "article-job"
  }

  function HistoryPrefix(kind: Kind): string {
    if kind == Video then "scheduled-history" else "article-scheduled-history"
  }

  /** Rows are stored under their own identifier. */
  ghost predicate Keyed(jobs: map<string, Job>) {
    forall id :: id in jobs ==> jobs[id].id == id
  }

  // ------------------------------------------------------------ history ids

  /** Stored ids the generator would still run into from `sequence` on. */
  ghost function Ahead(history: map<string, HistoryRow>, prefix: string, sequence: nat): set<string> {
    set id | id in history && exists n: nat :: n > sequence && id == Numbered(prefix, n)
  }

  /** Each collision uses up one stored id for good, so the retry loop is finite. */
  lemma AheadShrinks(history: map<string, HistoryRow>, prefix: string, sequence: nat)
    requires Numbered(prefix, sequence + 1) in history
    ensures Ahead(history, prefix, sequence + 1) < Ahead(history, prefix, sequence)
  {
    var id := Numbered(prefix, sequence + 1);
    assert id in Ahead(history, prefix, sequence);
    if id in Ahead(history, prefix, sequence + 1) {
      var n: nat :| n > sequence + 1 && id == Numbered(prefix, n);
      NumberedInjective(prefix, n, sequence + 1);
    }
  }

  /** The sequence number at which the collision retry stops. */
  ghost function NextFree(history: map<string, HistoryRow>, prefix: string, sequence: nat): (n: nat)
    ensures n > sequence && Numbered(prefix, n) !in history
    ensures forall m :: sequence < m < n ==> Numbered(prefix, m) in history
    decreases Ahead(history, prefix, sequence)
  {
    if Numbered(prefix, sequence + 1) !in history then sequence + 1
    else
      AheadShrinks(history, prefix, sequence);
      NextFree(history, prefix, sequence + 1)
  }

  /** The number of a new history row: videos retry past taken ids, articles do not. */
  ghost function RowNumber(db: Db): nat {
    if db.kind == Video then NextFree(db.history, HistoryPrefix(Video), db.historySequence)
    else db.historySequence + 1
  }

  ghost function RowId(db: Db): string {
    Numbered(HistoryPrefix(db.kind), RowNumber(db))
  }

  /** An article's next identifier is taken, so its row cannot be written. */
  ghost predicate Collides(db: Db) {
    db.kind == Article && RowId(db) in db.history
  }

  // ------------------------------------------------------------ transactions

  function Moved(job: Job, next: PublishState, at: nat): Job {
    job.(state := next, revision := job.revision + 1, updatedAt := at)
  }

  function Put(db: Db, job: Job): Db {
    db.(jobs := db.jobs[job.id := job])
  }

  /** The checks `transition_job` and the completions start with. */
  function Guard(db: Db, id: string, expected: nat, next: PublishState): Result<Job, DomainError> {
    if id !in db.jobs then Err(UnknownJob(id))
    else
      var current := db.jobs[id];
      if !CanTransition(current.state, next) then Err(InvalidStateTransition(current.state, next))
      else if current.revision != expected then Err(StaleJobRevision(id, expected, current.revision))
      else Ok(current)
  }

  function Transition(db: Db, id: string, expected: nat, next: PublishState, at: nat): Result<Db, DomainError> {
    match Guard(db, id, expected, next)
    case Err(e) => Err(e)
    case Ok(current) => Ok(Put(db, Moved(current, next, at)))
  }

  /** Terminal transition and history row in one transaction. Only the article update also demands a claim. */
  ghost function Complete(db: Db, id: string, expected: nat, next: PublishState, at: nat, detail: string)
    : Result<(Db, string), DomainError>
  {
    match Guard(db, id, expected, next)
    case Err(e) => Err(e)
    case Ok(current) =>
      if db.kind == Article && current.state != Dispatching then Err(ConcurrentJobUpdate(id))
      else if Collides(db) then Err(Database)
      else
        var record := HistoryRow(RunnerSafe(current.request), next, at, detail);
        Ok((Put(db, Moved(current, next, at)).(history := db.history[RowId(db) := record], historySequence := RowNumber(db)), RowId(db)))
  }

  function Requeue(db: Db, id: string, expected: nat, at: nat): Result<Db, DomainError> {
    if id !in db.jobs then Err(UnknownJob(id))
    else
      var current := db.jobs[id];
      if current.state != Dispatching then Err(InvalidStateTransition(current.state, Queued))
      else if current.revision != expected then Err(StaleJobRevision(id, expected, current.revision))
      else Ok(Put(db, Moved(current, Queued, at)))
  }

  /** A new job as enqueue stores it under sequence number `n`. */
  function NewJob(kind: Kind, n: nat, request: Request, at: nat): Job {
    Job(Numbered(JobPrefix(kind), n), RunnerSafe(request),
        if kind == Video && request.draft then Draft else Queued, request.scheduledAt, 0, at)
  }

  predicate Distinct(targets: seq<Platform>) {
    forall i, j :: 0 <= i < j < |targets| ==> targets[i] != targets[j]
  }

  /** What a video request must satisfy; its targets are a non-empty list without repetition. */
  predicate Validates(r: Request) {
    r.sane && r.targets != [] && Distinct(r.targets)
  }

  /** What enqueue checks before touching storage. */
  predicate Enqueueable(kind: Kind, request: Request) {
    if kind == Video then Validates(request) else request.sane && request.scheduledAt.Some?
  }

  /** The primary key refuses an identifier that is taken. */
  function InsertJob(db: Db, job: Job): Result<Db, DomainError> {
    if job.id in db.jobs then Err(Database) else Ok(Put(db, job))
  }

  // ------------------------------------------------------------------ claims

  predicate Due(job: Job, through: string) {
    job.state.Queued? && job.due.Some? && LexLe(job.due.value, through)
  }

  ghost function Eligible(jobs: map<string, Job>, through: string): set<string> {
    set id | id in jobs && Due(jobs[id], through)
  }

  /** Claim order: due text, then identifier text. */
  predicate Before(a: Job, b: Job)
    requires a.due.Some? && b.due.Some?
  {
    if a.due.value == b.due.value then LexLe(a.id, b.id) else LexLe(a.due.value, b.due.value)
  }

  ghost predicate IsFirst(jobs: map<string, Job>, ids: set<string>, id: string)
    requires forall x :: x in ids ==> x in jobs && jobs[x].due.Some?
  {
    id in ids && forall x :: x in ids ==> Before(jobs[id], jobs[x])
  }

  lemma BeforeIsOrder(a: Job, b: Job, c: Job)
    requires a.due.Some? && b.due.Some? && c.due.Some?
    ensures Before(a, b) || Before(b, a)
    ensures Before(a, b) && Before(b, a) ==> a.id == b.id
    ensures Before(a, b) && Before(b, c) ==> Before(a, c)
  {
    LexTotal(a.due.value, b.due.value);
    LexTotal(b.due.value, c.due.value);
    LexTotal(a.id, b.id);
    if LexLe(a.due.value, b.due.value) && LexLe(b.due.value, c.due.value) {
      LexTransitive(a.due.value, b.due.value, c.due.value);
    }
    if LexLe(a.id, b.id) && LexLe(b.id, c.id) {
      LexTransitive(a.id, b.id, c.id);
    }
  }

  lemma {:induction false} FirstExists(jobs: map<string, Job>, ids: set<string>)
    requires ids != {} && forall x :: x in ids ==> x in jobs && jobs[x].due.Some?
    ensures exists id :: IsFirst(jobs, ids, id)
  {
    var x :| x in ids;
    if ids == {x} {
      BeforeIsOrder(jobs[x], jobs[x], jobs[x]);
      assert IsFirst(jobs, ids, x);
    } else {
      var rest := ids - {x};
      FirstExists(jobs, rest);
      var y :| IsFirst(jobs, rest, y);
      var best := if Before(jobs[x], jobs[y]) then x else y;
      forall z | z in ids ensures Before(jobs[best], jobs[z]) {
        BeforeIsOrder(jobs[x], jobs[y], jobs[z]);
        BeforeIsOrder(jobs[y], jobs[x], jobs[z]);
        BeforeIsOrder(jobs[x], jobs[x], jobs[x]);
      }
      assert IsFirst(jobs, ids, best);
    }
  }

  /** The first `count` of `ids` in claim order. */
  ghost function FirstOf(jobs: map<string, Job>, ids: set<string>, count: nat): seq<string>
    requires forall x :: x in ids ==> x in jobs && jobs[x].due.Some?
    decreases count
  {
    if count == 0 || ids == {} then []
    else
      FirstExists(jobs, ids);
      var id :| IsFirst(jobs, ids, id);
      [id] + FirstOf(jobs, ids - {id}, count - 1)
  }

  function Cap(limit: nat): (cap: nat)
    ensures cap <= limit && cap <= 64 && (cap == limit || cap == 64)
  {
    if limit < MAX_CLAIM_BATCH then limit else MAX_CLAIM_BATCH
  }

  ghost function Selection(db: Db, through: string, limit: nat): seq<string> {
    FirstOf(db.jobs, Eligible(db.jobs, through), Cap(limit))
  }

  /** Claims the listed rows one by one. */
  function Mark(db: Db, ids: seq<string>, at: nat): Db
  {
    if ids == [] then db
    else
      var before := Mark(db, ids[..|ids| - 1], at);
      var id := ids[|ids| - 1];
      if id in before.jobs then before.(jobs := before.jobs[id := Moved(before.jobs[id], Dispatching, at)]) else before
  }

  ghost function Claim(db: Db, through: string, at: nat, limit: nat): Db {
    Mark(db, Selection(db, through, limit), at)
  }

  // ------------------------------------------------------- what a claim takes

  /** `front` is the sorted front of `ids`: nothing left out comes before anything taken. */
  ghost predicate IsFront(jobs: map<string, Job>, ids: set<string>, count: nat, front: seq<string>)
    requires forall x :: x in ids ==> x in jobs && jobs[x].due.Some?
  {
    && (forall i :: 0 <= i < |front| ==> front[i] in ids)
    && (forall i, j :: 0 <= i < j < |front| ==> front[i] != front[j] && Before(jobs[front[i]], jobs[front[j]]))
    && (forall i, x :: 0 <= i < |front| && x in ids && x !in front ==> Before(jobs[front[i]], jobs[x]))
    && |front| == if count < |ids| then count else |ids|
  }

  lemma OneMoreInFront(jobs: map<string, Job>, ids: set<string>, count: nat, id: string, rest: seq<string>)
    requires forall x :: x in ids ==> x in jobs && jobs[x].due.Some?
    requires count > 0 && IsFirst(jobs, ids, id) && IsFront(jobs, ids - {id}, count - 1, rest)
    ensures IsFront(jobs, ids, count, [id] + rest)
  {
    hide Before;
    var front := [id] + rest;
    assert |ids - {id}| == |ids| - 1;
    assert forall i :: 1 <= i < |front| ==> front[i] == rest[i - 1];
    assert forall x :: x in ids && x !in front ==> x in ids - {id} && x !in rest;
  }

  lemma {:induction false} FirstOfIsFront(jobs: map<string, Job>, ids: set<string>, count: nat)
    requires forall x :: x in ids ==> x in jobs && jobs[x].due.Some?
    ensures IsFront(jobs, ids, count, FirstOf(jobs, ids, count))
    decreases count
  {
    if count > 0 && ids != {} {
      var front := FirstOf(jobs, ids, count);
      var id := front[0];
      assert IsFirst(jobs, ids, id) && front == [id] + FirstOf(jobs, ids - {id}, count - 1) by {
        FirstExists(jobs, ids);
      }
      hide FirstOf;
      hide Before;
      hide IsFront;
      FirstOfIsFront(jobs, ids - {id}, count - 1);
      OneMoreInFront(jobs, ids, count, id, front[1..]);
    }
  }

  /** Claiming rows bumps exactly these rows, each by one revision. */
  lemma {:induction false} MarkRows(db: Db, ids: seq<string>, at: nat)
    requires Keyed(db.jobs)
    requires forall i :: 0 <= i < |ids| ==> ids[i] in db.jobs
    requires forall i, j :: 0 <= i < j < |ids| ==> ids[i] != ids[j]
    ensures var after := Mark(db, ids, at);
      && after == db.(jobs := after.jobs) && after.jobs.Keys == db.jobs.Keys && Keyed(after.jobs)
      && forall id :: id in db.jobs ==>
           after.jobs[id] == if id in ids then Moved(db.jobs[id], Dispatching, at) else db.jobs[id]
  {
    if ids != [] {
      var front, last := ids[..|ids| - 1], ids[|ids| - 1];
      MarkRows(db, front, at);
      assert ids == front + [last];
      assert last !in front;
    }
  }

  /**
   A claim takes the first min(limit, 64) due jobs in (due text, id text) order and
   nothing else; it stays below the cap only when no due job is left. `ClaimMoves` and
   `ClaimOrder` say the same of the rows themselves.
   */
  lemma ClaimTakesFront(db: Db, through: string, at: nat, limit: nat)
    requires Keyed(db.jobs)
    ensures var taken, after := Selection(db, through, limit), Claim(db, through, at, limit);
      && |taken| <= limit && |taken| <= MAX_CLAIM_BATCH
      && (forall i :: 0 <= i < |taken| ==> taken[i] in db.jobs && Due(db.jobs[taken[i]], through))
      && (forall i, j :: 0 <= i < j < |taken| ==>
            taken[i] != taken[j] && Before(db.jobs[taken[i]], db.jobs[taken[j]]))
      && (forall i, x :: 0 <= i < |taken| && x in db.jobs && Due(db.jobs[x], through) && x !in taken ==>
            Before(db.jobs[taken[i]], db.jobs[x]))
      && (|taken| < Cap(limit) ==> forall x :: x in db.jobs && Due(db.jobs[x], through) ==> x in taken)
      && after == db.(jobs := after.jobs) && after.jobs.Keys == db.jobs.Keys && Keyed(after.jobs)
      && forall id :: id in db.jobs ==>
           after.jobs[id] == if id in taken then Moved(db.jobs[id], Dispatching, at) else db.jobs[id]
  {
    var ids := Eligible(db.jobs, through);
    var taken := Selection(db, through, limit);
    FirstOfIsFront(db.jobs, ids, Cap(limit));
    forall x, i | 0 <= i < |taken| && x in db.jobs && Due(db.jobs[x], through) && x !in taken
      ensures Before(db.jobs[taken[i]], db.jobs[x])
    {
      assert x in ids;
    }
    MarkRows(db, taken, at);
    if |taken| < Cap(limit) {
      AllTaken(taken, ids);
      forall x | x in db.jobs && Due(db.jobs[x], through) ensures x in taken {
        assert x in ids;
      }
    }
  }

  /** A queued job whose due text does not sort behind `through`. */
  predicate Waits(job: Job, through: string) {
    job.state == Queued && job.due.Some? && LexLe(job.due.value, through)
  }

  /**
   A claim takes queued jobs whose due text does not sort behind `through`, at most 64 and at
   most `limit`, and all of them if it takes fewer; it moves the rows it takes to
   dispatching, one revision on, and no others.
   */
  lemma ClaimMoves(db: Db, through: string, at: nat, limit: nat, x: string)
    requires Keyed(db.jobs) && x in db.jobs
    ensures var taken, after := Selection(db, through, limit), Claim(db, through, at, limit).jobs;
      && |taken| <= limit && |taken| <= 64
      && (x in taken ==> Waits(db.jobs[x], through))
      && (Waits(db.jobs[x], through) && |taken| < limit && |taken| < 64 ==> x in taken)
      && x in after
      && after[x] == if x in taken then db.jobs[x].(state := Dispatching, revision := db.jobs[x].revision + 1, updatedAt := at)
                     else db.jobs[x]
  {
    ClaimTakesFront(db, through, at, limit);
    hide Selection;
    hide Claim;
    hide Before;
  }

  /** Whatever a claim takes sorts by due text, and by identifier where these agree, before what follows and what it leaves. */
  lemma ClaimOrder(db: Db, through: string, limit: nat, i: nat, x: string)
    requires Keyed(db.jobs) && i < |Selection(db, through, limit)| && x in db.jobs && Waits(db.jobs[x], through)
    requires x !in Selection(db, through, limit)[..i + 1]
    ensures var id := Selection(db, through, limit)[i];
      id in db.jobs && var a, b := db.jobs[id], db.jobs[x];
      a.due.Some? && LexLe(a.due.value, b.due.value) && (a.due == b.due ==> LexLe(a.id, b.id))
  {
    var ids, taken := Eligible(db.jobs, through), Selection(db, through, limit);
    FirstOfIsFront(db.jobs, ids, Cap(limit));
    assert x in ids && taken[i] in ids;
    hide Selection;
    hide Eligible;
    LexTotal(db.jobs[taken[i]].due.value, db.jobs[taken[i]].due.value);
    hide LexLe;
    if x in taken {
      var j :| 0 <= j < |taken| && taken[j] == x;
      assert taken[..i + 1] + taken[i + 1..] == taken;
    }
  }

  /** Distinct members as numerous as the set are all of it. */
  lemma {:induction false} AllTaken(taken: seq<string>, ids: set<string>)
    requires forall i :: 0 <= i < |taken| ==> taken[i] in ids
    requires forall i, j :: 0 <= i < j < |taken| ==> taken[i] != taken[j]
    requires |taken| == |ids|
    ensures forall x :: x in ids ==> x in taken
  {
    if taken != [] {
      var n := |taken| - 1;
      AllTaken(taken[..n], ids - {taken[n]});
      forall x | x in ids ensures x in taken {
        assert x == taken[n] || x in taken[..n];
      }
    }
  }

  /** What a completion that goes through has done: this job moved on, one fresh row added. */
  lemma CompleteWritesOneRow(db: Db, id: string, expected: nat, next: PublishState, at: nat, detail: string)
    requires Keyed(db.jobs)
    ensures var r := Complete(db, id, expected, next, at, detail);
      r.Ok? ==>
        && id in db.jobs && db.jobs[id].revision == expected
        && r.value.0.jobs == db.jobs[id := db.jobs[id].(state := next, revision := expected + 1, updatedAt := at)]
        && r.value.1 !in db.history
        && r.value.0.history == db.history[r.value.1 := HistoryRow(db.jobs[id].request.(routed := false), next, at, detail)]
  {
  }
}
