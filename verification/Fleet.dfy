/**
 Several schedulers sharing one database, each between the transactions of its own
 pass: claim a batch, then for each claimed job complete, and requeue if completing
 failed. Storage may refuse any transaction and a scheduler may die at any point.
 */
module Fleet {
  import opened Wrappers
  import opened Text
  import opened Jobs
  import opened QueueRuns

  datatype Ticket = Ticket(id: string, revision: nat)

  /** Where a scheduler is: jobs it still has to settle, or recovering one whose completion failed. */
  datatype Scheduler = Working(tickets: seq<Ticket>) | Recovering(ticket: Ticket, rest: seq<Ticket>)

  datatype State = State(world: World, schedulers: seq<Scheduler>, abandoned: set<string>)

  datatype Move =
    | Client(action: Action)
    | StartPass(s: nat, through: string, at: nat, limit: nat)
    | TryComplete(s: nat, next: PublishState, at: nat, detail: string, refused: bool)
    | TryRequeue(s: nat, at: nat, refused: bool)
    | Crash(s: nat)

  /** What requests other than the schedulers' may do to the queue. */
  predicate ClientAction(a: Action) {
    a.AllocateId? || a.InsertAllocated? || a.ImportHistory? || a.RecordDispatch?
  }

  function Held(s: Scheduler): seq<Ticket> {
    match s
    case Working(tickets) => tickets
    case Recovering(ticket, rest) => [ticket] + rest
  }

  function Ids(tickets: seq<Ticket>): set<string> {
    set t | t in tickets :: t.id
  }

  function Initial(kind: Kind, history: map<string, HistoryRow>, count: nat): State {
    State(QueueRuns.Initial(kind, history), seq(count, _ => Working([])), {})
  }

  ghost function Tickets(db: Db, ids: seq<string>): (r: seq<Ticket>)
    ensures |r| == |ids|
  {
    seq(|ids|, i requires 0 <= i < |ids| => Ticket(ids[i], if ids[i] in db.jobs then db.jobs[ids[i]].revision else 0))
  }

  function Set(st: State, s: nat, x: Scheduler): State
    requires s < |st.schedulers|
  {
    st.(schedulers := st.schedulers[s := x])
  }

  ghost function Next(st: State, m: Move): State {
    match m
    case Client(a) => if ClientAction(a) then st.(world := Step(st.world, a)) else st
    case StartPass(s, through, at, limit) =>
      if s < |st.schedulers| && st.schedulers[s] == Working([]) then
        var ids := Selection(st.world.db, through, limit);
        var world := Step(st.world, ClaimBatch(through, at, limit));
        Set(st.(world := world), s, Working(Tickets(world.db, ids)))
      else st
    case TryComplete(s, next, at, detail, refused) =>
      if s < |st.schedulers| && st.schedulers[s].Working? && st.schedulers[s].tickets != [] && Terminal(next) then
        var t, rest := st.schedulers[s].tickets[0], st.schedulers[s].tickets[1..];
        if !refused && Complete(st.world.db, t.id, t.revision, next, at, detail).Ok?
        then Set(st.(world := Step(st.world, CompleteJob(t.id, t.revision, next, at, detail))), s, Working(rest))
        else Set(st, s, Recovering(t, rest))
      else st
    case TryRequeue(s, at, refused) =>
      if s < |st.schedulers| && st.schedulers[s].Recovering? then
        var Recovering(t, rest) := st.schedulers[s];
        if !refused && Requeue(st.world.db, t.id, t.revision, at).Ok?
        then Set(st.(world := Step(st.world, RequeueJob(t.id, t.revision, at))), s, Working(rest))
        else Set(st.(abandoned := st.abandoned + {t.id}), s, Working(rest))
      else st
    case Crash(s) =>
      if s < |st.schedulers|
      then Set(st.(abandoned := st.abandoned + Ids(Held(st.schedulers[s]))), s, Working([]))
      else st
  }

  ghost function Exec(st: State, run: seq<Move>): State
    decreases |run|
  {
    if run == [] then st else Next(Exec(st, run[..|run| - 1]), run[|run| - 1])
  }

  // ---------------------------------------------------------------- invariant

  /** A ticket is live while its job is dispatching under exactly its revision. */
  predicate Live(jobs: map<string, Job>, t: Ticket) {
    t.id in jobs && jobs[t.id].state.Dispatching? && jobs[t.id].revision == t.revision
  }

  /** A scheduler's tickets are live and name different jobs. */
  ghost predicate HoldsWell(jobs: map<string, Job>, x: Scheduler) {
    && (forall t :: t in Held(x) ==> Live(jobs, t))
    && (forall k, j :: 0 <= k < j < |Held(x)| ==> Held(x)[k].id != Held(x)[j].id)
  }

  function HeldIds(x: Scheduler): set<string> { Ids(Held(x)) }

  /** No job is in two schedulers' hands. */
  ghost predicate Exclusive(schedulers: seq<Scheduler>) {
    forall r, s :: 0 <= r < s < |schedulers| ==> HeldIds(schedulers[r]) !! HeldIds(schedulers[s])
  }

  ghost predicate HeldBySome(schedulers: seq<Scheduler>, id: string) {
    exists s :: 0 <= s < |schedulers| && id in HeldIds(schedulers[s])
  }

  /** Dispatching jobs are held or abandoned, never both. */
  ghost predicate Covered(jobs: map<string, Job>, schedulers: seq<Scheduler>, abandoned: set<string>) {
    && (forall id :: id in jobs && jobs[id].state.Dispatching? ==> id in abandoned || HeldBySome(schedulers, id))
    && (forall id :: id in abandoned ==> id in jobs && jobs[id].state.Dispatching? && !HeldBySome(schedulers, id))
  }

  ghost predicate Inv(st: State) {
    && Keyed(st.world.db.jobs)
    && (forall s :: 0 <= s < |st.schedulers| ==> HoldsWell(st.world.db.jobs, st.schedulers[s]))
    && Exclusive(st.schedulers)
    && Covered(st.world.db.jobs, st.schedulers, st.abandoned)
  }

  /** Scheduler `s` becomes `x`, losing the jobs in `gone` and taking the idle ones in `come`; nothing else moves. */
  ghost predicate Exchanged(st: State, st': State, s: nat, x: Scheduler, gone: set<string>, come: set<string>) {
    var jobs, jobs' := st.world.db.jobs, st'.world.db.jobs;
    && s < |st.schedulers| && st'.schedulers == st.schedulers[s := x]
    && Keyed(jobs') && jobs'.Keys == jobs.Keys && HoldsWell(jobs', x)
    && gone <= HeldIds(st.schedulers[s])
    && (forall id :: id in come ==> id in jobs && !jobs[id].state.Dispatching? && jobs'[id].state.Dispatching?)
    && HeldIds(x) == HeldIds(st.schedulers[s]) - gone + come
    && (forall id :: id in jobs && id !in gone && id !in come ==> jobs'[id] == jobs[id])
    && st'.abandoned == st.abandoned + (set id | id in gone && id in jobs' && jobs'[id].state.Dispatching?)
  }

  lemma HeldIsDispatching(st: State, r: nat, id: string)
    requires Inv(st) && r < |st.schedulers| && id in HeldIds(st.schedulers[r])
    ensures id in st.world.db.jobs && st.world.db.jobs[id].state.Dispatching? && id !in st.abandoned
    ensures forall s :: 0 <= s < |st.schedulers| && s != r ==> id !in HeldIds(st.schedulers[s])
  {
    assert HoldsWell(st.world.db.jobs, st.schedulers[r]);
    var t :| t in Held(st.schedulers[r]) && t.id == id;
    assert Live(st.world.db.jobs, t);
    assert HeldBySome(st.schedulers, id);
    forall s | 0 <= s < |st.schedulers| && s != r ensures id !in HeldIds(st.schedulers[s]) {
      if r < s {
        assert HeldIds(st.schedulers[r]) !! HeldIds(st.schedulers[s]);
      } else {
        assert HeldIds(st.schedulers[s]) !! HeldIds(st.schedulers[r]);
      }
    }
  }

  lemma ExchangeHolds(st: State, st': State, s: nat, x: Scheduler, gone: set<string>, come: set<string>, r: nat)
    requires Inv(st) && Exchanged(st, st', s, x, gone, come) && r < |st.schedulers|
    ensures HoldsWell(st'.world.db.jobs, st'.schedulers[r])
    ensures r != s ==> HeldIds(st'.schedulers[r]) !! HeldIds(st'.schedulers[s])
  {
    if r != s {
      assert HoldsWell(st.world.db.jobs, st.schedulers[r]);
      forall t | t in Held(st.schedulers[r]) ensures Live(st'.world.db.jobs, t) && t.id !in HeldIds(x) {
        assert t.id in HeldIds(st.schedulers[r]);
        HeldIsDispatching(st, r, t.id);
        assert Live(st.world.db.jobs, t);
      }
    }
  }

  lemma ExchangeExcludes(st: State, st': State, s: nat, x: Scheduler, gone: set<string>, come: set<string>)
    requires Inv(st) && Exchanged(st, st', s, x, gone, come)
    ensures Exclusive(st'.schedulers)
  {
    forall p, q | 0 <= p < q < |st'.schedulers| ensures HeldIds(st'.schedulers[p]) !! HeldIds(st'.schedulers[q]) {
      if p == s {
        ExchangeHolds(st, st', s, x, gone, come, q);
      } else if q == s {
        ExchangeHolds(st, st', s, x, gone, come, p);
      } else {
        assert HeldIds(st.schedulers[p]) !! HeldIds(st.schedulers[q]);
      }
    }
  }

  lemma ExchangeCovers(st: State, st': State, s: nat, x: Scheduler, gone: set<string>, come: set<string>, id: string)
    requires Inv(st) && Exchanged(st, st', s, x, gone, come)
    ensures id in st'.world.db.jobs && st'.world.db.jobs[id].state.Dispatching? ==>
              id in st'.abandoned || HeldBySome(st'.schedulers, id)
    ensures id in st'.abandoned ==>
              id in st'.world.db.jobs && st'.world.db.jobs[id].state.Dispatching? && !HeldBySome(st'.schedulers, id)
  {
    assert st'.schedulers[s] == x;
    if id in come {
      assert id in HeldIds(st'.schedulers[s]);
    } else if id in gone {
      HeldIsDispatching(st, s, id);
      forall r | 0 <= r < |st'.schedulers| ensures id !in HeldIds(st'.schedulers[r]) { }
    } else if HeldBySome(st.schedulers, id) {
      var r :| 0 <= r < |st.schedulers| && id in HeldIds(st.schedulers[r]);
      HeldIsDispatching(st, r, id);
      assert id in HeldIds(st'.schedulers[r]);
    } else {
      forall r | 0 <= r < |st'.schedulers| ensures id !in HeldIds(st'.schedulers[r]) {
        assert id !in HeldIds(st.schedulers[r]);
      }
    }
  }

  lemma Replace(st: State, st': State, s: nat, x: Scheduler, gone: set<string>, come: set<string>)
    requires Inv(st) && Exchanged(st, st', s, x, gone, come)
    ensures Inv(st')
  {
    ExchangeExcludes(st, st', s, x, gone, come);
    forall r | 0 <= r < |st'.schedulers| ensures HoldsWell(st'.world.db.jobs, st'.schedulers[r]) {
      ExchangeHolds(st, st', s, x, gone, come, r);
    }
    forall id | id in st'.world.db.jobs && st'.world.db.jobs[id].state.Dispatching?
      ensures id in st'.abandoned || HeldBySome(st'.schedulers, id)
    {
      ExchangeCovers(st, st', s, x, gone, come, id);
    }
    forall id | id in st'.abandoned
      ensures id in st'.world.db.jobs && st'.world.db.jobs[id].state.Dispatching? && !HeldBySome(st'.schedulers, id)
    {
      ExchangeCovers(st, st', s, x, gone, come, id);
    }
  }

  lemma {:induction false} ClaimRowsMark(w: World, ids: seq<string>, at: nat)
    ensures ClaimRows(w, ids, at).db == Mark(w.db, ids, at)
  {
    if ids != [] { ClaimRowsMark(w, ids[..|ids| - 1], at); }
  }

  lemma ClientKeeps(st: State, a: Action)
    requires Inv(st) && ClientAction(a)
    ensures Inv(Next(st, Client(a)))
  {
    var jobs, jobs' := st.world.db.jobs, Step(st.world, a).db.jobs;
    assert Keyed(jobs') && forall id :: id in jobs ==> id in jobs' && jobs'[id] == jobs[id];
    assert forall id :: id in jobs' && id !in jobs ==> !jobs'[id].state.Dispatching?;
  }

  /** The tickets of freshly claimed jobs are live and distinct. */
  lemma FreshTickets(db: Db, ids: seq<string>)
    requires forall i :: 0 <= i < |ids| ==> ids[i] in db.jobs && db.jobs[ids[i]].state.Dispatching?
    requires forall i, j :: 0 <= i < j < |ids| ==> ids[i] != ids[j]
    ensures HoldsWell(db.jobs, Working(Tickets(db, ids)))
    ensures HeldIds(Working(Tickets(db, ids))) == set id | id in ids
  {
    var tickets := Tickets(db, ids);
    forall id | id in ids ensures id in Ids(tickets) {
      var k :| 0 <= k < |ids| && ids[k] == id;
      assert tickets[k] in tickets && tickets[k].id == id;
    }
  }

  lemma StepClaims(w: World, through: string, at: nat, limit: nat)
    ensures Step(w, ClaimBatch(through, at, limit)).db == Claim(w.db, through, at, limit)
  {
    ClaimRowsMark(w, Selection(w.db, through, limit), at);
  }

  lemma PassKeeps(st: State, s: nat, through: string, at: nat, limit: nat)
    requires Inv(st) && s < |st.schedulers| && st.schedulers[s] == Working([])
    ensures Inv(Next(st, StartPass(s, through, at, limit)))
  {
    hide Step;
    hide Claim;
    hide Selection;
    hide Before;
    hide Inv;
    hide HoldsWell;
    var db := st.world.db;
    var ids := Selection(db, through, limit);
    var st' := Next(st, StartPass(s, through, at, limit));
    InvKeyed(st);
    ClaimTakesFront(db, through, at, limit);
    StepClaims(st.world, through, at, limit);
    FreshTickets(st'.world.db, ids);
    var come := set id | id in ids;
    assert HeldIds(st.schedulers[s]) == {};
    hide HeldIds;
    assert Exchanged(st, st', s, Working(Tickets(st'.world.db, ids)), {}, come);
    Replace(st, st', s, Working(Tickets(st'.world.db, ids)), {}, come);
  }

  lemma RestHolds(jobs: map<string, Job>, jobs': map<string, Job>, x: Scheduler, rest: seq<Ticket>)
    requires HoldsWell(jobs, x) && Held(x) != [] && rest == Held(x)[1..]
    requires forall id :: id in jobs && id != Held(x)[0].id ==> id in jobs' && jobs'[id] == jobs[id]
    ensures HoldsWell(jobs', Working(rest)) && HeldIds(Working(rest)) == HeldIds(x) - {Held(x)[0].id}
  {
    var held := Held(x);
    assert held == [held[0]] + rest;
    assert forall k :: 0 <= k < |rest| ==> rest[k] == held[k + 1];
    forall t | t in rest ensures t.id != held[0].id && Live(jobs', t) {
      assert t in held;
      assert Live(jobs, t);
    }
  }

  /** Letting go of the first ticket, its job settled or abandoned. */
  lemma DropKeeps(st: State, st': State, s: nat, rest: seq<Ticket>)
    requires Inv(st) && s < |st.schedulers| && Held(st.schedulers[s]) != []
    requires rest == Held(st.schedulers[s])[1..] && st'.schedulers == st.schedulers[s := Working(rest)]
    requires Keyed(st'.world.db.jobs) && st'.world.db.jobs.Keys == st.world.db.jobs.Keys
    requires var id := Held(st.schedulers[s])[0].id;
      && (forall x :: x in st.world.db.jobs && x != id ==> st'.world.db.jobs[x] == st.world.db.jobs[x])
      && id in st.world.db.jobs
      && st'.abandoned == st.abandoned + if st'.world.db.jobs[id].state.Dispatching? then {id} else {}
    ensures Inv(st')
  {
    var x := st.schedulers[s];
    var id := Held(x)[0].id;
    assert HoldsWell(st.world.db.jobs, x);
    assert Held(x)[0] in Held(x) && id in HeldIds(x);
    RestHolds(st.world.db.jobs, st'.world.db.jobs, x, rest);
    hide HoldsWell;
    hide HeldIds;
    hide Inv;
    Replace(st, st', s, Working(rest), {id}, {});
  }

  /** Tickets are live, so a settlement is only ever turned away by the storage engine. */
  lemma HeadIsLive(st: State, s: nat)
    requires Inv(st) && s < |st.schedulers| && Held(st.schedulers[s]) != []
    ensures Live(st.world.db.jobs, Held(st.schedulers[s])[0])
  {
    assert HoldsWell(st.world.db.jobs, st.schedulers[s]);
    assert Held(st.schedulers[s])[0] in Held(st.schedulers[s]);
  }

  lemma SameHeld(jobs: map<string, Job>, x: Scheduler, y: Scheduler)
    requires Held(x) == Held(y) && HoldsWell(jobs, x)
    ensures HoldsWell(jobs, y)
  {
    forall k, j | 0 <= k < j < |Held(y)| ensures Held(y)[k].id != Held(y)[j].id {
      assert Held(x)[k].id != Held(x)[j].id;
    }
  }

  lemma RecoveryKeeps(st: State, s: nat)
    requires Inv(st) && s < |st.schedulers| && st.schedulers[s].Working? && st.schedulers[s].tickets != []
    ensures Inv(Set(st, s, Recovering(st.schedulers[s].tickets[0], st.schedulers[s].tickets[1..])))
  {
    var tickets := st.schedulers[s].tickets;
    var x := Recovering(tickets[0], tickets[1..]);
    assert Held(x) == tickets;
    assert HoldsWell(st.world.db.jobs, st.schedulers[s]);
    var st' := Set(st, s, x);
    SameHeld(st.world.db.jobs, st.schedulers[s], x);
    assert HeldIds(x) == HeldIds(st.schedulers[s]);
    assert Exchanged(st, st', s, x, {}, {});
    Replace(st, st', s, x, {}, {});
  }

  lemma StepCompletes(w: World, id: string, expected: nat, next: PublishState, at: nat, detail: string)
    requires Terminal(next) && Complete(w.db, id, expected, next, at, detail).Ok?
    ensures Step(w, CompleteJob(id, expected, next, at, detail)).db == Complete(w.db, id, expected, next, at, detail).value.0
  {
  }

  lemma StepRequeues(w: World, id: string, expected: nat, at: nat)
    requires Requeue(w.db, id, expected, at).Ok?
    ensures Step(w, RequeueJob(id, expected, at)).db == Requeue(w.db, id, expected, at).value
  {
  }

  lemma CompleteKeeps(st: State, m: Move)
    requires Inv(st) && m.TryComplete?
    ensures Inv(Next(st, m))
  {
    hide Complete;
    hide Step;
    hide Inv;
    InvKeyed(st);
    if m.s < |st.schedulers| && st.schedulers[m.s].Working? && st.schedulers[m.s].tickets != [] && Terminal(m.next) {
      var t, rest := st.schedulers[m.s].tickets[0], st.schedulers[m.s].tickets[1..];
      if !m.refused && Complete(st.world.db, t.id, t.revision, m.next, m.at, m.detail).Ok? {
        HeadIsLive(st, m.s);
        CompleteWritesOneRow(st.world.db, t.id, t.revision, m.next, m.at, m.detail);
        StepCompletes(st.world, t.id, t.revision, m.next, m.at, m.detail);
        DropKeeps(st, Next(st, m), m.s, rest);
      } else {
        RecoveryKeeps(st, m.s);
      }
    }
  }

  lemma InvKeyed(st: State)
    requires Inv(st)
    ensures Keyed(st.world.db.jobs)
  {
  }

  lemma RequeueKeeps(st: State, m: Move)
    requires Inv(st) && m.TryRequeue?
    ensures Inv(Next(st, m))
  {
    hide Step;
    hide Inv;
    InvKeyed(st);
    if m.s < |st.schedulers| && st.schedulers[m.s].Recovering? {
      var Recovering(t, rest) := st.schedulers[m.s];
      HeadIsLive(st, m.s);
      if !m.refused && Requeue(st.world.db, t.id, t.revision, m.at).Ok? {
        StepRequeues(st.world, t.id, t.revision, m.at);
      }
      DropKeeps(st, Next(st, m), m.s, rest);
    }
  }

  lemma CrashKeeps(st: State, s: nat)
    requires Inv(st) && s < |st.schedulers|
    ensures Inv(Next(st, Crash(s)))
  {
    var gone := HeldIds(st.schedulers[s]);
    forall id | id in gone ensures id in st.world.db.jobs && st.world.db.jobs[id].state.Dispatching? {
      HeldIsDispatching(st, s, id);
    }
    Replace(st, Next(st, Crash(s)), s, Working([]), gone, {});
  }

  lemma NextKeeps(st: State, m: Move)
    requires Inv(st)
    ensures Inv(Next(st, m))
  {
    hide Inv;
    hide Step;
    if m.Client? {
      if ClientAction(m.action) { ClientKeeps(st, m.action); }
    } else if m.StartPass? {
      if m.s < |st.schedulers| && st.schedulers[m.s] == Working([]) { PassKeeps(st, m.s, m.through, m.at, m.limit); }
    } else if m.TryComplete? {
      CompleteKeeps(st, m);
    } else if m.TryRequeue? {
      RequeueKeeps(st, m);
    } else if m.s < |st.schedulers| {
      CrashKeeps(st, m.s);
    }
  }

  lemma {:induction false} FleetsKeepInvariant(kind: Kind, history: map<string, HistoryRow>, count: nat, run: seq<Move>)
    ensures Inv(Exec(Initial(kind, history, count), run))
    decreases |run|
  {
    if run == [] {
      var st := Initial(kind, history, count);
      assert forall s :: 0 <= s < |st.schedulers| ==> Held(st.schedulers[s]) == [];
    } else {
      FleetsKeepInvariant(kind, history, count, run[..|run| - 1]);
      NextKeeps(Exec(Initial(kind, history, count), run[..|run| - 1]), run[|run| - 1]);
    }
  }

  /**
   In every interleaving of any number of schedulers, clients, refusals and crashes,
   a scheduler's next ticket passes every check of completion and requeue: only the
   storage engine can turn a settlement away, never a competing scheduler.
   */
  lemma SettlementsNeverStale(kind: Kind, history: map<string, HistoryRow>, count: nat, run: seq<Move>, s: nat, next: PublishState, at: nat, detail: string)
    requires s < |Exec(Initial(kind, history, count), run).schedulers| && Terminal(next)
    requires Held(Exec(Initial(kind, history, count), run).schedulers[s]) != []
    ensures var st := Exec(Initial(kind, history, count), run);
      var t, db := Held(st.schedulers[s])[0], st.world.db;
      && Guard(db, t.id, t.revision, next).Ok? && Requeue(db, t.id, t.revision, at).Ok?
      && (db.kind == Video ==> Complete(db, t.id, t.revision, next, at, detail).Ok?)
  {
    FleetsKeepInvariant(kind, history, count, run);
    HeadIsLive(Exec(Initial(kind, history, count), run), s);
  }

  /** A dispatching job is in exactly one scheduler's hands, or in nobody's because it was abandoned. */
  lemma OneHolderPerJob(kind: Kind, history: map<string, HistoryRow>, count: nat, run: seq<Move>, id: string)
    requires id in Exec(Initial(kind, history, count), run).world.db.jobs
    ensures var st := Exec(Initial(kind, history, count), run);
      && (st.world.db.jobs[id].state.Dispatching? <==> id in st.abandoned || HeldBySome(st.schedulers, id))
      && !(id in st.abandoned && HeldBySome(st.schedulers, id))
      && (forall r, s :: 0 <= r < s < |st.schedulers| ==>
            !(id in HeldIds(st.schedulers[r]) && id in HeldIds(st.schedulers[s])))
  {
    FleetsKeepInvariant(kind, history, count, run);
    var st := Exec(Initial(kind, history, count), run);
    if HeldBySome(st.schedulers, id) {
      var r :| 0 <= r < |st.schedulers| && id in HeldIds(st.schedulers[r]);
      HeldIsDispatching(st, r, id);
    }
  }

  /** `id` is abandoned and its row the same in both states. */
  ghost predicate Untouched(st: State, st': State, id: string) {
    id in st'.abandoned && id in st.world.db.jobs && id in st'.world.db.jobs
    && st'.world.db.jobs[id] == st.world.db.jobs[id]
  }

  lemma AbandonedIsDispatching(st: State, id: string)
    requires Inv(st) && id in st.abandoned
    ensures id in st.world.db.jobs && st.world.db.jobs[id].state.Dispatching?
  {
  }

  lemma AbandonedThroughPass(st: State, m: Move, id: string)
    requires Inv(st) && id in st.abandoned && m.StartPass?
    ensures Untouched(st, Next(st, m), id)
  {
    AbandonedIsDispatching(st, id);
    InvKeyed(st);
    hide Inv;
    hide Step;
    hide Selection;
    hide Claim;
    hide Tickets;
    ClaimMoves(st.world.db, m.through, m.at, m.limit, id);
    StepClaims(st.world, m.through, m.at, m.limit);
  }

  lemma AbandonedThroughSettlement(st: State, m: Move, id: string)
    requires Inv(st) && id in st.abandoned && (m.TryComplete? || m.TryRequeue?)
    ensures Untouched(st, Next(st, m), id)
  {
    hide Complete;
    hide Step;
    hide Inv;
    InvKeyed(st);
    AbandonedIsDispatching(st, id);
    if m.s < |st.schedulers| && Held(st.schedulers[m.s]) != [] {
      var t := Held(st.schedulers[m.s])[0];
      HeadIsLive(st, m.s);
      assert t in Held(st.schedulers[m.s]) && t.id in HeldIds(st.schedulers[m.s]);
      HeldIsDispatching(st, m.s, t.id);
      if m.TryComplete? {
        CompleteWritesOneRow(st.world.db, t.id, t.revision, m.next, m.at, m.detail);
        if Terminal(m.next) && Complete(st.world.db, t.id, t.revision, m.next, m.at, m.detail).Ok? {
          StepCompletes(st.world, t.id, t.revision, m.next, m.at, m.detail);
        }
      } else if Requeue(st.world.db, t.id, t.revision, m.at).Ok? {
        StepRequeues(st.world, t.id, t.revision, m.at);
      }
    }
  }

  lemma AbandonedStep(st: State, m: Move, id: string)
    requires Inv(st) && id in st.abandoned
    ensures Untouched(st, Next(st, m), id)
  {
    if m.StartPass? {
      AbandonedThroughPass(st, m, id);
    } else if m.TryComplete? || m.TryRequeue? {
      AbandonedThroughSettlement(st, m, id);
    }
  }

  /**
   The limit of at-least-once delivery: a job whose completion and requeue were both
   refused, or whose scheduler died, stays dispatching for good. No later move of any
   scheduler or client touches it again.
   */
  lemma {:induction false} AbandonedForGood(kind: Kind, history: map<string, HistoryRow>, count: nat, run: seq<Move>, more: seq<Move>, id: string)
    requires id in Exec(Initial(kind, history, count), run).abandoned
    ensures id in Exec(Initial(kind, history, count), run).world.db.jobs
    ensures var st, later := Exec(Initial(kind, history, count), run), Exec(Initial(kind, history, count), run + more);
      && id in later.abandoned && id in later.world.db.jobs
      && later.world.db.jobs[id] == st.world.db.jobs[id] && later.world.db.jobs[id].state.Dispatching?
    decreases |more|
  {
    hide Inv;
    hide Next;
    FleetsKeepInvariant(kind, history, count, run);
    AbandonedIsDispatching(Exec(Initial(kind, history, count), run), id);
    if more == [] {
      assert run + more == run;
    } else {
      var front, m := more[..|more| - 1], more[|more| - 1];
      AbandonedForGood(kind, history, count, run, front, id);
      FleetsKeepInvariant(kind, history, count, run + front);
      AbandonedStep(Exec(Initial(kind, history, count), run + front), m, id);
      assert (run + more)[..|run + more| - 1] == run + front;
    }
  }

  // ------------------------------------------------------------ what is lost

  /** This move takes the job out of every hand: its scheduler dies, or cannot requeue it. */
  ghost predicate Loses(st: State, m: Move, id: string) {
    match m
    case Crash(s) => s < |st.schedulers| && id in HeldIds(st.schedulers[s])
    case TryRequeue(s, _, refused) =>
      s < |st.schedulers| && st.schedulers[s].Recovering? && st.schedulers[s].ticket.id == id && refused
    case _ => false
  }

  lemma RequeueLoses(st: State, m: Move, id: string)
    requires Inv(st) && m.TryRequeue?
    ensures id in Next(st, m).abandoned <==> id in st.abandoned || Loses(st, m, id)
  {
    if m.s < |st.schedulers| && st.schedulers[m.s].Recovering? {
      HeadIsLive(st, m.s);
    }
    hide Inv;
    hide Step;
  }

  lemma StepLoses(st: State, m: Move, id: string)
    requires Inv(st)
    ensures id in Next(st, m).abandoned <==> id in st.abandoned || Loses(st, m, id)
  {
    if m.TryRequeue? { RequeueLoses(st, m, id); }
    hide Inv;
    hide Step;
  }

  lemma {:induction false} LostHasCause(st: State, run: seq<Move>, id: string) returns (i: nat)
    requires Inv(st) && id in Exec(st, run).abandoned && id !in st.abandoned
    ensures i < |run| && Loses(Exec(st, run[..i]), run[i], id)
    decreases |run|
  {
    hide Loses;
    hide Next;
    hide Inv;
    var n := |run| - 1;
    var front := run[..n];
    ExecKeeps(st, front);
    if id in Exec(st, front).abandoned {
      i := LostHasCause(st, front, id);
      assert front[..i] == run[..i];
    } else {
      StepLoses(Exec(st, front), run[n], id);
      i := n;
    }
  }

  lemma {:induction false} CauseLoses(st: State, run: seq<Move>, id: string, i: nat)
    requires Inv(st) && i < |run| && Loses(Exec(st, run[..i]), run[i], id)
    ensures id in Exec(st, run).abandoned
    decreases |run|
  {
    hide Loses;
    hide Next;
    hide Inv;
    var n := |run| - 1;
    var front := run[..n];
    ExecKeeps(st, front);
    StepLoses(Exec(st, front), run[n], id);
    if i < n {
      assert front[..i] == run[..i];
      CauseLoses(st, front, id, i);
    }
  }

  lemma {:induction false} ExecKeeps(st: State, run: seq<Move>)
    requires Inv(st)
    ensures Inv(Exec(st, run))
    decreases |run|
  {
    hide Inv;
    hide Next;
    if run != [] {
      ExecKeeps(st, run[..|run| - 1]);
      NextKeeps(Exec(st, run[..|run| - 1]), run[|run| - 1]);
    }
  }

  lemma InitialHolds(kind: Kind, history: map<string, HistoryRow>, count: nat)
    ensures Inv(Initial(kind, history, count)) && Initial(kind, history, count).abandoned == {}
  {
    FleetsKeepInvariant(kind, history, count, []);
  }

  /**
   A job is lost iff some scheduler died holding it, or was refused the requeue that
   follows a failed completion. Nothing else any move does loses a job.
   */
  lemma LostIff(kind: Kind, history: map<string, HistoryRow>, count: nat, run: seq<Move>, id: string)
    ensures id in Exec(Initial(kind, history, count), run).abandoned <==>
      exists i :: 0 <= i < |run| && Loses(Exec(Initial(kind, history, count), run[..i]), run[i], id)
  {
    hide Loses;
    hide Inv;
    hide Exec;
    var st := Initial(kind, history, count);
    InitialHolds(kind, history, count);
    if id in Exec(st, run).abandoned {
      var i := LostHasCause(st, run, id);
    }
    if i :| 0 <= i < |run| && Loses(Exec(st, run[..i]), run[i], id) {
      CauseLoses(st, run, id, i);
    }
  }

  predicate Gentle(m: Move) { !m.Crash? && !(m.TryRequeue? && m.refused) }

  /** Where no scheduler dies and no requeue is refused, no job is lost. */
  lemma NothingLostWithoutFailure(kind: Kind, history: map<string, HistoryRow>, count: nat, run: seq<Move>)
    requires forall i :: 0 <= i < |run| ==> Gentle(run[i])
    ensures Exec(Initial(kind, history, count), run).abandoned == {}
  {
    hide Exec;
    hide Inv;
    var st := Initial(kind, history, count);
    InitialHolds(kind, history, count);
    if Exec(st, run).abandoned != {} {
      var id :| id in Exec(st, run).abandoned;
      var i := LostHasCause(st, run, id);
    }
  }

  /** The last thing a recovering scheduler did was to fail at completing the ticket it recovers. */
  lemma {:induction false} RecoveryFollowsFailure(kind: Kind, history: map<string, HistoryRow>, count: nat, run: seq<Move>, s: nat)
    returns (i: nat)
    requires var st := Exec(Initial(kind, history, count), run);
      s < |st.schedulers| && st.schedulers[s].Recovering?
    ensures i < |run| && run[i].TryComplete? && run[i].s == s
    ensures var past, now := Exec(Initial(kind, history, count), run[..i]), Exec(Initial(kind, history, count), run);
      && s < |past.schedulers| && Held(past.schedulers[s]) == Held(now.schedulers[s])
      && var t := now.schedulers[s].ticket;
         run[i].refused || Complete(past.world.db, t.id, t.revision, run[i].next, run[i].at, run[i].detail).Err?
    decreases |run|
  {
    var st0 := Initial(kind, history, count);
    assert run != [];
    var n := |run| - 1;
    var front := run[..n];
    var before := Exec(st0, front);
    assert Exec(st0, run) == Next(before, run[n]);
    if s < |before.schedulers| && before.schedulers[s].Recovering? && Next(before, run[n]).schedulers[s] == before.schedulers[s] {
      i := RecoveryFollowsFailure(kind, history, count, front, s);
      assert front[..i] == run[..i];
    } else {
      hide Step;
      hide Complete;
      hide Requeue;
      i := n;
    }
  }

  // ----------------------------------------------------------- what is not

  lemma ExecPush(st: State, run: seq<Move>, m: Move)
    ensures Exec(st, run + [m]) == Next(Exec(st, run), m)
  {
    assert (run + [m])[..|run|] == run;
  }

  lemma {:induction false} ExecConcat(st: State, run: seq<Move>, more: seq<Move>)
    ensures Exec(st, run + more) == Exec(Exec(st, run), more)
    decreases |more|
  {
    hide Next;
    if more == [] {
      assert run + more == run;
    } else {
      ExecConcat(st, run, more[..|more| - 1]);
      assert (run + more)[..|run + more| - 1] == run + more[..|more| - 1];
    }
  }

  lemma LiveRequeues(db: Db, t: Ticket, at: nat)
    requires Keyed(db.jobs) && Live(db.jobs, t)
    ensures Requeue(db, t.id, t.revision, at).Ok?
    ensures var after := Requeue(db, t.id, t.revision, at).value.jobs;
      t.id in after && after[t.id].state.Queued?
  {
  }

  lemma RequeueMoves(st: State, s: nat)
    requires s < |st.schedulers| && st.schedulers[s].Recovering?
    requires var t := st.schedulers[s].ticket; Requeue(st.world.db, t.id, t.revision, 0).Ok?
    ensures var t := st.schedulers[s].ticket;
      Next(st, TryRequeue(s, 0, false))
      == Set(st.(world := Step(st.world, RequeueJob(t.id, t.revision, 0))), s, Working(st.schedulers[s].rest))
  {
    hide Step;
    hide Requeue;
  }

  /** A scheduler whose completion is refused can still give its first ticket back. */
  lemma RecoverHead(st: State, s: nat) returns (m: Move)
    requires Inv(st) && s < |st.schedulers| && st.schedulers[s].Recovering?
    ensures var x := st.schedulers[s]; var st' := Next(st, m);
      && Gentle(m) && st'.schedulers == st.schedulers[s := Working(x.rest)] && st'.abandoned == st.abandoned
      && x.ticket.id in st'.world.db.jobs && st'.world.db.jobs[x.ticket.id].state.Queued?
  {
    m := TryRequeue(s, 0, false);
    hide Inv;
    hide Step;
    hide Requeue;
    hide Next;
    HeadIsLive(st, s);
    InvKeyed(st);
    var t := st.schedulers[s].ticket;
    LiveRequeues(st.world.db, t, 0);
    StepRequeues(st.world, t.id, t.revision, 0);
    RequeueMoves(st, s);
  }

  lemma FailHead(st: State, s: nat)
    requires s < |st.schedulers| && st.schedulers[s].Working? && st.schedulers[s].tickets != []
    ensures var tickets := st.schedulers[s].tickets;
      Next(st, TryComplete(s, Failed, 0, "", true)) == Set(st, s, Recovering(tickets[0], tickets[1..]))
  {
    hide Complete;
    hide Step;
  }

  lemma SettleHead(st: State, s: nat) returns (more: seq<Move>)
    requires Inv(st) && s < |st.schedulers| && Held(st.schedulers[s]) != []
    ensures forall i :: 0 <= i < |more| ==> Gentle(more[i])
    ensures var x := Held(st.schedulers[s]); var st' := Exec(st, more);
      && st'.schedulers == st.schedulers[s := Working(x[1..])] && st'.abandoned == st.abandoned
      && x[0].id in st'.world.db.jobs && st'.world.db.jobs[x[0].id].state.Queued?
  {
    hide Inv;
    hide Next;
    if st.schedulers[s].Recovering? {
      var m := RecoverHead(st, s);
      more := [m];
      ExecPush(st, [], m);
    } else {
      var fail := TryComplete(s, Failed, 0, "", true);
      var st1 := Next(st, fail);
      NextKeeps(st, fail);
      FailHead(st, s);
      var m := RecoverHead(st1, s);
      more := [fail, m];
      ExecPush(st, [], fail);
      ExecPush(st, [fail], m);
      assert [] + [fail] == [fail] && [fail] + [m] == more;
    }
  }

  lemma {:induction false} SettleHeld(st: State, s: nat, id: string) returns (more: seq<Move>)
    requires Inv(st) && s < |st.schedulers| && id in HeldIds(st.schedulers[s])
    ensures forall i :: 0 <= i < |more| ==> Gentle(more[i])
    ensures id in Exec(st, more).world.db.jobs && Exec(st, more).world.db.jobs[id].state.Queued?
    decreases |Held(st.schedulers[s])|
  {
    hide Inv;
    hide Next;
    var held := Held(st.schedulers[s]);
    more := SettleHead(st, s);
    if held[0].id != id {
      var st' := Exec(st, more);
      ExecKeeps(st, more);
      assert id in Ids(held[1..]) by {
        var t :| t in held && t.id == id;
        assert held == [held[0]] + held[1..];
      }
      var rest := SettleHeld(st', s, id);
      ExecConcat(st, more, rest);
      more := more + rest;
    }
  }

  /**
   Every dispatching job that is not lost is in some scheduler's hands, and the run can be
   continued, without any further failure, until the job can be claimed again.
   */
  lemma NotLostCanSettle(kind: Kind, history: map<string, HistoryRow>, count: nat, run: seq<Move>, id: string) returns (more: seq<Move>)
    requires var st := Exec(Initial(kind, history, count), run);
      id in st.world.db.jobs && st.world.db.jobs[id].state.Dispatching? && id !in st.abandoned
    ensures HeldBySome(Exec(Initial(kind, history, count), run).schedulers, id)
    ensures forall i :: 0 <= i < |more| ==> Gentle(more[i])
    ensures var later := Exec(Initial(kind, history, count), run + more);
      id in later.world.db.jobs && later.world.db.jobs[id].state.Queued?
  {
    OneHolderPerJob(kind, history, count, run, id);
    FleetsKeepInvariant(kind, history, count, run);
    hide Inv;
    hide Exec;
    var st := Exec(Initial(kind, history, count), run);
    var s :| 0 <= s < |st.schedulers| && id in HeldIds(st.schedulers[s]);
    more := SettleHeld(st, s, id);
    ExecConcat(Initial(kind, history, count), run, more);
  }

  // ------------------------------------------------------- two ways to lose

  lemma SingleClaim(db: Db, id: string, through: string)
    requires id in db.jobs && db.jobs.Keys == {id} && db.jobs[id].id == id && Due(db.jobs[id], through)
    ensures Selection(db, through, 1) == [id]
  {
    ClaimTakesFront(db, through, 0, 1);
  }

  /** One client enqueues a due video and one scheduler claims it. */
  function ClaimedRun(request: Request, due: string): seq<Move> {
    [Client(AllocateId), Client(InsertAllocated(1, request, 0)), StartPass(0, due, 0, 1)]
  }

  lemma EnqueuedAlone(request: Request)
    requires Validates(request)
    ensures var w := Step(Step(QueueRuns.Initial(Video, map[]), AllocateId), InsertAllocated(1, request, 0));
      w.db.jobs == map[Numbered("job", 1) := NewJob(Video, 1, request, 0)] && w.db.kind == Video
  {
  }

  lemma OneIsClaimed(request: Request, due: string)
    requires Validates(request) && !request.draft && request.scheduledAt == Some(due)
    ensures Exec(Initial(Video, map[], 1), ClaimedRun(request, due)).schedulers == [Working([Ticket(Numbered("job", 1), 1)])]
    ensures Exec(Initial(Video, map[], 1), ClaimedRun(request, due)).abandoned == {}
  {
    var st := Initial(Video, map[], 1);
    var a, b, c := Client(AllocateId), Client(InsertAllocated(1, request, 0)), StartPass(0, due, 0, 1);
    ExecPush(st, [], a);
    ExecPush(st, [a], b);
    ExecPush(st, [a, b], c);
    assert [] + [a] == [a] && [a] + [b] == [a, b] && [a, b] + [c] == ClaimedRun(request, due);
    var st2 := Exec(st, [a, b]);
    EnqueuedAlone(request);
    LexTotal(due, due);
    var id := Numbered("job", 1);
    hide Step;
    SingleClaim(st2.world.db, id, due);
    StepClaims(st2.world, due, 0, 1);
    ClaimTakesFront(st2.world.db, due, 0, 1);
    hide Selection;
    hide Claim;
    var st3 := Next(st2, c);
    assert st3.world.db.jobs[id].revision == 1;
    assert Tickets(st3.world.db, [id]) == [Ticket(id, 1)];
  }

  /** A scheduler that dies with the job in hand loses it; so does one refused both completion and requeue. */
  lemma TwoWaysToLose(request: Request, due: string)
    requires Validates(request) && !request.draft && request.scheduledAt == Some(due)
    ensures var st, run := Initial(Video, map[], 1), ClaimedRun(request, due);
      && Numbered("job", 1) in Exec(st, run + [Crash(0)]).abandoned
      && Numbered("job", 1) in Exec(st, run + [TryComplete(0, Published, 0, "", true), TryRequeue(0, 0, true)]).abandoned
  {
    var st, run := Initial(Video, map[], 1), ClaimedRun(request, due);
    OneIsClaimed(request, due);
    hide ClaimedRun;
    hide Step;
    var t := Ticket(Numbered("job", 1), 1);
    ExecPush(st, run, Crash(0));
    assert t in [t];
    var fail, refuse := TryComplete(0, Published, 0, "", true), TryRequeue(0, 0, true);
    ExecPush(st, run, fail);
    ExecPush(st, run + [fail], refuse);
    assert run + [fail] + [refuse] == run + [fail, refuse];
  }
}
