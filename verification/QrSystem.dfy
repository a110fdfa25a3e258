/**
 The terminal-QR service as a system of threads: requests and expiry timers run
 concurrently over one atomic slot counter and one locked table. Each thread has
 a program counter; an action runs one atomic step of one thread, lets time pass,
 or admits a new request.
 */
module QrSystem {
  import opened Platforms
  import opened Wrappers
  import opened QrTable
  import QrServer

  datatype Pc =
    // start: sweep, reserve, create a session, capture, insert, schedule
    | SweepLock(platform: Platform)
    | SweepNext(platform: Platform, pending: seq<Record>)
    | SweepRelease(platform: Platform, pending: seq<Record>)
    | LoadSlots(platform: Platform)
    | TryReserve(platform: Platform, seen: nat)
    | OpenSession(platform: Platform)
    | Navigate(platform: Platform, attempt: nat)
    | FirstCapture(platform: Platform, attempt: nat)
    | ComparePlatform(platform: Platform, attempt: nat)
    | Capture(platform: Platform, attempt: nat)
    | Insert(platform: Platform, attempt: nat)
    | ScheduleExpiry(token: Token)
    // the tail every path that owns an attempt ends with
    | Close(attempt: nat)
    | Release
    // the other requests and the expiry timer
    | RefreshLock(platform: Platform, token: Token)
    | CancelLock(platform: Platform, token: Token)
    | Sleeping(token: Token, wakeAt: nat)
    | Done

  datatype Event = Opened(id: nat) | CaptureOf(id: nat) | Closed(id: nat)

  datatype State = State(
    lifetime: nat,
    slots: nat,
    table: Table,
    now: nat,
    created: nat,
    trace: seq<Event>,
    threads: seq<Pc>)

  /** What the outside decides for one step: replies, map order, the fresh token, weak CAS failures. */
  datatype Choice = Succeed | Fail | Pick(tokens: seq<Token>)

  datatype Action =
    | Run(tid: nat, choice: Choice)
    | Elapse(ticks: nat)
    | CallStart(platform: Platform)
    | CallRefresh(platform: Platform, token: Token)
    | CallCancel(platform: Platform, token: Token)

  function Initial(lifetime: nat): State {
    State(lifetime, 0, map[], 0, 0, [], [])
  }

  function Goto(s: State, tid: nat, pc: Pc): State
    requires tid < |s.threads|
  {
    s.(threads := s.threads[tid := pc])
  }

  function Log(s: State, e: Event): State {
    s.(trace := s.trace + [e])
  }

  /** The counter update of `release_slot`: a checked decrement that leaves zero alone. */
  function Released(slots: nat): nat {
    if slots == 0 then 0 else slots - 1
  }

  /** One atomic step of thread `tid`; a choice that does not fit the step leaves it where it is. */
  ghost function StepThread(s: State, tid: nat, c: Choice): State
    requires tid < |s.threads|
  {
    match s.threads[tid]
    case SweepLock(p) =>
      if c.Pick? && ListsExpired(s.table, s.now, s.lifetime, c.tokens) then
        var (rest, removed) := RemoveAll(s.table, c.tokens);
        Goto(s.(table := rest), tid, SweepNext(p, removed))
      else s
    case SweepNext(p, pending) =>
      if pending == [] then Goto(s, tid, LoadSlots(p))
      else Goto(Log(s, Closed(pending[0].attempt)), tid, SweepRelease(p, pending[1..]))
    case SweepRelease(p, pending) =>
      Goto(s.(slots := Released(s.slots)), tid, SweepNext(p, pending))
    case LoadSlots(p) => Goto(s, tid, TryReserve(p, s.slots))
    case TryReserve(p, seen) =>
      if seen >= MAX_ACTIVE then Goto(s, tid, Done)
      else if seen == s.slots && c.Succeed? then Goto(s.(slots := seen + 1), tid, OpenSession(p))
      else Goto(s, tid, TryReserve(p, s.slots))
    case OpenSession(p) =>
      if c.Succeed?
      then Goto(Log(s, Opened(s.created)).(created := s.created + 1), tid, Navigate(p, s.created))
      else Goto(s, tid, Release)
    case Navigate(p, a) => Goto(s, tid, if c.Succeed? then FirstCapture(p, a) else Close(a))
    case FirstCapture(p, a) =>
      Goto(Log(s, CaptureOf(a)), tid, if c.Succeed? then ComparePlatform(p, a) else Close(a))
    case ComparePlatform(p, a) => Goto(s, tid, if c.Succeed? then Capture(p, a) else Close(a))
    case Capture(p, a) =>
      Goto(Log(s, CaptureOf(a)), tid, if c.Succeed? then Insert(p, a) else Close(a))
    case Insert(p, a) =>
      if c.Pick? && |c.tokens| == 1 && c.tokens[0] !in s.table then
        Goto(s.(table := s.table[c.tokens[0] := Record(p, s.now, a)]), tid, ScheduleExpiry(c.tokens[0]))
      else s
    case ScheduleExpiry(t) =>
      Goto(s, tid, Done).(threads := s.threads[tid := Done] + [Sleeping(t, s.now + s.lifetime)])
    case Close(a) => Goto(Log(s, Closed(a)), tid, Release)
    case Release => Goto(s.(slots := Released(s.slots)), tid, Done)
    case RefreshLock(p, t) =>
      var (rest, removed, verdict) := LockedRefresh(s.table, p, t, s.now, s.lifetime, c.Succeed?);
      var s' := if verdict.Captured? || verdict.CaptureFailed?
                then Log(s, CaptureOf(s.table[t].attempt)) else s;
      Goto(s'.(table := rest), tid, if removed.Some? then Close(removed.value.attempt) else Done)
    case CancelLock(p, t) =>
      var (rest, removed) := LockedCancel(s.table, p, t);
      Goto(s.(table := rest), tid, if removed.Some? then Close(removed.value.attempt) else Done)
    case Sleeping(t, wakeAt) =>
      if s.now < wakeAt then s
      else
        var (rest, removed) := LockedExpiry(s.table, t, s.now, s.lifetime);
        Goto(s.(table := rest), tid, if removed.Some? then Close(removed.value.attempt) else Done)
    case Done => s
  }

  ghost function Step(s: State, a: Action): State {
    match a
    case Run(tid, c) => if tid < |s.threads| then StepThread(s, tid, c) else s
    case Elapse(ticks) => s.(now := s.now + ticks)
    case CallStart(p) => s.(threads := s.threads + [SweepLock(p)])
    case CallRefresh(p, t) => s.(threads := s.threads + [RefreshLock(p, t)])
    case CallCancel(p, t) => s.(threads := s.threads + [CancelLock(p, t)])
  }

  /** The state after any interleaving. */
  ghost function Exec(s: State, run: seq<Action>): State
    decreases |run|
  {
    if run == [] then s else Step(Exec(s, run[..|run| - 1]), run[|run| - 1])
  }

  // ---------------------------------------------------------------- weights

  /** Slots a thread has reserved or taken over and not given back yet. */
  function SlotsOf(pc: Pc): nat {
    match pc
    case SweepNext(_, pending) => |pending|
    case SweepRelease(_, pending) => |pending| + 1
    case OpenSession(_) | Navigate(_, _) | FirstCapture(_, _) | ComparePlatform(_, _)
       | Capture(_, _) | Insert(_, _) | Close(_) | Release => 1
    case _ => 0
  }

  /** Sessions in a thread's hands whose close has not been called yet. */
  function UnclosedOf(pc: Pc): nat {
    match pc
    case SweepNext(_, pending) => |pending|
    case SweepRelease(_, pending) => |pending|
    case Navigate(_, _) | FirstCapture(_, _) | ComparePlatform(_, _)
       | Capture(_, _) | Insert(_, _) | Close(_) => 1
    case _ => 0
  }

  /** How often a thread holds session `id` unclosed. */
  function HoldsOf(pc: Pc, id: nat): nat {
    match pc
    case SweepNext(_, pending) => CountOf(pending, id)
    case SweepRelease(_, pending) => CountOf(pending, id)
    case Navigate(_, a) => if a == id then 1 else 0
    case FirstCapture(_, a) => if a == id then 1 else 0
    case ComparePlatform(_, a) => if a == id then 1 else 0
    case Capture(_, a) => if a == id then 1 else 0
    case Insert(_, a) => if a == id then 1 else 0
    case Close(a) => if a == id then 1 else 0
    case _ => 0
  }

  function Holding(id: nat): Pc -> nat { (pc: Pc) => HoldsOf(pc, id) }

  function Sum(threads: seq<Pc>, f: Pc -> nat): nat {
    if threads == [] then 0 else f(threads[0]) + Sum(threads[1..], f)
  }

  lemma {:induction false} SumUpdate(threads: seq<Pc>, tid: nat, pc: Pc, f: Pc -> nat)
    requires tid < |threads|
    ensures Sum(threads[tid := pc], f) + f(threads[tid]) == Sum(threads, f) + f(pc)
    ensures Sum(threads, f) >= f(threads[tid])
  {
    if tid == 0 {
      assert threads[0 := pc][1..] == threads[1..];
    } else {
      SumUpdate(threads[1..], tid - 1, pc, f);
      assert threads[tid := pc][1..] == threads[1..][tid - 1 := pc];
    }
  }

  lemma {:induction false} SumAppend(threads: seq<Pc>, pc: Pc, f: Pc -> nat)
    ensures Sum(threads + [pc], f) == Sum(threads, f) + f(pc)
  {
    if threads != [] {
      SumAppend(threads[1..], pc, f);
      assert (threads + [pc])[1..] == threads[1..] + [pc];
    }
  }

  lemma {:induction false} SumBelow(threads: seq<Pc>)
    ensures Sum(threads, UnclosedOf) <= Sum(threads, SlotsOf)
  {
    if threads != [] { SumBelow(threads[1..]); }
  }

  function ClosedCount(trace: seq<Event>): nat {
    if trace == [] then 0
    else ClosedCount(trace[..|trace| - 1]) + (if trace[|trace| - 1].Closed? then 1 else 0)
  }

  // -------------------------------------------------------------- invariant

  /** Every slot is accounted for by a record or by a thread, and no more than four exist. */
  ghost predicate SlotsConserved(s: State) {
    s.slots == |s.table| + Sum(s.threads, SlotsOf) <= MAX_ACTIVE
  }

  /** Every session opened is closed, recorded, or in some thread's hands. */
  ghost predicate SessionsConserved(s: State) {
    s.created == ClosedCount(s.trace) + |s.table| + Sum(s.threads, UnclosedOf)
  }

  /** ... and each is in exactly one of these places, once. */
  ghost predicate Accounted(s: State, id: nat) {
    multiset(s.trace)[Closed(id)] + TableHas(s.table, id) + Sum(s.threads, Holding(id))
      == if id < s.created then 1 else 0
  }

  ghost predicate EachAccounted(s: State) {
    forall id: nat :: Accounted(s, id)
  }

  /** Nothing is captured or closed once it has been closed. */
  ghost predicate NoUseAfterClose(trace: seq<Event>) {
    forall i, j :: 0 <= i < j < |trace| && trace[i].Closed? ==> trace[j].id != trace[i].id
  }

  /** A thread that will look at `token` once `r` has expired. */
  predicate Guards(pc: Pc, token: Token, r: Record, lifetime: nat) {
    pc == ScheduleExpiry(token)
    || (pc.Sleeping? && pc.token == token && pc.wakeAt >= r.createdAt + lifetime)
  }

  ghost predicate Guarded(s: State, token: Token)
    requires token in s.table
  {
    exists i :: 0 <= i < |s.threads| && Guards(s.threads[i], token, s.table[token], s.lifetime)
  }

  ghost predicate TimersCover(s: State) {
    && (forall t :: t in s.table ==> s.table[t].createdAt <= s.now)
    && (forall t :: t in s.table ==> Guarded(s, t))
  }

  ghost predicate Conserved(s: State) {
    && Injective(s.table)
    && SlotsConserved(s)
    && SessionsConserved(s)
    && EachAccounted(s)
    && NoUseAfterClose(s.trace)
  }

  ghost predicate Inv(s: State) {
    Conserved(s) && TimersCover(s)
  }

  // ---------------------------------------------------------------- steps

  /** What one thread step does to the three sums. */
  lemma Moved(s: State, tid: nat, pc: Pc)
    requires tid < |s.threads|
    ensures Sum(s.threads[tid := pc], SlotsOf) + SlotsOf(s.threads[tid]) == Sum(s.threads, SlotsOf) + SlotsOf(pc)
    ensures Sum(s.threads, SlotsOf) >= SlotsOf(s.threads[tid])
    ensures Sum(s.threads[tid := pc], UnclosedOf) + UnclosedOf(s.threads[tid]) == Sum(s.threads, UnclosedOf) + UnclosedOf(pc)
    ensures forall id: nat ::
      && Sum(s.threads[tid := pc], Holding(id)) + HoldsOf(s.threads[tid], id) == Sum(s.threads, Holding(id)) + HoldsOf(pc, id)
      && Sum(s.threads, Holding(id)) >= HoldsOf(s.threads[tid], id)
  {
    SumUpdate(s.threads, tid, pc, SlotsOf);
    SumUpdate(s.threads, tid, pc, UnclosedOf);
    forall id: nat
      ensures Sum(s.threads[tid := pc], Holding(id)) + HoldsOf(s.threads[tid], id) == Sum(s.threads, Holding(id)) + HoldsOf(pc, id)
      ensures Sum(s.threads, Holding(id)) >= HoldsOf(s.threads[tid], id)
    {
      SumUpdate(s.threads, tid, pc, Holding(id));
    }
  }

  /** Appending an event of a session not closed so far keeps the discipline. */
  lemma LogKeeps(trace: seq<Event>, e: Event)
    requires NoUseAfterClose(trace) && Closed(e.id) !in trace
    ensures NoUseAfterClose(trace + [e])
    ensures ClosedCount(trace + [e]) == ClosedCount(trace) + (if e.Closed? then 1 else 0)
    ensures forall id: nat :: multiset(trace + [e])[Closed(id)]
              == multiset(trace)[Closed(id)] + (if e == Closed(id) then 1 else 0)
  {
    assert (trace + [e])[..|trace|] == trace;
    forall i, j | 0 <= i < j < |trace + [e]| && (trace + [e])[i].Closed?
      ensures (trace + [e])[j].id != (trace + [e])[i].id
    {
      if j == |trace| {
        assert trace[i] in trace;
        assert trace[i] == Closed(trace[i].id);
      }
    }
  }

  function Born(s: State, id: nat): nat { if id < s.created then 1 else 0 }

  /**
   A step of one thread keeps the conservation laws when what it takes from the
   counter, the table and the trace is what its program counter gains.
   */
  lemma Rebalance(s: State, s': State, tid: nat, pc: Pc)
    requires Conserved(s) && tid < |s.threads| && s'.threads == s.threads[tid := pc]
    requires Injective(s'.table) && NoUseAfterClose(s'.trace)
    requires s'.slots + |s.table| + SlotsOf(s.threads[tid]) == s.slots + |s'.table| + SlotsOf(pc)
    requires s'.slots <= MAX_ACTIVE
    requires s'.created + ClosedCount(s.trace) + |s.table| + UnclosedOf(s.threads[tid])
          == s.created + ClosedCount(s'.trace) + |s'.table| + UnclosedOf(pc)
    requires forall id: nat ::
      multiset(s'.trace)[Closed(id)] + TableHas(s'.table, id) + HoldsOf(pc, id) + Born(s, id)
      == multiset(s.trace)[Closed(id)] + TableHas(s.table, id) + HoldsOf(s.threads[tid], id) + Born(s', id)
    ensures Conserved(s')
  {
    Moved(s, tid, pc);
    forall id: nat ensures Accounted(s', id) {
      assert Accounted(s, id);
    }
  }

  /** A session a thread holds, or the table records, has not been closed. */
  lemma HeldIsOpen(s: State, tid: nat, id: nat)
    requires EachAccounted(s)
    requires (tid < |s.threads| && HoldsOf(s.threads[tid], id) > 0) || InTable(s.table, id)
    ensures id < s.created && Closed(id) !in s.trace && multiset(s.trace)[Closed(id)] == 0
    ensures tid < |s.threads| && HoldsOf(s.threads[tid], id) > 0 ==> !InTable(s.table, id)
  {
    assert Accounted(s, id);
    if tid < |s.threads| {
      SumUpdate(s.threads, tid, s.threads[tid], Holding(id));
    }
    assert Closed(id) in s.trace <==> multiset(s.trace)[Closed(id)] > 0;
  }

  /** A locked section that may hand one record over to the thread that ran it. */
  lemma HandOver(s: State, s0: State, tid: nat, rest: Table, removed: Option<Record>)
    requires Conserved(s) && tid < |s.threads| && Conserved(s0)
    requires s0 == s.(trace := s0.trace)
    requires SlotsOf(s.threads[tid]) == UnclosedOf(s.threads[tid]) == 0
    requires forall id: nat :: HoldsOf(s.threads[tid], id) == 0
    requires match removed
             case None => rest == s.table
             case Some(r) => exists t :: t in s.table && s.table[t] == r && rest == s.table - {t}
    ensures Conserved(Goto(s0.(table := rest), tid,
                           if removed.Some? then Close(removed.value.attempt) else Done))
  {
    var pc := if removed.Some? then Close(removed.value.attempt) else Done;
    var s' := Goto(s0.(table := rest), tid, pc);
    if removed.Some? {
      var t :| t in s.table && s.table[t] == removed.value && rest == s.table - {t};
      RemoveOne(s.table, t, 0);
      forall id: nat ensures
        multiset(s'.trace)[Closed(id)] + TableHas(s'.table, id) + HoldsOf(pc, id) + Born(s0, id)
        == multiset(s0.trace)[Closed(id)] + TableHas(s0.table, id) + HoldsOf(s0.threads[tid], id) + Born(s', id)
      {
        RemoveOne(s.table, t, id);
      }
    }
    Rebalance(s0, s', tid, pc);
  }

  lemma CaptureKeeps(s: State, tid: nat, a: nat)
    requires Conserved(s) && ((tid < |s.threads| && HoldsOf(s.threads[tid], a) > 0) || InTable(s.table, a))
    ensures Conserved(Log(s, CaptureOf(a)))
  {
    HeldIsOpen(s, tid, a);
    LogKeeps(s.trace, CaptureOf(a));
    var s' := Log(s, CaptureOf(a));
    forall id: nat ensures Accounted(s', id) {
      assert Accounted(s, id);
    }
  }

  lemma CloseKeeps(s: State, tid: nat, a: nat, pc: Pc)
    requires Conserved(s) && tid < |s.threads|
    requires SlotsOf(pc) == SlotsOf(s.threads[tid])
    requires UnclosedOf(pc) + 1 == UnclosedOf(s.threads[tid])
    requires forall id: nat :: HoldsOf(pc, id) + (if id == a then 1 else 0) == HoldsOf(s.threads[tid], id)
    ensures Conserved(Goto(Log(s, Closed(a)), tid, pc))
  {
    assert HoldsOf(s.threads[tid], a) > 0;
    HeldIsOpen(s, tid, a);
    LogKeeps(s.trace, Closed(a));
    assert Injective(s.table) && s.slots <= MAX_ACTIVE;
    hide Conserved;
    hide NoUseAfterClose;
    hide Injective;
    hide TableHas;
    hide ClosedCount;
    hide Sum;
    Rebalance(s, Goto(Log(s, Closed(a)), tid, pc), tid, pc);
  }

  lemma ReleaseKeeps(s: State, tid: nat, pc: Pc)
    requires Conserved(s) && tid < |s.threads|
    requires SlotsOf(pc) + 1 == SlotsOf(s.threads[tid])
    requires UnclosedOf(pc) == UnclosedOf(s.threads[tid])
    requires forall id: nat :: HoldsOf(pc, id) == HoldsOf(s.threads[tid], id)
    ensures s.slots > 0
    ensures Conserved(Goto(s.(slots := Released(s.slots)), tid, pc))
  {
    Moved(s, tid, pc);
    Rebalance(s, Goto(s.(slots := Released(s.slots)), tid, pc), tid, pc);
  }

  lemma SweepKeeps(s: State, tid: nat, p: Platform, tokens: seq<Token>)
    requires Conserved(s) && tid < |s.threads| && s.threads[tid] == SweepLock(p)
    ensures var (rest, removed) := RemoveAll(s.table, tokens);
            Conserved(Goto(s.(table := rest), tid, SweepNext(p, removed)))
  {
    var (rest, removed) := RemoveAll(s.table, tokens);
    RemoveAllConserves(s.table, tokens);
    Rebalance(s, Goto(s.(table := rest), tid, SweepNext(p, removed)), tid, SweepNext(p, removed));
  }

  function Opening(s: State, tid: nat, p: Platform): State
    requires tid < |s.threads|
  {
    Goto(Log(s, Opened(s.created)).(created := s.created + 1), tid, Navigate(p, s.created))
  }

  /** The new session is the opening thread's, and in no other account. */
  lemma OpenBalances(s: State, tid: nat, p: Platform, id: nat)
    requires tid < |s.threads| && s.threads[tid] == OpenSession(p)
    ensures var s' := Opening(s, tid, p);
      multiset(s'.trace)[Closed(id)] + HoldsOf(Navigate(p, s.created), id) + Born(s, id)
      == multiset(s.trace)[Closed(id)] + HoldsOf(s.threads[tid], id) + Born(s', id)
  {
  }

  lemma OpenKeeps(s: State, tid: nat, p: Platform)
    requires Conserved(s) && tid < |s.threads| && s.threads[tid] == OpenSession(p)
    ensures Conserved(Opening(s, tid, p))
  {
    var s' := Opening(s, tid, p);
    NotClosedYet(s);
    LogKeeps(s.trace, Opened(s.created));
    assert Injective(s.table) && s.slots <= MAX_ACTIVE;
    hide Conserved;
    hide NoUseAfterClose;
    hide Injective;
    hide TableHas;
    hide ClosedCount;
    hide Sum;
    hide HoldsOf;
    hide Born;
    forall id: nat ensures
      multiset(s'.trace)[Closed(id)] + TableHas(s'.table, id) + HoldsOf(Navigate(p, s.created), id) + Born(s, id)
      == multiset(s.trace)[Closed(id)] + TableHas(s.table, id) + HoldsOf(s.threads[tid], id) + Born(s', id)
    {
      OpenBalances(s, tid, p, id);
    }
    Rebalance(s, s', tid, Navigate(p, s.created));
  }

  lemma NotClosedYet(s: State)
    requires EachAccounted(s)
    ensures Closed(s.created) !in s.trace
  {
    assert Accounted(s, s.created);
    assert Closed(s.created) in s.trace <==> multiset(s.trace)[Closed(s.created)] > 0;
  }

  lemma InsertKeeps(s: State, tid: nat, p: Platform, a: nat, t: Token)
    requires Conserved(s) && tid < |s.threads| && s.threads[tid] == Insert(p, a) && t !in s.table
    ensures Conserved(Goto(s.(table := s.table[t := Record(p, s.now, a)]), tid, ScheduleExpiry(t)))
  {
    var r := Record(p, s.now, a);
    var s' := Goto(s.(table := s.table[t := r]), tid, ScheduleExpiry(t));
    HeldIsOpen(s, tid, a);
    InsertOne(s.table, t, r, 0);
    forall id: nat ensures
      multiset(s'.trace)[Closed(id)] + TableHas(s'.table, id) + HoldsOf(ScheduleExpiry(t), id) + Born(s, id)
      == multiset(s.trace)[Closed(id)] + TableHas(s.table, id) + HoldsOf(s.threads[tid], id) + Born(s', id)
    {
      InsertOne(s.table, t, r, id);
    }
    Rebalance(s, s', tid, ScheduleExpiry(t));
  }

  /** A new thread that holds nothing changes no account. */
  lemma SpawnKeeps(s: State, pc: Pc)
    requires Conserved(s)
    requires SlotsOf(pc) == UnclosedOf(pc) == 0 && forall id: nat :: HoldsOf(pc, id) == 0
    ensures Conserved(s.(threads := s.threads + [pc]))
  {
    SumAppend(s.threads, pc, SlotsOf);
    SumAppend(s.threads, pc, UnclosedOf);
    forall id: nat ensures Accounted(s.(threads := s.threads + [pc]), id) {
      assert Accounted(s, id);
      SumAppend(s.threads, pc, Holding(id));
    }
  }

  lemma RefreshKeeps(s: State, tid: nat, c: Choice)
    requires Conserved(s) && tid < |s.threads| && s.threads[tid].RefreshLock?
    ensures Conserved(StepThread(s, tid, c))
  {
    var RefreshLock(p, t) := s.threads[tid];
    var (rest, removed, verdict) := LockedRefresh(s.table, p, t, s.now, s.lifetime, c.Succeed?);
    assert removed.Some? ==> t in s.table && s.table[t] == removed.value && rest == s.table - {t};
    assert removed.None? ==> rest == s.table;
    if verdict.Captured? || verdict.CaptureFailed? {
      var a := s.table[t].attempt;
      assert InTable(s.table, a);
      hide Conserved;
      hide LockedRefresh;
      CaptureKeeps(s, |s.threads|, a);
      HandOver(s, Log(s, CaptureOf(a)), tid, rest, removed);
    } else {
      hide Conserved;
      hide LockedRefresh;
      HandOver(s, s, tid, rest, removed);
    }
  }

  lemma LocalStepKeeps(s: State, tid: nat, pc: Pc)
    requires Conserved(s) && tid < |s.threads|
    requires SlotsOf(pc) == SlotsOf(s.threads[tid]) && UnclosedOf(pc) == UnclosedOf(s.threads[tid])
    requires forall id: nat :: HoldsOf(pc, id) == HoldsOf(s.threads[tid], id)
    ensures Conserved(Goto(s, tid, pc))
  {
    Rebalance(s, Goto(s, tid, pc), tid, pc);
  }

  predicate Reserving(pc: Pc) {
    pc.SweepLock? || pc.SweepNext? || pc.SweepRelease? || pc.LoadSlots? || pc.TryReserve?
  }

  predicate InSession(pc: Pc) {
    pc.OpenSession? || pc.Navigate? || pc.FirstCapture? || pc.ComparePlatform? || pc.Capture?
  }

  predicate UnderLock(pc: Pc) {
    pc.Insert? || pc.RefreshLock? || pc.CancelLock? || pc.Sleeping?
  }

  lemma ReserveKeeps(s: State, tid: nat, p: Platform)
    requires Conserved(s) && tid < |s.threads| && s.slots < MAX_ACTIVE && s.threads[tid] == TryReserve(p, s.slots)
    ensures Conserved(Goto(s.(slots := s.slots + 1), tid, OpenSession(p)))
  {
    Rebalance(s, Goto(s.(slots := s.slots + 1), tid, OpenSession(p)), tid, OpenSession(p));
  }

  lemma ReserveStepConserves(s: State, tid: nat, c: Choice)
    requires Conserved(s) && tid < |s.threads|
    requires Reserving(s.threads[tid])
    ensures Conserved(StepThread(s, tid, c))
  {
    hide Conserved;
    match s.threads[tid]
    case SweepLock(p) =>
      if c.Pick? { SweepKeeps(s, tid, p, c.tokens); }
    case SweepNext(p, pending) =>
      if pending == [] {
        LocalStepKeeps(s, tid, LoadSlots(p));
      } else {
        CloseKeeps(s, tid, pending[0].attempt, SweepRelease(p, pending[1..]));
      }
    case SweepRelease(p, pending) => ReleaseKeeps(s, tid, SweepNext(p, pending));
    case LoadSlots(p) => LocalStepKeeps(s, tid, TryReserve(p, s.slots));
    case TryReserve(p, seen) =>
      if seen < MAX_ACTIVE && seen == s.slots && c.Succeed? {
        ReserveKeeps(s, tid, p);
      } else {
        LocalStepKeeps(s, tid, if seen >= MAX_ACTIVE then Done else TryReserve(p, s.slots));
      }
  }

  lemma SessionStepConserves(s: State, tid: nat, c: Choice)
    requires Conserved(s) && tid < |s.threads|
    requires InSession(s.threads[tid])
    ensures Conserved(StepThread(s, tid, c))
  {
    hide Conserved;
    match s.threads[tid]
    case OpenSession(p) =>
      if c.Succeed? { OpenKeeps(s, tid, p); } else { LocalStepKeeps(s, tid, Release); }
    case Navigate(p, a) => LocalStepKeeps(s, tid, if c.Succeed? then FirstCapture(p, a) else Close(a));
    case FirstCapture(p, a) =>
      CaptureKeeps(s, tid, a);
      LocalStepKeeps(Log(s, CaptureOf(a)), tid, if c.Succeed? then ComparePlatform(p, a) else Close(a));
    case ComparePlatform(p, a) => LocalStepKeeps(s, tid, if c.Succeed? then Capture(p, a) else Close(a));
    case Capture(p, a) =>
      CaptureKeeps(s, tid, a);
      LocalStepKeeps(Log(s, CaptureOf(a)), tid, if c.Succeed? then Insert(p, a) else Close(a));
  }

  lemma TableStepConserves(s: State, tid: nat, c: Choice)
    requires Conserved(s) && tid < |s.threads|
    requires UnderLock(s.threads[tid])
    ensures Conserved(StepThread(s, tid, c))
  {
    hide Conserved;
    match s.threads[tid]
    case Insert(p, a) =>
      if c.Pick? && |c.tokens| == 1 && c.tokens[0] !in s.table {
        InsertKeeps(s, tid, p, a, c.tokens[0]);
      }
    case RefreshLock(_, _) => RefreshKeeps(s, tid, c);
    case CancelLock(p, t) =>
      var (rest, removed) := LockedCancel(s.table, p, t);
      HandOver(s, s, tid, rest, removed);
    case Sleeping(t, wakeAt) =>
      if s.now >= wakeAt {
        var (rest, removed) := LockedExpiry(s.table, t, s.now, s.lifetime);
        HandOver(s, s, tid, rest, removed);
      }
  }

  lemma TailStepConserves(s: State, tid: nat, c: Choice)
    requires Conserved(s) && tid < |s.threads|
    requires s.threads[tid].ScheduleExpiry? || s.threads[tid].Close? || s.threads[tid].Release? || s.threads[tid].Done?
    ensures Conserved(StepThread(s, tid, c))
  {
    hide Conserved;
    match s.threads[tid]
    case ScheduleExpiry(t) =>
      LocalStepKeeps(s, tid, Done);
      SpawnKeeps(Goto(s, tid, Done), Sleeping(t, s.now + s.lifetime));
    case Close(a) => CloseKeeps(s, tid, a, Release);
    case Release => ReleaseKeeps(s, tid, Done);
    case Done =>
  }

  /** Every thread step, whatever the other threads are in the middle of, keeps the laws. */
  lemma StepConserves(s: State, tid: nat, c: Choice)
    requires Conserved(s) && tid < |s.threads|
    ensures Conserved(StepThread(s, tid, c))
  {
    var pc := s.threads[tid];
    var kinds := Reserving(pc) || InSession(pc) || UnderLock(pc)
              || pc.ScheduleExpiry? || pc.Close? || pc.Release? || pc.Done?;
    assert kinds;
    hide StepThread;
    hide Conserved;
    if Reserving(pc) {
      ReserveStepConserves(s, tid, c);
    } else if InSession(pc) {
      SessionStepConserves(s, tid, c);
    } else if UnderLock(pc) {
      TableStepConserves(s, tid, c);
    } else {
      TailStepConserves(s, tid, c);
    }
  }

  // ---------------------------------------------------------------- timers

  /** A step moves only its own thread's program counter. */
  lemma OthersStay(s: State, tid: nat, c: Choice)
    requires tid < |s.threads|
    ensures var s' := StepThread(s, tid, c);
      && |s.threads| <= |s'.threads| && s'.lifetime == s.lifetime && s'.now == s.now
      && forall i :: 0 <= i < |s.threads| && i != tid ==> s'.threads[i] == s.threads[i]
  {
  }

  /** A guard that steps either keeps guarding, passes the duty on, or evicts the record. */
  lemma GuardSteps(s: State, tid: nat, c: Choice, t: Token)
    requires tid < |s.threads| && t in s.table && s.table[t].createdAt <= s.now
    requires Guards(s.threads[tid], t, s.table[t], s.lifetime)
    ensures var s' := StepThread(s, tid, c);
      t in s'.table ==> exists j :: 0 <= j < |s'.threads| && Guards(s'.threads[j], t, s.table[t], s.lifetime)
  {
    var s' := StepThread(s, tid, c);
    if s.threads[tid].ScheduleExpiry? {
      assert s'.threads[|s.threads|] == Sleeping(t, s.now + s.lifetime);
    } else if s.now < s.threads[tid].wakeAt {
      assert s'.threads[tid] == s.threads[tid];
    } else {
      assert Expired(s.table[t], s.now, s.lifetime);
    }
  }

  /** A record that stays in the table keeps a thread that will look at it after its lifetime. */
  lemma GuardSurvives(s: State, tid: nat, c: Choice, t: Token)
    requires TimersCover(s) && tid < |s.threads|
    requires t in s.table && t in StepThread(s, tid, c).table && StepThread(s, tid, c).table[t] == s.table[t]
    ensures Guarded(StepThread(s, tid, c), t)
  {
    var s' := StepThread(s, tid, c);
    assert Guarded(s, t);
    var i :| 0 <= i < |s.threads| && Guards(s.threads[i], t, s.table[t], s.lifetime);
    OthersStay(s, tid, c);
    if i == tid {
      GuardSteps(s, tid, c, t);
    } else {
      hide StepThread;
      assert s'.threads[i] == s.threads[i];
    }
  }

  /** What a step leaves under a token is what was there, or a record inserted by that step. */
  lemma TableStep(s: State, tid: nat, c: Choice, t: Token)
    requires Injective(s.table) && tid < |s.threads| && t in StepThread(s, tid, c).table
    ensures var s' := StepThread(s, tid, c);
            (t in s.table && s'.table[t] == s.table[t])
            || (s.threads[tid].Insert? && t !in s.table && s'.threads[tid] == ScheduleExpiry(t) && s'.table[t].createdAt == s.now)
  {
    if s.threads[tid].SweepLock? && c.Pick? { RemoveAllConserves(s.table, c.tokens); }
  }

  lemma StepKeepsTimers(s: State, tid: nat, c: Choice)
    requires Injective(s.table) && TimersCover(s) && tid < |s.threads|
    ensures TimersCover(StepThread(s, tid, c))
  {
    var s' := StepThread(s, tid, c);
    forall t | t in s'.table ensures Guarded(s', t) && s'.table[t].createdAt <= s'.now {
      TableStep(s, tid, c, t);
      if t in s.table && s'.table[t] == s.table[t] {
        GuardSurvives(s, tid, c, t);
      } else {
        assert Guards(s'.threads[tid], t, s'.table[t], s'.lifetime);
      }
    }
  }

  lemma OtherActionsKeep(s: State, a: Action)
    requires Inv(s) && !a.Run?
    ensures Inv(Step(s, a))
  {
    var s' := Step(s, a);
    if !a.Elapse? {
      SpawnKeeps(s, s'.threads[|s.threads|]);
    } else {
      forall id: nat ensures Accounted(s', id) { assert Accounted(s, id); }
    }
    forall t | t in s'.table ensures Guarded(s', t) {
      assert Guarded(s, t);
      var i :| 0 <= i < |s.threads| && Guards(s.threads[i], t, s.table[t], s.lifetime);
      assert s'.threads[i] == s.threads[i];
    }
  }

  // ------------------------------------------------------------- the theorems

  /** Every reachable state satisfies the invariant, whatever the interleaving. */
  lemma {:induction false} RunsKeepInvariant(lifetime: nat, run: seq<Action>)
    ensures Inv(Exec(Initial(lifetime), run))
    decreases |run|
  {
    var s0 := Initial(lifetime);
    if run == [] {
      forall id: nat ensures Accounted(s0, id) { }
    } else {
      var before, a := run[..|run| - 1], run[|run| - 1];
      RunsKeepInvariant(lifetime, before);
      var s := Exec(s0, before);
      if a.Run? && a.tid < |s.threads| {
        StepConserves(s, a.tid, a.choice);
        StepKeepsTimers(s, a.tid, a.choice);
      } else if !a.Run? {
        OtherActionsKeep(s, a);
      }
    }
  }

  /**
   In every interleaving the counter equals recorded attempts plus slots in
   threads' hands, never exceeds four, and is positive whenever a thread is about
   to decrement it, so the checked subtraction never hits zero.
   */
  lemma SlotsAreConserved(lifetime: nat, run: seq<Action>, tid: nat)
    ensures var s := Exec(Initial(lifetime), run);
      && s.slots == |s.table| + Sum(s.threads, SlotsOf) <= 4
      && (tid < |s.threads| && (s.threads[tid].Release? || s.threads[tid].SweepRelease?) ==> s.slots > 0)
  {
    RunsKeepInvariant(lifetime, run);
    var s := Exec(Initial(lifetime), run);
    if tid < |s.threads| {
      SumUpdate(s.threads, tid, s.threads[tid], SlotsOf);
    }
  }

  /** At most four sessions the service created are still waiting for their close. */
  lemma OpenSessionsBounded(lifetime: nat, run: seq<Action>)
    ensures var s := Exec(Initial(lifetime), run);
      && s.created - ClosedCount(s.trace) == |s.table| + Sum(s.threads, UnclosedOf)
      && 0 <= s.created - ClosedCount(s.trace) <= 4
  {
    RunsKeepInvariant(lifetime, run);
    SumBelow(Exec(Initial(lifetime), run).threads);
  }

  /**
   Each session ever created is, at every moment, in exactly one place: closed
   (once), recorded in the table, or held by a single thread. After its close it is
   neither captured nor closed again.
   */
  lemma SessionClosedExactlyOnce(lifetime: nat, run: seq<Action>, id: nat)
    requires id < Exec(Initial(lifetime), run).created
    ensures var s := Exec(Initial(lifetime), run);
      && multiset(s.trace)[Closed(id)] <= 1
      && (Closed(id) in s.trace ==> !InTable(s.table, id) && Sum(s.threads, Holding(id)) == 0)
      && (Closed(id) !in s.trace ==> if InTable(s.table, id) then Sum(s.threads, Holding(id)) == 0
                                                              else Sum(s.threads, Holding(id)) == 1)
      && NoUseAfterClose(s.trace)
  {
    RunsKeepInvariant(lifetime, run);
    var s := Exec(Initial(lifetime), run);
    assert Accounted(s, id);
    assert Closed(id) in s.trace <==> multiset(s.trace)[Closed(id)] > 0;
  }

  /**
   A record leaves the table only because its age has reached the lifetime, because its
   capture failed, or because a cancel named its token and platform. In particular
   a timer or sweep never takes a younger record, even under a reused token.
   */
  lemma EvictionIsJustified(s: State, tid: nat, c: Choice, t: Token)
    requires Injective(s.table) && tid < |s.threads|
    requires t in s.table && t !in StepThread(s, tid, c).table
    ensures var r, pc := s.table[t], s.threads[tid];
      || s.now >= r.createdAt + s.lifetime
      || (pc == RefreshLock(r.platform, t) && !c.Succeed?)
      || pc == CancelLock(r.platform, t)
  {
    if s.threads[tid].SweepLock? && c.Pick? { RemoveAllConserves(s.table, c.tokens); }
  }

  /** Conversely a sweep or a refresh never leaves a record it meets past its lifetime, nor does its timer. */
  lemma OldRecordsGo(s: State, tid: nat, c: Choice, t: Token)
    requires Injective(s.table) && tid < |s.threads|
    requires t in s.table && s.now >= s.table[t].createdAt + s.lifetime
    requires var pc := s.threads[tid];
      || (pc.SweepLock? && StepThread(s, tid, c) != s)
      || pc == RefreshLock(s.table[t].platform, t)
      || (pc.Sleeping? && pc.token == t && s.now >= pc.wakeAt)
    ensures t !in StepThread(s, tid, c).table
  {
    if s.threads[tid].SweepLock? && c.Pick? { RemoveAllConserves(s.table, c.tokens); }
  }

  /** A record is never replaced in place: a token is reused only after its record left. */
  lemma RecordsAreStable(s: State, tid: nat, c: Choice, t: Token)
    requires Injective(s.table) && tid < |s.threads|
    requires t in s.table && t in StepThread(s, tid, c).table
    ensures StepThread(s, tid, c).table[t] == s.table[t]
  {
    TableStep(s, tid, c, t);
  }

  /** In every interleaving some thread stands by to evict each record when it expires. */
  lemma EveryRecordHasATimer(lifetime: nat, run: seq<Action>, t: Token)
    requires t in Exec(Initial(lifetime), run).table
    ensures Guarded(Exec(Initial(lifetime), run), t)
  {
    RunsKeepInvariant(lifetime, run);
  }

  // ------------------------------------------------------------ no lost slots

  predicate Idle(pc: Pc) { pc.Done? || pc.Sleeping? }

  ghost predicate Quiescent(s: State) {
    forall i :: 0 <= i < |s.threads| ==> Idle(s.threads[i])
  }

  lemma {:induction false} IdleHoldNothing(threads: seq<Pc>)
    requires forall i :: 0 <= i < |threads| ==> Idle(threads[i])
    ensures Sum(threads, SlotsOf) == Sum(threads, UnclosedOf) == 0
  {
    if threads != [] { IdleHoldNothing(threads[1..]); }
  }

  lemma {:induction false} ExecConcat(s: State, first: seq<Action>, second: seq<Action>)
    ensures Exec(s, first + second) == Exec(Exec(s, first), second)
    decreases |second|
  {
    if second == [] {
      assert first + second == first;
    } else {
      var n := |second| - 1;
      assert (first + second)[..|first| + n] == first + second[..n];
      ExecConcat(s, first, second[..n]);
    }
  }

  /** How far a thread is from finishing when it runs alone. */
  function Stage(pc: Pc): nat {
    match pc
    case SweepLock(_) => 13
    case SweepNext(_, _) | SweepRelease(_, _) => 12
    case LoadSlots(_) => 11
    case TryReserve(_, _) => 10
    case OpenSession(_) => 9
    case Navigate(_, _) => 8
    case FirstCapture(_, _) => 7
    case ComparePlatform(_, _) => 6
    case Capture(_, _) => 5
    case Insert(_, _) => 4
    case ScheduleExpiry(_) | RefreshLock(_, _) | CancelLock(_, _) => 3
    case Close(_) => 2
    case Release => 1
    case Sleeping(_, _) | Done => 0
  }

  function Inner(pc: Pc, slots: nat): nat {
    match pc
    case SweepNext(_, pending) => 2 * |pending|
    case SweepRelease(_, pending) => 2 * |pending| + 1
    case TryReserve(_, seen) => if seen == slots then 0 else 1
    case _ => 0
  }

  lemma LongerThanAll(tokens: set<Token>) returns (n: nat)
    ensures forall t :: t in tokens ==> |t| < n
  {
    if tokens == {} {
      n := 0;
    } else {
      var t :| t in tokens;
      var m := LongerThanAll(tokens - {t});
      n := if |t| < m then m else |t| + 1;
    }
  }

  lemma FreshToken(table: Table) returns (t: Token)
    ensures t !in table
  {
    var n := LongerThanAll(table.Keys);
    t := seq(n, _ => 'A');
  }

  lemma ListOf(tokens: set<Token>) returns (list: seq<Token>)
    ensures forall t :: t in list <==> t in tokens
  {
    if tokens == {} {
      list := [];
    } else {
      var t :| t in tokens;
      var rest := ListOf(tokens - {t});
      list := [t] + rest;
    }
  }

  /** Some choice always brings a busy thread closer to its end. */
  lemma Progress(s: State, tid: nat) returns (c: Choice)
    requires tid < |s.threads| && !Idle(s.threads[tid])
    ensures var s' := StepThread(s, tid, c);
      var pc, pc' := s.threads[tid], s'.threads[tid];
      Stage(pc') < Stage(pc) || (Stage(pc') == Stage(pc) && Inner(pc', s'.slots) < Inner(pc, s.slots))
  {
    c := Succeed;
    if s.threads[tid].SweepLock? {
      var expired := set t | t in s.table && Expired(s.table[t], s.now, s.lifetime);
      var tokens := ListOf(expired);
      c := Pick(tokens);
      assert ListsExpired(s.table, s.now, s.lifetime, tokens);
    } else if s.threads[tid].Insert? {
      var t := FreshToken(s.table);
      c := Pick([t]);
    }
  }

  lemma NewThreadsSleep(s: State, tid: nat, c: Choice)
    requires tid < |s.threads|
    ensures var s' := StepThread(s, tid, c);
      |s'.threads| >= |s.threads| && forall i :: |s.threads| <= i < |s'.threads| ==> s'.threads[i].Sleeping?
  {
  }

  /** A thread left to run alone finishes, disturbing no other thread. */
  lemma {:induction false} FinishThread(s: State, tid: nat) returns (run: seq<Action>)
    requires tid < |s.threads|
    ensures var s' := Exec(s, run);
      && |s'.threads| >= |s.threads| && Idle(s'.threads[tid])
      && (forall i :: 0 <= i < |s.threads| && i != tid ==> s'.threads[i] == s.threads[i])
      && (forall i :: |s.threads| <= i < |s'.threads| ==> Idle(s'.threads[i]))
    decreases Stage(s.threads[tid]), Inner(s.threads[tid], s.slots)
  {
    if Idle(s.threads[tid]) {
      run := [];
    } else {
      var c := Progress(s, tid);
      var next := StepThread(s, tid, c);
      OthersStay(s, tid, c);
      NewThreadsSleep(s, tid, c);
      hide StepThread;
      assert tid < |next.threads|;
      var rest := FinishThread(next, tid);
      run := [Run(tid, c)] + rest;
      ExecConcat(s, [Run(tid, c)], rest);
      assert [Run(tid, c)][..0] == [];
      assert Exec(s, [Run(tid, c)]) == next;
    }
  }

  /** Lets `busy` threads starting at `from` finish one after the other. */
  lemma {:induction false} FinishBusy(s: State, from: nat, busy: nat) returns (run: seq<Action>)
    requires from + busy <= |s.threads|
    requires forall i :: 0 <= i < |s.threads| && !(from <= i < from + busy) ==> Idle(s.threads[i])
    ensures Quiescent(Exec(s, run))
    decreases busy
  {
    run := [];
    if busy > 0 {
      var first := FinishThread(s, from);
      var rest := FinishBusy(Exec(s, first), from + 1, busy - 1);
      run := first + rest;
      ExecConcat(s, first, rest);
    }
  }

  /**
   No slot is ever lost: every reachable state can be run to one where all requests
   have returned, and there the counter, the table and the open sessions agree.
   */
  lemma SlotsComeBack(lifetime: nat, run: seq<Action>) returns (more: seq<Action>)
    ensures var s := Exec(Initial(lifetime), run + more);
      Quiescent(s) && s.slots == |s.table| == s.created - ClosedCount(s.trace)
  {
    var s := Exec(Initial(lifetime), run);
    more := FinishBusy(s, 0, |s.threads|);
    ExecConcat(Initial(lifetime), run, more);
    RunsKeepInvariant(lifetime, run + more);
    IdleHoldNothing(Exec(Initial(lifetime), run + more).threads);
  }

  // ---------------------------------------------------- uninterrupted calls

  /** The critical section a thread is about to run, with the record it will take over. */
  function Section(s: State, pc: Pc, c: Choice): (Table, Option<Record>)
    requires pc.RefreshLock? || pc.CancelLock? || pc.Sleeping?
  {
    match pc
    case RefreshLock(p, t) =>
      var (rest, removed, _) := LockedRefresh(s.table, p, t, s.now, s.lifetime, c.Succeed?);
      (rest, removed)
    case CancelLock(p, t) => LockedCancel(s.table, p, t)
    case Sleeping(t, _) => LockedExpiry(s.table, t, s.now, s.lifetime)
  }

  lemma OneStep(s: State, a: Action)
    ensures Exec(s, [a]) == Step(s, a)
  {
    assert [a][..0] == [];
  }

  /**
   Run without interruption, a refresh, cancel or timer does what the whole call promises:
   the table becomes the section's, and a record taken over is closed and its slot returned.
   */
  lemma UninterruptedCall(s: State, tid: nat, c: Choice) returns (run: seq<Action>)
    requires Conserved(s) && tid < |s.threads|
    requires s.threads[tid].RefreshLock? || s.threads[tid].CancelLock?
             || (s.threads[tid].Sleeping? && s.now >= s.threads[tid].wakeAt)
    ensures var (rest, removed) := Section(s, s.threads[tid], c);
      var s' := Exec(s, run);
      && s'.threads == s.threads[tid := Done] && s'.table == rest && s'.created == s.created && s'.now == s.now
      && s'.slots == s.slots - (if removed.Some? then 1 else 0)
      && (removed.Some? ==> s'.trace != [] && s'.trace[|s'.trace| - 1] == Closed(removed.value.attempt))
      && ClosedCount(s'.trace) == ClosedCount(s.trace) + (if removed.Some? then 1 else 0)
  {
    var (rest, removed) := Section(s, s.threads[tid], c);
    var s1 := Step(s, Run(tid, c));
    OneStep(s, Run(tid, c));
    StepConserves(s, tid, c);
    LockedStep(s, tid, c);
    run := [Run(tid, c)];
    hide Section;
    hide Step;
    hide Conserved;
    if removed.Some? {
      SlotsForClose(s1, tid);
      CloseAndRelease(s1, tid, removed.value.attempt);
      run := run + [Run(tid, Succeed), Run(tid, Succeed)];
      ExecConcat(s, [Run(tid, c)], [Run(tid, Succeed), Run(tid, Succeed)]);
    }
  }

  lemma SlotsForClose(s: State, tid: nat)
    requires Conserved(s) && tid < |s.threads| && s.threads[tid].Close?
    ensures s.slots > 0
  {
    Moved(s, tid, Done);
  }

  lemma LockedStep(s: State, tid: nat, c: Choice)
    requires tid < |s.threads|
    requires s.threads[tid].RefreshLock? || s.threads[tid].CancelLock?
             || (s.threads[tid].Sleeping? && s.now >= s.threads[tid].wakeAt)
    ensures var (rest, removed) := Section(s, s.threads[tid], c);
      var s' := Step(s, Run(tid, c));
      && s' == s.(threads := s.threads[tid := if removed.Some? then Close(removed.value.attempt) else Done],
                  table := rest, trace := s'.trace)
      && ClosedCount(s'.trace) == ClosedCount(s.trace)
  {
    var s' := Step(s, Run(tid, c));
    if |s'.trace| > |s.trace| { assert s'.trace[..|s.trace|] == s.trace; }
  }

  lemma CountPush(trace: seq<Event>, e: Event)
    ensures ClosedCount(trace + [e]) == ClosedCount(trace) + if e.Closed? then 1 else 0
  {
    assert (trace + [e])[..|trace|] == trace;
  }

  lemma TwoSteps(s: State, a: Action, b: Action)
    ensures Exec(s, [a, b]) == Step(Step(s, a), b)
  {
    OneStep(s, a);
    assert [a, b][..1] == [a];
  }

  lemma {:induction false} CloseAndRelease(s: State, tid: nat, a: nat)
    requires tid < |s.threads| && s.threads[tid] == Close(a) && s.slots > 0
    ensures var s' := Exec(s, [Run(tid, Succeed), Run(tid, Succeed)]);
      && s' == s.(threads := s.threads[tid := Done], slots := s.slots - 1, trace := s.trace + [Closed(a)])
      && ClosedCount(s'.trace) == ClosedCount(s.trace) + 1
  {
    TwoSteps(s, Run(tid, Succeed), Run(tid, Succeed));
    CountPush(s.trace, Closed(a));
    assert s.threads[tid := Release][tid := Done] == s.threads[tid := Done];
  }

  /** The sweep of a start, run alone, leaves the unexpired records. */
  lemma SweepAlone(s: State, tid: nat, p: Platform) returns (c: Choice, pending: seq<Record>)
    requires Injective(s.table) && tid < |s.threads| && s.threads[tid] == SweepLock(p)
    ensures var swept := QrServer.Swept(s.table, s.now, s.lifetime);
      && Step(s, Run(tid, c)) == s.(table := swept, threads := s.threads[tid := SweepNext(p, pending)])
      && |pending| == |s.table| - |swept|
  {
    var expired := set t | t in s.table && Expired(s.table[t], s.now, s.lifetime);
    var tokens := ListOf(expired);
    assert ListsExpired(s.table, s.now, s.lifetime, tokens);
    c := Pick(tokens);
    pending := RemoveAll(s.table, tokens).1;
    RemoveAllConserves(s.table, tokens);
    assert RemoveAll(s.table, tokens).0 == QrServer.Swept(s.table, s.now, s.lifetime);
  }

  /** The records swept are closed one by one, each giving its slot back. */
  lemma {:induction false} SweepOut(s: State, tid: nat, p: Platform, pending: seq<Record>) returns (run: seq<Action>)
    requires tid < |s.threads| && s.threads[tid] == SweepNext(p, pending) && s.slots >= |pending|
    ensures var s' := Exec(s, run);
      && s' == s.(threads := s.threads[tid := LoadSlots(p)], slots := s.slots - |pending|, trace := s'.trace)
      && ClosedCount(s'.trace) == ClosedCount(s.trace) + |pending|
    decreases |pending|
  {
    var go := Run(tid, Succeed);
    if pending == [] {
      run := [go];
      OneStep(s, go);
    } else {
      TwoSteps(s, go, go);
      var next := Step(Step(s, go), go);
      CountPush(s.trace, Closed(pending[0].attempt));
      assert next == s.(threads := s.threads[tid := SweepNext(p, pending[1..])], slots := s.slots - 1,
                        trace := s.trace + [Closed(pending[0].attempt)]);
      hide Step;
      var rest := SweepOut(next, tid, p, pending[1..]);
      run := [go, go] + rest;
      ExecConcat(s, [go, go], rest);
      assert s.threads[tid := SweepNext(p, pending[1..])][tid := LoadSlots(p)] == s.threads[tid := LoadSlots(p)];
    }
  }

  /** Where a start stands with so many browser steps ahead of it. */
  function BrowserPc(p: Platform, a: nat, ahead: nat): Pc
    requires ahead <= 4
  {
    if ahead == 4 then Navigate(p, a) else if ahead == 3 then FirstCapture(p, a)
    else if ahead == 2 then ComparePlatform(p, a) else if ahead == 1 then Capture(p, a) else Insert(p, a)
  }

  predicate All(oks: seq<bool>) { forall i :: 0 <= i < |oks| ==> oks[i] }

  function Chosen(ok: bool): Choice { if ok then Succeed else Fail }

  lemma InsertAlone(s: State, tid: nat, p: Platform, a: nat, token: Token)
    requires tid < |s.threads| && s.threads[tid] == Insert(p, a) && token !in s.table
    ensures Exec(s, [Run(tid, Pick([token])), Run(tid, Succeed)]) ==
      s.(table := s.table[token := Record(p, s.now, a)],
         threads := s.threads[tid := Done] + [Sleeping(token, s.now + s.lifetime)])
  {
    TwoSteps(s, Run(tid, Pick([token])), Run(tid, Succeed));
    hide Exec;
    var next := Step(s, Run(tid, Pick([token])));
    assert next == s.(table := s.table[token := Record(p, s.now, a)], threads := s.threads[tid := ScheduleExpiry(token)]);
    assert next.threads[tid := Done] == s.threads[tid := Done];
  }

  lemma BrowserStep(s: State, tid: nat, p: Platform, a: nat, ahead: nat, ok: bool)
    requires 0 < ahead <= 4 && tid < |s.threads| && s.threads[tid] == BrowserPc(p, a, ahead)
    ensures var s' := Step(s, Run(tid, Chosen(ok)));
      && s' == s.(threads := s.threads[tid := if ok then BrowserPc(p, a, ahead - 1) else Close(a)], trace := s'.trace)
      && ClosedCount(s'.trace) == ClosedCount(s.trace)
  {
    CountPush(s.trace, CaptureOf(a));
  }

  /** What the browser's part of a start comes to: a record and its timer, or the session closed and its slot returned. */
  ghost predicate Settled(s: State, s': State, tid: nat, p: Platform, a: nat, token: Token, ok: bool)
    requires tid < |s.threads|
  {
    if ok then
      && s' == s.(table := s.table[token := Record(p, s.now, a)], trace := s'.trace,
                  threads := s.threads[tid := Done] + [Sleeping(token, s.now + s.lifetime)])
      && ClosedCount(s'.trace) == ClosedCount(s.trace)
    else
      && s' == s.(slots := s'.slots, trace := s'.trace, threads := s.threads[tid := Done]) && s'.slots + 1 == s.slots
      && s'.trace != [] && s'.trace[|s'.trace| - 1] == Closed(a) && ClosedCount(s'.trace) == ClosedCount(s.trace) + 1
  }

  lemma SettledAfter(s: State, next: State, s': State, tid: nat, pc: Pc, p: Platform, a: nat, token: Token, ok: bool)
    requires tid < |s.threads| && next == s.(threads := s.threads[tid := pc], trace := next.trace)
    requires ClosedCount(next.trace) == ClosedCount(s.trace) && Settled(next, s', tid, p, a, token, ok)
    ensures Settled(s, s', tid, p, a, token, ok)
  {
    assert next.threads[tid := Done] == s.threads[tid := Done];
  }

  /** The browser's part of a start, from the open session on. */
  lemma {:induction false} BrowserAlone(s: State, tid: nat, p: Platform, a: nat, oks: seq<bool>, token: Token) returns (run: seq<Action>)
    requires |oks| <= 4 && tid < |s.threads| && s.threads[tid] == BrowserPc(p, a, |oks|)
    requires token !in s.table && s.slots > 0
    ensures Settled(s, Exec(s, run), tid, p, a, token, All(oks))
    decreases |oks|
  {
    hide Settled;
    if oks == [] {
      InsertSettles(s, tid, p, a, token);
      run := [Run(tid, Pick([token])), Run(tid, Succeed)];
    } else if !oks[0] {
      BrowserFails(s, tid, p, a, |oks|, token);
      run := [Run(tid, Fail)] + [Run(tid, Succeed), Run(tid, Succeed)];
    } else {
      var first := Run(tid, Succeed);
      var next := Step(s, first);
      BrowserStep(s, tid, p, a, |oks|, true);
      OneStep(s, first);
      hide Step;
      hide Exec;
      var rest := BrowserAlone(next, tid, p, a, oks[1..], token);
      assert All(oks) <==> All(oks[1..]);
      run := [first] + rest;
      ExecConcat(s, [first], rest);
      SettledAfter(s, next, Exec(next, rest), tid, BrowserPc(p, a, |oks| - 1), p, a, token, All(oks));
    }
  }

  lemma CloseSettles(s: State, tid: nat, p: Platform, a: nat, token: Token)
    requires tid < |s.threads| && s.threads[tid] == Close(a) && s.slots > 0
    ensures Settled(s, Exec(s, [Run(tid, Succeed), Run(tid, Succeed)]), tid, p, a, token, false)
  {
    hide Exec;
    hide Step;
    hide ClosedCount;
    CloseAndRelease(s, tid, a);
  }

  lemma InsertSettles(s: State, tid: nat, p: Platform, a: nat, token: Token)
    requires tid < |s.threads| && s.threads[tid] == Insert(p, a) && token !in s.table
    ensures Settled(s, Exec(s, [Run(tid, Pick([token])), Run(tid, Succeed)]), tid, p, a, token, true)
  {
    hide Exec;
    hide Step;
    hide ClosedCount;
    var s' := Exec(s, [Run(tid, Pick([token])), Run(tid, Succeed)]);
    InsertAlone(s, tid, p, a, token);
    assert s'.trace == s.trace;
  }

  lemma BrowserFails(s: State, tid: nat, p: Platform, a: nat, ahead: nat, token: Token)
    requires 0 < ahead <= 4 && tid < |s.threads| && s.threads[tid] == BrowserPc(p, a, ahead) && s.slots > 0
    ensures Settled(s, Exec(s, [Run(tid, Fail)] + [Run(tid, Succeed), Run(tid, Succeed)]), tid, p, a, token, false)
  {
    var first, rest := Run(tid, Fail), [Run(tid, Succeed), Run(tid, Succeed)];
    var next := Step(s, first);
    BrowserStep(s, tid, p, a, ahead, false);
    OneStep(s, first);
    hide Step;
    hide Exec;
    hide Settled;
    CloseSettles(next, tid, p, a, token);
    ExecConcat(s, [first], rest);
    SettledAfter(s, next, Exec(next, rest), tid, Close(a), p, a, token, false);
  }

  /** What the browser does in one start, step by step behind the open session. */
  function BrowserSteps(b: QrServer.Browser, p: Platform): seq<bool> {
    [b.navigateOk, QrServer.CaptureOk(b.probe), b.reported == p, QrServer.CaptureOk(b.capture)]
  }

  lemma StepsAreServed(b: QrServer.Browser, p: Platform)
    ensures b.sessionOk && All(BrowserSteps(b, p)) <==> QrServer.BrowserServes(b, p)
  {
    var oks := BrowserSteps(b, p);
    assert All(oks) <==> oks[0] && oks[1] && oks[2] && oks[3];
  }

  /** A start with the sweep behind it, run alone against a browser. */
  ghost predicate Started(s: State, s': State, tid: nat, p: Platform, b: QrServer.Browser, token: Token)
    requires tid < |s.threads|
  {
    var free := s.slots < MAX_ACTIVE;
    if free && QrServer.BrowserServes(b, p) then
      && s' == s.(table := s.table[token := Record(p, s.now, s.created)], created := s.created + 1, slots := s.slots + 1,
                  trace := s'.trace, threads := s.threads[tid := Done] + [Sleeping(token, s.now + s.lifetime)])
      && ClosedCount(s'.trace) == ClosedCount(s.trace)
    else
      var opens := if free && b.sessionOk then 1 else 0;
      && s' == s.(created := s.created + opens, trace := s'.trace, threads := s.threads[tid := Done])
      && ClosedCount(s'.trace) == ClosedCount(s.trace) + opens
      && (opens == 1 ==> s'.trace != [] && s'.trace[|s'.trace| - 1] == Closed(s.created))
  }

  lemma StartedFull(s: State, tid: nat, p: Platform, b: QrServer.Browser, token: Token)
    requires tid < |s.threads| && s.threads[tid] == LoadSlots(p) && s.slots >= MAX_ACTIVE
    ensures Started(s, Exec(s, [Run(tid, Succeed), Run(tid, Succeed)]), tid, p, b, token)
  {
    TwoSteps(s, Run(tid, Succeed), Run(tid, Succeed));
    assert s.threads[tid := TryReserve(p, s.slots)][tid := Done] == s.threads[tid := Done];
  }

  /** Reads the counter and reserves a slot. */
  lemma ReserveAlone(s: State, tid: nat, p: Platform)
    requires tid < |s.threads| && s.threads[tid] == LoadSlots(p) && s.slots < MAX_ACTIVE
    ensures Exec(s, [Run(tid, Succeed), Run(tid, Succeed)]) == s.(slots := s.slots + 1, threads := s.threads[tid := OpenSession(p)])
  {
    TwoSteps(s, Run(tid, Succeed), Run(tid, Succeed));
    assert s.threads[tid := TryReserve(p, s.slots)][tid := OpenSession(p)] == s.threads[tid := OpenSession(p)];
  }

  /** Without a session the slot is given back at once. */
  lemma OpenFails(s: State, tid: nat, p: Platform)
    requires tid < |s.threads| && s.threads[tid] == OpenSession(p) && s.slots > 0
    ensures Exec(s, [Run(tid, Fail), Run(tid, Succeed)]) == s.(slots := s.slots - 1, threads := s.threads[tid := Done])
  {
    TwoSteps(s, Run(tid, Fail), Run(tid, Succeed));
    assert s.threads[tid := Release][tid := Done] == s.threads[tid := Done];
  }

  lemma {:induction false} OpenSucceeds(s: State, tid: nat, p: Platform)
    requires tid < |s.threads| && s.threads[tid] == OpenSession(p)
    ensures var s' := Exec(s, [Run(tid, Succeed)]);
      && s' == s.(created := s.created + 1, trace := s'.trace, threads := s.threads[tid := Navigate(p, s.created)])
      && ClosedCount(s'.trace) == ClosedCount(s.trace)
  {
    OneStep(s, Run(tid, Succeed));
    CountPush(s.trace, Opened(s.created));
  }

  lemma OpenAlone(s: State, tid: nat, p: Platform, b: QrServer.Browser, token: Token) returns (run: seq<Action>)
    requires tid < |s.threads| && s.threads[tid] == OpenSession(p) && 0 < s.slots <= MAX_ACTIVE && token !in s.table
    ensures var before := s.(slots := s.slots - 1);
      Started(before, Exec(s, run), tid, p, b, token)
  {
    StepsAreServed(b, p);
    hide Exec;
    hide QrServer.BrowserServes;
    hide All;
    if !b.sessionOk {
      OpenFails(s, tid, p);
      run := [Run(tid, Fail), Run(tid, Succeed)];
    } else {
      OpenSucceeds(s, tid, p);
      var next := Exec(s, [Run(tid, Succeed)]);
      var rest := BrowserAlone(next, tid, p, s.created, BrowserSteps(b, p), token);
      run := [Run(tid, Succeed)] + rest;
      ExecConcat(s, [Run(tid, Succeed)], rest);
      assert next.threads[tid := Done] == s.threads[tid := Done];
    }
  }

  lemma StartedAfterSweep(s: State, swept: State, s': State, tid: nat, pc: Pc, p: Platform, b: QrServer.Browser, token: Token)
    requires tid < |s.threads| && swept == s.(threads := s.threads[tid := pc], slots := swept.slots, table := swept.table, trace := swept.trace)
    requires Started(swept, s', tid, p, b, token)
    ensures Started(s.(slots := swept.slots, table := swept.table, trace := swept.trace), s', tid, p, b, token)
  {
    assert swept.threads[tid := Done] == s.threads[tid := Done];
  }

  lemma ReservedAndStarted(s: State, tid: nat, p: Platform, b: QrServer.Browser, token: Token) returns (run: seq<Action>)
    requires tid < |s.threads| && s.threads[tid] == LoadSlots(p) && token !in s.table
    ensures Started(s, Exec(s, run), tid, p, b, token)
  {
    run := [Run(tid, Succeed), Run(tid, Succeed)];
    hide Exec;
    if s.slots >= MAX_ACTIVE {
      StartedFull(s, tid, p, b, token);
    } else {
      ReserveAlone(s, tid, p);
      var next := Exec(s, run);
      var rest := OpenAlone(next, tid, p, b, token);
      ExecConcat(s, run, rest);
      run := run + rest;
      StartedAfterSweep(s, next.(slots := s.slots), Exec(next, rest), tid, OpenSession(p), p, b, token);
    }
  }

  lemma SweptAlone(s: State, tid: nat, p: Platform) returns (run: seq<Action>)
    requires Conserved(s) && tid < |s.threads| && s.threads[tid] == SweepLock(p)
    ensures var table := QrServer.Swept(s.table, s.now, s.lifetime);
      var expired := |s.table| - |table|;
      var s' := Exec(s, run);
      && 0 <= expired <= s.slots && ClosedCount(s'.trace) == ClosedCount(s.trace) + expired
      && s' == s.(table := table, slots := s.slots - expired, trace := s'.trace, threads := s.threads[tid := LoadSlots(p)])
  {
    var c, pending := SweepAlone(s, tid, p);
    OneStep(s, Run(tid, c));
    var s1 := Step(s, Run(tid, c));
    StepConserves(s, tid, c);
    Moved(s1, tid, Done);
    hide Conserved;
    hide Step;
    hide Exec;
    var sweep := SweepOut(s1, tid, p, pending);
    run := [Run(tid, c)] + sweep;
    ExecConcat(s, [Run(tid, c)], sweep);
    assert s1.threads[tid := LoadSlots(p)] == s.threads[tid := LoadSlots(p)];
  }

  /**
   Run without interruption, a start does what the whole call promises: expired records
   are swept, their sessions closed and their slots returned; then, if a slot is free and
   every browser step succeeds, the new session is recorded with a timer, and otherwise
   nothing is left of it.
   */
  lemma UninterruptedStart(s: State, tid: nat, p: Platform, b: QrServer.Browser, token: Token) returns (run: seq<Action>)
    requires Conserved(s) && tid < |s.threads| && s.threads[tid] == SweepLock(p)
    requires token !in QrServer.Swept(s.table, s.now, s.lifetime)
    ensures var table := QrServer.Swept(s.table, s.now, s.lifetime);
      var expired := |s.table| - |table|;
      exists trace :: ClosedCount(trace) == ClosedCount(s.trace) + expired && 0 <= expired <= s.slots
        && Started(s.(table := table, slots := s.slots - expired, trace := trace), Exec(s, run), tid, p, b, token)
  {
    hide Conserved;
    hide Exec;
    hide QrServer.Swept;
    hide Started;
    hide ClosedCount;
    var sweep := SweptAlone(s, tid, p);
    var swept := Exec(s, sweep);
    var rest := ReservedAndStarted(swept, tid, p, b, token);
    run := sweep + rest;
    ExecConcat(s, sweep, rest);
    StartedAfterSweep(s, swept, Exec(swept, rest), tid, LoadSlots(p), p, b, token);
    var trace := swept.trace;
    assert s.(slots := swept.slots, table := swept.table, trace := trace)
        == s.(table := swept.table, slots := s.slots - (|s.table| - |swept.table|), trace := trace);
    assert ClosedCount(trace) == ClosedCount(s.trace) + (|s.table| - |swept.table|);
  }
}
