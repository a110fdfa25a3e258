/**
 The runner's WebDriver client. Every reply is chosen by an arbitrary oracle, and
 every exchange is recorded, so what holds of the trace holds against any page.
 */
module WebDriver {
  import opened Platforms
  import opened Wrappers

  datatype Json = Bool(b: bool) | Text(s: string) | ElementRef(id: string) | SessionRef(id: string) | OtherJson

  /** A transport error, a response without `value`, or a value. */
  datatype Reply = Failed | NoValue | Value(json: Json)

  datatype Field =
    | File | Title | ShortTitle | Description | Submit | DraftButton | Success
    | Content | Cover | Category | Tags | Summary | Panel | Confirm

  /** How many alternative selectors the profiles list for a field. */
  function Selectors(f: Field): nat { if f.ShortTitle? then 1 else 2 }

  datatype Page = Upload(platform: Platform) | Editor

  /** The injected scripts, by what they do for which platform. */
  datatype Script =
    | UploadState(platform: Platform)
    | StatementOpen(platform: Platform) | StatementShown(platform: Platform) | StatementSelect(platform: Platform)
    | StatementConfirm(platform: Platform) | StatementGone(platform: Platform) | StatementApplied(platform: Platform)
    | PermissionState | PermissionAction
    | TagSubmit | TagCommitted
    | ProductTypeReady | ProductChooser | ProductDialog | ProductSearch | ProductRow
    | ProductSelect | ProductAddReady | ProductAdd | ProductAttached
    | OriginalEntry | OriginalAnyDialog | ProtocolDialog | ProtocolConfirm | ProtocolGone
    | DeclarationDialog | OriginalConfirm | DeclarationGone
    | PkCoverState | PkCoverClose
    | PanelOpen | PanelVisible | ChannelsEnable | ChannelsSelected | PublishResult
    | ActionState(platform: Platform) | Action(platform: Platform)
    | CodeMirrorWrite

  datatype Request =
    | NewSession
    | DeleteSession
    | GoTo(page: Page)
    | Find(field: Field, selector: nat)
    | Type(element: string, text: string)
    | Click(element: string)
    | Visible(element: string)
    | Run(script: Script, args: seq<string>)

  datatype Exchange = Exchange(session: Option<string>, request: Request, reply: Reply)

  type Trace = seq<Exchange>

  predicate InSession(t: Trace, sid: string) {
    forall i :: 0 <= i < |t| ==> t[i].session == Some(sid)
  }

  function ElementOf(r: Reply): Option<string> {
    if r.Value? && r.json.ElementRef? then Some(r.json.id) else None
  }

  function SessionOf(r: Reply): Option<string> {
    if r.Value? && r.json.SessionRef? then Some(r.json.id) else None
  }

  function TruthOf(r: Reply): Option<bool> {
    if r.Value? && r.json.Bool? then Some(r.json.b) else None
  }

  predicate Says(r: Reply, words: set<string>) {
    r.Value? && r.json.Text? && r.json.s in words
  }

  /** How a wait reads a reply: a boolean, or one of a finite set of state words. */
  datatype Rule = Truth | Words(done: set<string>, again: set<string>)

  datatype Verdict = Done | Again | Stop

  function Judge(rule: Rule, r: Reply): Verdict {
    match rule
    case Truth =>
      if TruthOf(r) == Some(true) then Done else if TruthOf(r) == Some(false) then Again else Stop
    case Words(done, again) =>
      if Says(r, done) then Done else if Says(r, again) then Again else Stop
  }

  const ELEMENT_POLL_ATTEMPTS: nat := 3
  const STATEMENT_ATTEMPTS: nat := 30
  const SHADOW_ATTEMPTS: nat := 30
  const UPLOAD_ATTEMPTS: nat := 150
  const READY_ATTEMPTS: nat := 150
  const ACTION_ATTEMPTS: nat := 30
  const FANQIE_ATTEMPTS: nat := 30

  const READY: Rule := Words({"ready"}, {"pending"})
  const ONE_CLICK_READY: Rule := Words({"ready"}, {"pending", "disabled"})
  const FOOTER_READY: Rule := Words({"horizontal_ready", "vertical_ready"}, {"pending"})
  const CLICKED: Rule := Words({"clicked"}, {})
  const PANEL_OPEN: Rule := Words({"open", "opened"}, {})
  const CHANNELS_ON: Rule := Words({"selected", "clicked"}, {})
  const SUCCEEDED: Rule := Words({"success"}, {"pending"})
  const PROVEN: Rule := Words({"description", "placeholder"}, {"prompt", "open", "pending"})
  const CLEARED: Rule := Words({"unchecked"}, {"checked"})

  // ------------------------------------------------- steps and their traces

  /** What the workflows are made of. */
  datatype Step =
    | Open(page: Page)
    | Enter(field: Field, text: string)
    | Await(script: Script, args: seq<string>, rule: Rule, attempts: nat)
    | SavePermission
    | ToutiaoStatement(source: string)
    | PkCover
    | Original
    | MarkersAbsent
    | Press(field: Field)
    | Footer(draft: bool)
    | Acknowledge(attempts: nat)
    | WriteBody(text: string)
    | Refuse

  /** Element search: selectors in turn, three rounds, until one names an element. */
  ghost predicate Searched(t: Trace, f: Field, found: bool) {
    && |t| <= ELEMENT_POLL_ATTEMPTS * Selectors(f)
    && (forall i :: 0 <= i < |t| ==> t[i].request == Find(f, i % Selectors(f)))
    && (forall i :: 0 <= i < |t| - 1 ==> ElementOf(t[i].reply).None?)
    && (found <==> t != [] && ElementOf(t[|t| - 1].reply).Some?)
    && (!found ==> |t| == ELEMENT_POLL_ATTEMPTS * Selectors(f))
  }

  /** A search followed, when it found an element, by one request on it. */
  ghost predicate SearchedThen(t: Trace, f: Field, use: string -> Request) {
    if t != [] && !t[|t| - 1].request.Find? then
      && Searched(t[..|t| - 1], f, true)
      && t[|t| - 1].request == use(ElementOf(t[|t| - 2].reply).value)
    else Searched(t, f, false)
  }

  /** A wait: the same script over and over, each reply but the last asking to go on. */
  ghost predicate Polled(t: Trace, s: Script, args: seq<string>, rule: Rule, attempts: nat, ok: bool) {
    && |t| <= attempts
    && (forall i :: 0 <= i < |t| ==> t[i].request == Run(s, args))
    && (forall i :: 0 <= i < |t| - 1 ==> Judge(rule, t[i].reply) == Again)
    && (ok <==> t != [] && Judge(rule, t[|t| - 1].reply) == Done)
    && (|t| < attempts ==> t != [] && Judge(rule, t[|t| - 1].reply) != Again)
  }

  /** One pass over the success selectors from number `k` on; each element found is asked whether it is visible. */
  ghost predicate Checked(t: Trace, k: nat, seen: Option<bool>)
    decreases |t|
  {
    if k >= Selectors(Success) then t == [] && seen == Some(false)
    else
      && t != [] && t[0].request == Find(Success, k)
      && match ElementOf(t[0].reply)
         case None => Checked(t[1..], k + 1, seen)
         case Some(e) =>
           && |t| >= 2 && t[1].request == Visible(e)
           && if TruthOf(t[1].reply) == Some(false) then Checked(t[2..], k + 1, seen)
              else |t| == 2 && seen == TruthOf(t[1].reply)
  }

  /** A complete pass, whatever it saw. */
  ghost predicate Pass(t: Trace) { exists seen :: Checked(t, 0, seen) }

  function Join(passes: seq<Trace>): Trace {
    if passes == [] then [] else Join(passes[..|passes| - 1]) + passes[|passes| - 1]
  }

  /** Repeated passes: all but the last saw no marker, and nothing but seeing one succeeds. */
  ghost predicate Watched(passes: seq<Trace>, attempts: nat, ok: bool) {
    && |passes| <= attempts
    && (forall i :: 0 <= i < |passes| - 1 ==> Checked(passes[i], 0, Some(false)))
    && (|passes| < attempts ==> passes != [] && !Checked(passes[|passes| - 1], 0, Some(false)))
    && (passes != [] ==> Pass(passes[|passes| - 1]))
    && (ok <==> passes != [] && Checked(passes[|passes| - 1], 0, Some(true)))
  }

  predicate SeesMarker(x: Exchange) { x.request.Visible? && TruthOf(x.reply) == Some(true) }

  predicate Asks(x: Exchange, s: Script) { x.request == Run(s, []) }

  /** One look at the save permission: its state, and a click right after it was reported ready. */
  predicate IsLook(t: Trace) {
    && 1 <= |t| <= 2 && Asks(t[0], PermissionState)
    && if Says(t[0].reply, {"ready"}) then |t| == 2 && Asks(t[1], PermissionAction) else |t| == 1
  }

  function LookVerdict(t: Trace): Verdict
    requires IsLook(t)
  {
    if |t| == 2 then Judge(Words({"selected", "clicked"}, {"pending"}), t[1].reply)
    else Judge(Words({"selected"}, {"pending"}), t[0].reply)
  }

  /** Looks go on exactly while replies are pending, and at most so often. */
  predicate PermittedBy(looks: seq<Trace>, ok: bool) {
    && |looks| <= READY_ATTEMPTS
    && (forall i :: 0 <= i < |looks| ==> IsLook(looks[i]))
    && (forall i :: 0 <= i < |looks| - 1 ==> LookVerdict(looks[i]) == Again)
    && (|looks| < READY_ATTEMPTS ==> looks != [] && LookVerdict(looks[|looks| - 1]) != Again)
    && (ok <==> looks != [] && LookVerdict(looks[|looks| - 1]) == Done)
  }

  ghost predicate Permitting(t: Trace, ok: bool) { exists looks :: t == Join(looks) && PermittedBy(looks, ok) }

  /** The video-source checkbox is touched once, and only when reported unchecked; a click is then waited for. */
  ghost predicate ChoosingSource(t: Trace, source: string, ok: bool) {
    && t != [] && t[0].request == Run(StatementApplied(Toutiao), [source])
    && if TruthOf(t[0].reply) != Some(false) then |t| == 1 && (ok <==> TruthOf(t[0].reply) == Some(true))
       else
         && |t| >= 2 && t[1].request == Run(StatementSelect(Toutiao), [source])
         && if !Says(t[1].reply, {"clicked"}) then |t| == 2 && (ok <==> Says(t[1].reply, {"selected"}))
            else Polled(t[2..], StatementApplied(Toutiao), [source], Truth, STATEMENT_ATTEMPTS, ok)
  }

  /** The cover option is left alone unless it is checked; then it is cleared once and waited for. */
  ghost predicate ClearingCover(t: Trace, ok: bool) {
    && t != [] && Asks(t[0], PkCoverState)
    && if !Says(t[0].reply, {"checked"}) then |t| == 1 && (ok <==> Says(t[0].reply, {"absent", "unchecked"}))
       else
         && |t| >= 2 && Asks(t[1], PkCoverClose)
         && if TruthOf(t[1].reply) != Some(true) then |t| == 2 && !ok
            else Polled(t[2..], PkCoverState, [], CLEARED, STATEMENT_ATTEMPTS, ok)
  }

  /** The questions of the optional declaration; the declaration's own dialog is awaited after the protocol's. */
  datatype Stage =
    | Offered | AnyDialog | Protocol | AcceptProtocol | ProtocolLeft
    | DeclarationFollows | DeclarationUp | AcceptDeclaration | DeclarationLeft

  function StageScript(s: Stage): Script {
    match s
    case Offered => OriginalEntry
    case AnyDialog => OriginalAnyDialog
    case Protocol => ProtocolDialog
    case AcceptProtocol => ProtocolConfirm
    case ProtocolLeft => ProtocolGone
    case DeclarationFollows => DeclarationDialog
    case DeclarationUp => DeclarationDialog
    case AcceptDeclaration => OriginalConfirm
    case DeclarationLeft => DeclarationGone
  }

  /** Three of the questions are asked once, the others until the answer is no longer no. */
  function StageAttempts(s: Stage): nat {
    if s.Offered? || s.Protocol? || s.DeclarationUp? then 1 else SHADOW_ATTEMPTS
  }

  /** Where an answer leads; a page that gives no boolean fails the declaration. */
  datatype Next = Over(ok: bool) | On(stage: Stage)

  function After(s: Stage, answer: Option<bool>): Next {
    if answer.None? then Over(false)
    else if answer.value then
      match s
      case Offered => On(AnyDialog)
      case AnyDialog => On(Protocol)
      case Protocol => On(AcceptProtocol)
      case AcceptProtocol => On(ProtocolLeft)
      case ProtocolLeft => On(DeclarationFollows)
      case DeclarationFollows => On(AcceptDeclaration)
      case DeclarationUp => On(AcceptDeclaration)
      case AcceptDeclaration => On(DeclarationLeft)
      case DeclarationLeft => Over(true)
    else if s.Protocol? then On(DeclarationUp)
    else Over(s.Offered? || s.AnyDialog? || s.DeclarationFollows?)
  }

  /** The exchanges of a declaration from one question on: its answers, then what they lead to. */
  ghost predicate Declaring(s: Stage, t: Trace, ok: bool)
    decreases |t|, 1
  {
    exists n :: 0 < n <= |t| && DeclaringPart(s, t, n, ok)
  }

  ghost predicate DeclaringPart(s: Stage, t: Trace, n: nat, ok: bool)
    requires 0 < n <= |t|
    decreases |t|, 0
  {
    var answer := TruthOf(t[n - 1].reply);
    && Polled(t[..n], StageScript(s), [], Truth, StageAttempts(s), answer == Some(true))
    && match After(s, answer)
       case Over(result) => n == |t| && ok == result
       case On(next) => Declaring(next, t[n..], ok)
  }

  const ORIGINAL_COST: nat := 2 + 6 * SHADOW_ATTEMPTS

  /** The footer's layout decides the action: only a horizontal footer can save a draft. */
  ghost predicate UsingFooter(t: Trace, draft: bool, ok: bool) {
    if t != [] && t[|t| - 1].request.Run? && t[|t| - 1].request.script == Action(Toutiao) then
      var polls := t[..|t| - 1];
      && Polled(polls, ActionState(Toutiao), [], FOOTER_READY, STATEMENT_ATTEMPTS, true)
      && t[|t| - 1].request.args == [if draft && Says(t[|t| - 2].reply, {"horizontal_ready"}) then "draft" else "submit"]
      && (ok <==> Judge(CLICKED, t[|t| - 1].reply) == Done)
    else !ok && Polled(t, ActionState(Toutiao), [], FOOTER_READY, STATEMENT_ATTEMPTS, false)
  }

  /** The exchanges a step may have, and when it succeeds. */
  ghost predicate Ran(sid: string, step: Step, t: Trace, ok: bool) {
    && InSession(t, sid)
    && match step
       case Open(page) => |t| == 1 && t[0].request == GoTo(page) && (ok <==> t[0].reply.Value?)
       case Enter(f, text) =>
         && SearchedThen(t, f, (e: string) => Type(e, text))
         && (ok <==> t != [] && t[|t| - 1].request.Type? && t[|t| - 1].reply.Value?)
       case Press(f) =>
         && SearchedThen(t, f, (e: string) => Click(e))
         && (ok <==> t != [] && t[|t| - 1].request.Click? && t[|t| - 1].reply.Value?)
       case WriteBody(text) =>
         && SearchedThen(t, Content, (e: string) => Run(CodeMirrorWrite, [e, text]))
         && (ok <==> t != [] && t[|t| - 1].request.Run? && TruthOf(t[|t| - 1].reply) == Some(true))
       case Await(s, args, rule, attempts) => Polled(t, s, args, rule, attempts, ok)
       case SavePermission => Permitting(t, ok)
       case ToutiaoStatement(source) => ChoosingSource(t, source, ok)
       case PkCover => ClearingCover(t, ok)
       case Original => Declaring(Offered, t, ok)
       case MarkersAbsent => Pass(t) && (ok <==> Checked(t, 0, Some(false)))
       case Footer(draft) => UsingFooter(t, draft, ok)
       case Acknowledge(attempts) => exists passes :: t == Join(passes) && Watched(passes, attempts, ok)
       case Refuse => t == [] && !ok
  }

  /** A step taken, with the exchanges it had and whether it succeeded. */
  datatype Entry = Entry(step: Step, trace: Trace, ok: bool)

  type Journal = seq<Entry>

  function Flat(j: Journal): Trace {
    if j == [] then [] else Flat(j[..|j| - 1]) + j[|j| - 1].trace
  }

  /** `j'` continues `j` with the steps of `plan`: all of them if `ok`, else up to the first that failed. */
  ghost predicate Extends(j: Journal, j': Journal, plan: seq<Step>, ok: bool) {
    && j <= j' && |j'| - |j| <= |plan|
    && (ok ==> |j'| - |j| == |plan|)
    && (!ok ==> |j'| > |j|)
    && forall i :: |j| <= i < |j'| ==> j'[i].step == plan[i - |j|] && (j'[i].ok <==> ok || i < |j'| - 1)
  }

  lemma FlatPush(j: Journal, e: Entry)
    ensures Flat(j + [e]) == Flat(j) + e.trace
    ensures Extends(j, j + [e], [e.step], e.ok)
  {
    assert (j + [e])[..|j|] == j;
  }

  lemma ExtendsThen(j0: Journal, j1: Journal, j2: Journal, p: seq<Step>, q: seq<Step>, ok: bool)
    requires Extends(j0, j1, p, true) && Extends(j1, j2, q, ok)
    ensures Extends(j0, j2, p + q, ok)
  {
    forall i | |j0| <= i < |j2|
      ensures j2[i].step == (p + q)[i - |j0|] && (j2[i].ok <==> ok || i < |j2| - 1)
    {
      if i < |j1| { assert j2[i] == j1[i]; }
    }
  }

  lemma ExtendsPart(j: Journal, j': Journal, p: seq<Step>, q: seq<Step>)
    requires Extends(j, j', p, false)
    ensures Extends(j, j', p + q, false)
  {
  }

  lemma FoundThen(t: Trace, f: Field, use: string -> Request, x: Exchange)
    requires Searched(t, f, true) && !x.request.Find? && x.request == use(ElementOf(t[|t| - 1].reply).value)
    ensures SearchedThen(t + [x], f, use)
  {
    assert (t + [x])[..|t|] == t;
  }

  lemma NotFound(t: Trace, f: Field, use: string -> Request)
    requires Searched(t, f, false)
    ensures SearchedThen(t, f, use) && t != [] && t[|t| - 1].request.Find?
  {
  }

  lemma EnterRan(sid: string, f: Field, text: string, t: Trace, ok: bool)
    requires InSession(t, sid)
    requires SearchedThen(t, f, (e: string) => Type(e, text))
    requires ok <==> t != [] && t[|t| - 1].request.Type? && t[|t| - 1].reply.Value?
    ensures Ran(sid, Enter(f, text), t, ok)
  {
  }

  lemma PressRan(sid: string, f: Field, t: Trace, ok: bool)
    requires InSession(t, sid)
    requires SearchedThen(t, f, (e: string) => Click(e))
    requires ok <==> t != [] && t[|t| - 1].request.Click? && t[|t| - 1].reply.Value?
    ensures Ran(sid, Press(f), t, ok)
  {
  }

  lemma WriteRan(sid: string, text: string, t: Trace, ok: bool)
    requires InSession(t, sid)
    requires SearchedThen(t, Content, (e: string) => Run(CodeMirrorWrite, [e, text]))
    requires ok <==> t != [] && t[|t| - 1].request.Run? && TruthOf(t[|t| - 1].reply) == Some(true)
    ensures Ran(sid, WriteBody(text), t, ok)
  {
  }

  /** The first `n` steps of a plan have succeeded. */
  ghost predicate Reached(j: Journal, j': Journal, plan: seq<Step>, n: nat) {
    n <= |plan| && Extends(j, j', plan[..n], true)
  }

  lemma Start(j: Journal, plan: seq<Step>)
    ensures Reached(j, j, plan, 0)
  {
  }

  lemma Advance(j0: Journal, j1: Journal, j2: Journal, plan: seq<Step>, n: nat, ok: bool)
    requires Reached(j0, j1, plan, n) && n < |plan| && Extends(j1, j2, [plan[n]], ok)
    ensures if ok then Reached(j0, j2, plan, n + 1) else Extends(j0, j2, plan, false)
  {
    ExtendsThen(j0, j1, j2, plan[..n], [plan[n]], ok);
    assert plan[..n] + [plan[n]] == plan[..n + 1];
    if !ok {
      ExtendsPart(j0, j2, plan[..n + 1], plan[n + 1..]);
      assert plan[..n + 1] + plan[n + 1..] == plan;
    }
  }

  lemma Finish(j: Journal, j': Journal, plan: seq<Step>)
    requires Reached(j, j', plan, |plan|)
    ensures Extends(j, j', plan, true)
  {
    assert plan[..|plan|] == plan;
  }

  // ------------------------------------------------------------------ client

  class Browser {
    const replies: nat -> Reply
    var trace: Trace
    var nextJob: nat
    ghost var base: Trace
    ghost var journal: Journal

    constructor (replies: nat -> Reply)
      ensures trace == [] && this.replies == replies && nextJob == 1
    {
      this.replies, nextJob := replies, 1;
      trace, base, journal := [], [], [];
    }

    /** The trace since `base` is the journal's, and every journal entry is as its step allows. */
    ghost predicate Valid(sid: string)
      reads this
    {
      && trace == base + Flat(journal)
      && forall i :: 0 <= i < |journal| ==> Ran(sid, journal[i].step, journal[i].trace, journal[i].ok)
    }

    method Send(session: Option<string>, request: Request) returns (reply: Reply)
      modifies this`trace
      ensures trace == old(trace) + [Exchange(session, request, reply)]
      ensures reply == replies(|old(trace)|)
    {
      reply := replies(|trace|);
      trace := trace + [Exchange(session, request, reply)];
    }

    /** Enters a finished step in the journal. */
    ghost method Note(sid: string, step: Step, t: Trace, ok: bool)
      requires trace == base + Flat(journal) + t && Ran(sid, step, t, ok)
      requires forall i :: 0 <= i < |journal| ==> Ran(sid, journal[i].step, journal[i].trace, journal[i].ok)
      modifies this`journal
      ensures Valid(sid) && journal == old(journal) + [Entry(step, t, ok)]
      ensures Extends(old(journal), journal, [step], ok)
    {
      hide Ran;
      hide Flat;
      hide Extends;
      ghost var before := journal;
      journal := journal + [Entry(step, t, ok)];
      FlatPush(before, Entry(step, t, ok));
      assert base + Flat(before) + t == base + (Flat(before) + t);
    }

    method Session() returns (sid: Option<string>)
      modifies this`trace, this`base, this`journal
      ensures |trace| == |old(trace)| + 1 && old(trace) <= trace && base == trace && journal == []
      ensures trace[|old(trace)|].session == None && trace[|old(trace)|].request == NewSession
      ensures sid == SessionOf(trace[|old(trace)|].reply)
    {
      var reply := Send(None, NewSession);
      base, journal := trace, [];
      return SessionOf(reply);
    }

    method DeleteSession(sid: string) returns (ok: bool)
      modifies this`trace
      ensures |trace| == |old(trace)| + 1 && old(trace) <= trace
      ensures trace[|old(trace)|].session == Some(sid) && trace[|old(trace)|].request == Request.DeleteSession
      ensures ok <==> trace[|old(trace)|].reply.Value?
    {
      var reply := Send(Some(sid), Request.DeleteSession);
      return reply.Value?;
    }

    /** Looks for an element; errors count as not found. */
    method Locate(sid: string, f: Field) returns (element: Option<string>, ghost t: Trace)
      modifies this`trace
      ensures trace == old(trace) + t && Searched(t, f, element.Some?)
      ensures InSession(t, sid)
      ensures element.Some? ==> t != [] && element == ElementOf(t[|t| - 1].reply)
      ensures |t| <= (if f.ShortTitle? then 3 else 6) && (element.None? ==> |t| == if f.ShortTitle? then 3 else 6)
      ensures forall i :: 0 <= i < |t| ==> t[i].request == Find(f, if f.ShortTitle? then 0 else i % 2)
    {
      t := [];
      element := None;
      var n := Selectors(f);
      for attempt := 0 to ELEMENT_POLL_ATTEMPTS
        invariant trace == old(trace) + t && |t| == n * attempt && element.None?
        invariant forall i :: 0 <= i < |t| ==>
          t[i].request == Find(f, i % n) && t[i].session == Some(sid) && ElementOf(t[i].reply).None?
      {
        for k := 0 to n
          invariant trace == old(trace) + t && |t| == n * attempt + k && element.None?
          invariant forall i :: 0 <= i < |t| ==>
            t[i].request == Find(f, i % n) && t[i].session == Some(sid) && ElementOf(t[i].reply).None?
        {
          assert (n * attempt + k) % n == k;
          var reply := Send(Some(sid), Find(f, k));
          t := t + [Exchange(Some(sid), Find(f, k), reply)];
          if ElementOf(reply).Some? {
            assert |t| <= ELEMENT_POLL_ATTEMPTS * n;
            return ElementOf(reply), t;
          }
        }
      }
    }

    method Navigate(sid: string, page: Page) returns (ok: bool)
      requires Valid(sid)
      modifies this`trace, this`journal
      ensures Valid(sid) && Extends(old(journal), journal, [Open(page)], ok)
    {
      var reply := Send(Some(sid), GoTo(page));
      ok := reply.Value?;
      Note(sid, Open(page), [Exchange(Some(sid), GoTo(page), reply)], ok);
    }

    method Input(sid: string, f: Field, text: string) returns (ok: bool)
      requires Valid(sid)
      modifies this`trace, this`journal
      ensures Valid(sid) && Extends(old(journal), journal, [Enter(f, text)], ok)
    {
      hide Ran;
      hide Extends;
      hide SearchedThen;
      ghost var t;
      ok, t := TypeInto(sid, f, text);
      EnterRan(sid, f, text, t, ok);
      Note(sid, Enter(f, text), t, ok);
    }

    method TypeInto(sid: string, f: Field, text: string) returns (ok: bool, ghost t: Trace)
      modifies this`trace
      ensures trace == old(trace) + t && InSession(t, sid) && SearchedThen(t, f, (e: string) => Type(e, text))
      ensures ok <==> t != [] && t[|t| - 1].request.Type? && t[|t| - 1].reply.Value?
    {
      hide Searched;
      hide SearchedThen;
      ok := false;
      var element;
      element, t := Locate(sid, f);
      if element.None? {
        NotFound(t, f, (e: string) => Type(e, text));
        return;
      }
      var use := Type(element.value, text);
      var reply := Send(Some(sid), use);
      ok := reply.Value?;
      FoundThen(t, f, (e: string) => Type(e, text), Exchange(Some(sid), use, reply));
      t := t + [Exchange(Some(sid), use, reply)];
    }

    method ClickOn(sid: string, f: Field) returns (ok: bool)
      requires Valid(sid)
      modifies this`trace, this`journal
      ensures Valid(sid) && Extends(old(journal), journal, [Press(f)], ok)
    {
      hide Ran;
      hide Extends;
      hide SearchedThen;
      ghost var t;
      ok, t := ClickIn(sid, f);
      PressRan(sid, f, t, ok);
      Note(sid, Press(f), t, ok);
    }

    method ClickIn(sid: string, f: Field) returns (ok: bool, ghost t: Trace)
      modifies this`trace
      ensures trace == old(trace) + t && InSession(t, sid) && SearchedThen(t, f, (e: string) => Click(e))
      ensures ok <==> t != [] && t[|t| - 1].request.Click? && t[|t| - 1].reply.Value?
    {
      hide Searched;
      hide SearchedThen;
      ok := false;
      var element;
      element, t := Locate(sid, f);
      if element.None? {
        NotFound(t, f, (e: string) => Click(e));
        return;
      }
      var use := Click(element.value);
      var reply := Send(Some(sid), use);
      ok := reply.Value?;
      FoundThen(t, f, (e: string) => Click(e), Exchange(Some(sid), use, reply));
      t := t + [Exchange(Some(sid), use, reply)];
    }

    method WriteCodeMirror(sid: string, text: string) returns (ok: bool)
      requires Valid(sid)
      modifies this`trace, this`journal
      ensures Valid(sid) && Extends(old(journal), journal, [WriteBody(text)], ok)
    {
      hide Ran;
      hide Extends;
      hide SearchedThen;
      ghost var t;
      ok, t := WriteInto(sid, text);
      WriteRan(sid, text, t, ok);
      Note(sid, WriteBody(text), t, ok);
    }

    method WriteInto(sid: string, text: string) returns (ok: bool, ghost t: Trace)
      modifies this`trace
      ensures trace == old(trace) + t && InSession(t, sid) && SearchedThen(t, Content, (e: string) => Run(CodeMirrorWrite, [e, text]))
      ensures ok <==> t != [] && t[|t| - 1].request.Run? && TruthOf(t[|t| - 1].reply) == Some(true)
    {
      hide Searched;
      hide SearchedThen;
      ok := false;
      var element;
      element, t := Locate(sid, Content);
      if element.None? {
        NotFound(t, Content, (e: string) => Run(CodeMirrorWrite, [e, text]));
        return;
      }
      var use := Run(CodeMirrorWrite, [element.value, text]);
      var reply := Send(Some(sid), use);
      ok := TruthOf(reply) == Some(true);
      FoundThen(t, Content, (e: string) => Run(CodeMirrorWrite, [e, text]), Exchange(Some(sid), use, reply));
      t := t + [Exchange(Some(sid), use, reply)];
    }

    /** Runs a script until its reply settles the matter or the attempts are used up. */
    method Poll(sid: string, s: Script, args: seq<string>, rule: Rule, attempts: nat) returns (ok: bool, last: Reply, ghost t: Trace)
      modifies this`trace
      ensures trace == old(trace) + t && Polled(t, s, args, rule, attempts, ok)
      ensures InSession(t, sid)
      ensures t != [] ==> last == t[|t| - 1].reply
    {
      t := [];
      ok, last := false, NoValue;
      for attempt := 0 to attempts
        invariant trace == old(trace) + t && |t| == attempt && !ok
        invariant forall i :: 0 <= i < |t| ==>
          t[i].request == Run(s, args) && t[i].session == Some(sid) && Judge(rule, t[i].reply) == Again
        invariant t != [] ==> last == t[|t| - 1].reply
      {
        last := Send(Some(sid), Run(s, args));
        t := t + [Exchange(Some(sid), Run(s, args), last)];
        if Judge(rule, last) != Again {
          return Judge(rule, last) == Done, last, t;
        }
      }
    }

    method WaitFor(sid: string, s: Script, args: seq<string>, rule: Rule, attempts: nat) returns (ok: bool)
      requires Valid(sid)
      modifies this`trace, this`journal
      ensures Valid(sid) && Extends(old(journal), journal, [Await(s, args, rule, attempts)], ok)
    {
      ghost var t;
      var last;
      ok, last, t := Poll(sid, s, args, rule, attempts);
      Note(sid, Await(s, args, rule, attempts), t, ok);
    }

    /** A script that has to succeed at once. */
    method Do(sid: string, s: Script, args: seq<string>, rule: Rule) returns (ok: bool)
      requires Valid(sid)
      modifies this`trace, this`journal
      ensures Valid(sid) && Extends(old(journal), journal, [Await(s, args, rule, 1)], ok)
    {
      var reply := Send(Some(sid), Run(s, args));
      ok := Judge(rule, reply) == Done;
      Note(sid, Await(s, args, rule, 1), [Exchange(Some(sid), Run(s, args), reply)], ok);
    }

    /** Looks for one success selector, and at the element found. */
    method LookFor(sid: string, k: nat) returns (seen: Option<bool>, ghost x: Trace)
      modifies this`trace
      ensures trace == old(trace) + x && LookedFor(x, k, seen)
      ensures InSession(x, sid)
    {
      var reply := Send(Some(sid), Find(Success, k));
      x := [Exchange(Some(sid), Find(Success, k), reply)];
      seen := Some(false);
      if ElementOf(reply).Some? {
        var e := ElementOf(reply).value;
        var visible := Send(Some(sid), Visible(e));
        seen := TruthOf(visible);
        x := x + [Exchange(Some(sid), Visible(e), visible)];
      }
    }

    /** Whether a success marker is in sight; `None` when the page would not say. */
    method SuccessMarkerVisible(sid: string) returns (seen: Option<bool>, ghost t: Trace)
      modifies this`trace
      ensures trace == old(trace) + t && Checked(t, 0, seen)
      ensures InSession(t, sid)
    {
      hide Checked;
      hide LookedFor;
      hide LeadsTo;
      t := [];
      LeadsFromStart();
      var n := Selectors(Success);
      for k := 0 to n
        invariant trace == old(trace) + t
        invariant InSession(t, sid)
        invariant LeadsTo(t, k)
      {
        ghost var x, before := [], t;
        seen, x := LookFor(sid, k);
        t := before + x;
        if seen != Some(false) {
          LastSelector(before, x, k, seen);
          return seen, t;
        }
        OneMoreSelector(before, x, k);
      }
      seen := Some(false);
      NoSelectorLeft(t);
    }
  }

  predicate LookedFor(x: Trace, k: nat, seen: Option<bool>) {
    && 1 <= |x| <= 2 && x[0].request == Find(Success, k)
    && match ElementOf(x[0].reply)
       case None => |x| == 1 && seen == Some(false)
       case Some(e) => |x| == 2 && x[1].request == Visible(e) && seen == TruthOf(x[1].reply)
  }

  /** After `t` a pass goes on with selector `k`. */
  ghost predicate LeadsTo(t: Trace, k: nat) {
    forall rest, seen :: Checked(rest, k, seen) ==> Checked(t + rest, 0, seen)
  }

  lemma LeadsFromStart()
    ensures LeadsTo([], 0)
  {
    assert forall rest: Trace :: [] + rest == rest;
  }

  lemma NoSelectorLeft(t: Trace)
    requires LeadsTo(t, Selectors(Success))
    ensures Checked(t, 0, Some(false))
  {
    assert Checked([], Selectors(Success), Some(false));
    assert t + [] == t;
  }

  lemma LastSelector(t: Trace, x: Trace, k: nat, seen: Option<bool>)
    requires k < Selectors(Success) && LeadsTo(t, k) && LookedFor(x, k, seen) && seen != Some(false)
    ensures Checked(t + x, 0, seen)
  {
    assert Checked(x, k, seen);
  }

  lemma OneMoreSelector(t: Trace, x: Trace, k: nat)
    requires k < Selectors(Success) && LeadsTo(t, k) && LookedFor(x, k, Some(false))
    ensures LeadsTo(t + x, k + 1)
  {
    forall rest, seen | Checked(rest, k + 1, seen) ensures Checked(t + x + rest, 0, seen) {
      assert Checked(x + rest, k, seen) by {
        assert (x + rest)[|x|..] == rest;
        assert (x + rest)[0] == x[0];
      }
      assert t + x + rest == t + (x + rest);
    }
  }

  /** A pass that saw no marker asked for both selectors, and at every element found whether it is visible. */
  lemma {:induction false} PassAsksForBoth(t: Trace)
    requires Checked(t, 0, Some(false))
    ensures 2 <= |t| <= 4 && t[0].request == Find(Success, 0)
    ensures var second := if ElementOf(t[0].reply).Some? then 2 else 1;
      && second < |t| && t[second].request == Find(Success, 1)
      && (second == 2 ==> t[1].request == Visible(ElementOf(t[0].reply).value) && TruthOf(t[1].reply) == Some(false))
      && (ElementOf(t[second].reply).Some? ==>
            && |t| == second + 2 && t[second + 1].request == Visible(ElementOf(t[second].reply).value)
            && TruthOf(t[second + 1].reply) == Some(false))
  {
    var second := if ElementOf(t[0].reply).Some? then 2 else 1;
    assert Checked(t[second..], 1, Some(false));
    if ElementOf(t[second].reply).Some? {
      assert Checked(t[second..][2..], 2, Some(false));
    } else {
      assert Checked(t[second..][1..], 2, Some(false));
    }
  }

  /** A pass has one result. */
  lemma {:induction false} CheckedOnce(t: Trace, k: nat, a: Option<bool>, b: Option<bool>)
    requires Checked(t, k, a) && Checked(t, k, b)
    ensures a == b
    decreases |t|
  {
    if k < Selectors(Success) {
      if ElementOf(t[0].reply).None? {
        CheckedOnce(t[1..], k + 1, a, b);
      } else if TruthOf(t[1].reply) == Some(false) {
        CheckedOnce(t[2..], k + 1, a, b);
      }
    }
  }
}
