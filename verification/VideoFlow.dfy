/**
 The video publication workflow: per-platform page work between the creation and
 the deletion of one browser session.
 */
module VideoFlow {
  import opened Platforms
  import opened Wrappers
  import opened WebDriver

  /** A request as the workflow uses it: texts, product and statement already resolved for the platform. */
  datatype Job = Job(
    platform: Platform,
    file: Option<string>,
    draft: bool,
    title: string,
    shortTitle: Option<string>,
    description: string,
    tags: seq<string>,
    product: Result<Option<string>, ()>,
    statement: Option<string>)

  datatype Outcome = Accepted(job: nat) | Refused | Incomplete

  // ------------------------------------------------------------------- plans

  /** Tags are submitted one by one; a blank one ends the workflow. */
  function TagPlan(tags: seq<string>): seq<Step> {
    if tags == [] then []
    else if tags[0] == "" then [Refuse]
    else [Await(TagSubmit, [tags[0]], Truth, 1), Await(TagCommitted, [], Truth, STATEMENT_ATTEMPTS)] + TagPlan(tags[1..])
  }

  function ShortPart(job: Job): seq<Step> {
    if job.platform == WechatChannels && job.shortTitle.Some? then [Enter(ShortTitle, job.shortTitle.value)] else []
  }

  function TextPart(job: Job): seq<Step> {
    if job.description != "" then [Enter(Description, job.description)] else []
  }

  function TagPart(job: Job): seq<Step> {
    if job.platform == Bilibili then TagPlan(job.tags) else []
  }

  function MetadataPlan(job: Job): seq<Step> {
    [Enter(Title, job.title)]
    + if job.platform == Kuaishou then [] else ShortPart(job) + TextPart(job) + TagPart(job)
  }

  function UploadPlan(p: Platform, file: string): seq<Step> {
    [Open(Upload(p)), Enter(File, file)]
    + (if p == Bilibili then [Await(UploadState(Bilibili), [], READY, UPLOAD_ATTEMPTS)] else [])
  }

  function ChoosePlan(product: string): seq<Step> {
    [Await(ProductTypeReady, [], Truth, SHADOW_ATTEMPTS),
     Await(ProductChooser, [], Truth, 1),
     Await(ProductDialog, [], Truth, SHADOW_ATTEMPTS),
     Await(ProductSearch, [product], Truth, 1),
     Await(ProductRow, [product], Truth, SHADOW_ATTEMPTS)]
  }

  function AttachPlan(product: string): seq<Step> {
    [Await(ProductSelect, [product], Truth, 1),
     Await(ProductAddReady, [], Truth, SHADOW_ATTEMPTS),
     Await(ProductAdd, [], Truth, 1),
     Await(ProductAttached, [], Truth, SHADOW_ATTEMPTS)]
  }

  function PickPlan(p: Platform, text: string): seq<Step> {
    [Await(StatementOpen(p), [], Truth, 1),
     Await(StatementShown(p), [text], Truth, STATEMENT_ATTEMPTS),
     Await(StatementSelect(p), [text], Truth, 1)]
  }

  function SettlePlan(p: Platform, text: string): seq<Step> {
    if p == Douyin || p == Baijiahao then
      [Await(StatementConfirm(p), [text], Truth, 1), Await(StatementGone(p), [text], Truth, STATEMENT_ATTEMPTS)]
    else if p == Bilibili then [Await(StatementGone(p), [text], Truth, STATEMENT_ATTEMPTS)]
    else [Await(StatementApplied(p), [text], if p == Xiaohongshu then PROVEN else Truth, STATEMENT_ATTEMPTS)]
  }

  function StatementPlan(p: Platform, text: string): seq<Step>
    requires p != FanqieVideo
  {
    if p == Toutiao then [ToutiaoStatement(text)]
    else if p == WechatChannels then
      [Await(StatementOpen(p), [], Truth, 1), Await(StatementSelect(p), [text], Truth, SHADOW_ATTEMPTS)]
    else PickPlan(p, text) + SettlePlan(p, text)
  }

  function DouyinPlan(): seq<Step> {
    [Await(UploadState(Douyin), [], READY, READY_ATTEMPTS), SavePermission]
  }

  function WechatPlan(): seq<Step> {
    [Original, Await(UploadState(WechatChannels), [], READY, UPLOAD_ATTEMPTS)]
  }

  function ProductPart(job: Job): seq<Step> {
    if job.platform == WechatChannels && job.product.Ok? && job.product.value.Some?
    then ChoosePlan(job.product.value.value) + AttachPlan(job.product.value.value) else []
  }

  function StatementPart(job: Job): seq<Step> {
    if job.platform != FanqieVideo && job.statement.Some? then StatementPlan(job.platform, job.statement.value) else []
  }

  /** What has to be in order on the page before the closing action. */
  function SettingsPlan(job: Job): seq<Step> {
    ProductPart(job)
    + (if job.platform == Douyin then DouyinPlan() else [])
    + StatementPart(job)
    + (if job.platform == WechatChannels then WechatPlan() else [])
    + (if job.platform == Xiaohongshu then [PkCover] else [])
  }

  /** Fanqie selects its channels in a panel, then publishes with one click and reports a result. */
  function ChannelsPlan(): seq<Step> {
    [Await(UploadState(FanqieVideo), [], Truth, FANQIE_ATTEMPTS),
     Await(PanelOpen, [], PANEL_OPEN, 1),
     Await(PanelVisible, [], Truth, FANQIE_ATTEMPTS),
     Await(ChannelsEnable, [], CHANNELS_ON, 1),
     Await(ChannelsSelected, [], Truth, FANQIE_ATTEMPTS)]
  }

  function OneClickPlan(): seq<Step> {
    [Await(ActionState(FanqieVideo), [], ONE_CLICK_READY, FANQIE_ATTEMPTS),
     Await(Action(FanqieVideo), [], CLICKED, 1),
     Await(PublishResult, [], SUCCEEDED, FANQIE_ATTEMPTS)]
  }

  /** The one action that publishes or saves the draft. */
  function ActionPlan(p: Platform, draft: bool): seq<Step> {
    match p
    case Baijiahao =>
      var args := [if draft then "draft" else "publish"];
      [Await(ActionState(p), args, READY, ACTION_ATTEMPTS), Await(Action(p), args, CLICKED, 1)]
    case Toutiao => [Footer(draft)]
    case Kuaishou => [Await(ActionState(p), [], READY, ACTION_ATTEMPTS), Await(Action(p), [], CLICKED, 1)]
    case _ => [Press(if draft then DraftButton else Submit)]
  }

  function ClosingPlan(p: Platform, draft: bool, acknowledgements: nat): seq<Step> {
    if p == FanqieVideo then ChannelsPlan() + OneClickPlan()
    else [MarkersAbsent] + ActionPlan(p, draft) + [Acknowledge(acknowledgements)]
  }

  /** Everything a job does between session creation and deletion. */
  function Plan(job: Job, acknowledgements: nat): seq<Step>
    requires job.file.Some?
  {
    UploadPlan(job.platform, job.file.value) + MetadataPlan(job) + SettingsPlan(job)
    + ClosingPlan(job.platform, job.draft, acknowledgements)
  }

  /** Jobs turned away before a session is asked for. */
  predicate RefusedUpFront(job: Job) {
    || job.file.None?
    || (job.platform == WechatChannels && job.product.Err?)
    || (job.draft && (job.platform == FanqieVideo || job.platform == Kuaishou))
  }

  // ---------------------------------------------------- steps with branches

  method LookAtPermission(b: Browser, sid: string) returns (verdict: Verdict, ghost t: Trace)
    modifies b`trace
    ensures b.trace == old(b.trace) + t && InSession(t, sid) && IsLook(t) && verdict == LookVerdict(t)
  {
    var state := b.Send(Some(sid), Run(PermissionState, []));
    t := [Exchange(Some(sid), Run(PermissionState, []), state)];
    if Says(state, {"selected"}) {
      verdict := Done;
    } else if Says(state, {"ready"}) {
      var action := b.Send(Some(sid), Run(PermissionAction, []));
      t := t + [Exchange(Some(sid), Run(PermissionAction, []), action)];
      verdict := if Says(action, {"selected", "clicked"}) then Done else if Says(action, {"pending"}) then Again else Stop;
    } else {
      verdict := if Says(state, {"pending"}) then Again else Stop;
    }
  }

  method SetSavePermission(b: Browser, sid: string) returns (ok: bool)
    requires b.Valid(sid)
    modifies b`trace, b`journal
    ensures b.Valid(sid) && Extends(old(b.journal), b.journal, [SavePermission], ok)
  {
    ghost var t;
    ok, t := LookUntilPermitted(b, sid);
    b.Note(sid, SavePermission, t, ok);
  }

  method LookUntilPermitted(b: Browser, sid: string) returns (ok: bool, ghost t: Trace)
    modifies b`trace
    ensures b.trace == old(b.trace) + t && InSession(t, sid) && Permitting(t, ok)
  {
    hide IsLook;
    hide LookVerdict;
    t := [];
    ghost var looks := [];
    for attempt := 0 to READY_ATTEMPTS
      invariant |looks| == attempt && t == Join(looks) && b.trace == old(b.trace) + t && InSession(t, sid)
      invariant forall i :: 0 <= i < |looks| ==> IsLook(looks[i]) && LookVerdict(looks[i]) == Again
    {
      var verdict, look := LookAtPermission(b, sid);
      JoinPush(looks, look);
      looks, t := looks + [look], t + look;
      if verdict != Again {
        assert PermittedBy(looks, verdict == Done);
        return verdict == Done, t;
      }
    }
    ok := false;
    assert PermittedBy(looks, false);
  }

  lemma JoinPush(parts: seq<Trace>, t: Trace)
    ensures Join(parts + [t]) == Join(parts) + t
  {
    assert (parts + [t])[..|parts|] == parts;
  }

  method ApplyToutiaoStatement(b: Browser, sid: string, text: string) returns (ok: bool)
    requires b.Valid(sid)
    modifies b`trace, b`journal
    ensures b.Valid(sid) && Extends(old(b.journal), b.journal, [ToutiaoStatement(text)], ok)
  {
    ghost var t;
    ok, t := ChooseSource(b, sid, text);
    b.Note(sid, ToutiaoStatement(text), t, ok);
  }

  method ChooseSource(b: Browser, sid: string, text: string) returns (ok: bool, ghost t: Trace)
    modifies b`trace
    ensures b.trace == old(b.trace) + t && InSession(t, sid) && ChoosingSource(t, text, ok)
  {
    var selected := b.Send(Some(sid), Run(StatementApplied(Toutiao), [text]));
    t := [Exchange(Some(sid), Run(StatementApplied(Toutiao), [text]), selected)];
    ok := TruthOf(selected) == Some(true);
    if TruthOf(selected) == Some(false) {
      var select := b.Send(Some(sid), Run(StatementSelect(Toutiao), [text]));
      t := t + [Exchange(Some(sid), Run(StatementSelect(Toutiao), [text]), select)];
      ok := Says(select, {"selected"});
      if Says(select, {"clicked"}) {
        ghost var p;
        var last;
        ok, last, p := b.Poll(sid, StatementApplied(Toutiao), [text], Truth, STATEMENT_ATTEMPTS);
        assert (t + p)[2..] == p;
        t := t + p;
      }
    }
  }

  method NormalizePkCover(b: Browser, sid: string) returns (ok: bool)
    requires b.Valid(sid)
    modifies b`trace, b`journal
    ensures b.Valid(sid) && Extends(old(b.journal), b.journal, [PkCover], ok)
  {
    ghost var t;
    ok, t := ClearCover(b, sid);
    b.Note(sid, PkCover, t, ok);
  }

  method ClearCover(b: Browser, sid: string) returns (ok: bool, ghost t: Trace)
    modifies b`trace
    ensures b.trace == old(b.trace) + t && InSession(t, sid) && ClearingCover(t, ok)
  {
    var state := b.Send(Some(sid), Run(PkCoverState, []));
    t := [Exchange(Some(sid), Run(PkCoverState, []), state)];
    ok := Says(state, {"absent", "unchecked"});
    if Says(state, {"checked"}) {
      var closed := b.Send(Some(sid), Run(PkCoverClose, []));
      t := t + [Exchange(Some(sid), Run(PkCoverClose, []), closed)];
      if TruthOf(closed) == Some(true) {
        ghost var p;
        var last;
        ok, last, p := b.Poll(sid, PkCoverState, [], CLEARED, STATEMENT_ATTEMPTS);
        assert (t + p)[2..] == p;
        t := t + p;
      }
    }
  }

  method TryDeclareOriginal(b: Browser, sid: string) returns (ok: bool)
    requires b.Valid(sid)
    modifies b`trace, b`journal
    ensures b.Valid(sid) && Extends(old(b.journal), b.journal, [Original], ok)
  {
    ghost var t;
    ok, t := Declare(b, sid);
    b.Note(sid, Original, t, ok);
  }

  /** One question of the declaration. */
  method Ask(b: Browser, sid: string, s: Stage) returns (answer: Option<bool>, ghost t: Trace)
    modifies b`trace
    ensures b.trace == old(b.trace) + t && InSession(t, sid) && t != [] && answer == TruthOf(t[|t| - 1].reply)
    ensures Polled(t, StageScript(s), [], Truth, StageAttempts(s), answer == Some(true))
  {
    var ok, last;
    ok, last, t := b.Poll(sid, StageScript(s), [], Truth, StageAttempts(s));
    answer := TruthOf(last);
  }

  lemma Ends(s: Stage, t: Trace, ok: bool)
    requires t != [] && After(s, TruthOf(t[|t| - 1].reply)) == Over(ok)
    requires Polled(t, StageScript(s), [], Truth, StageAttempts(s), TruthOf(t[|t| - 1].reply) == Some(true))
    ensures Declaring(s, t, ok)
  {
    assert t[..|t|] == t;
    assert DeclaringPart(s, t, |t|, ok);
  }

  lemma GoesOn(s: Stage, t: Trace, next: Stage, rest: Trace, ok: bool)
    requires t != [] && After(s, TruthOf(t[|t| - 1].reply)) == On(next)
    requires Polled(t, StageScript(s), [], Truth, StageAttempts(s), TruthOf(t[|t| - 1].reply) == Some(true))
    requires Declaring(next, rest, ok)
    ensures Declaring(s, t + rest, ok)
  {
    var u := t + rest;
    assert u[..|t|] == t && u[|t|..] == rest;
    hide Polled;
    hide Declaring;
    assert DeclaringPart(s, u, |t|, ok);
    Part(s, u, |t|, ok);
  }

  lemma Part(s: Stage, t: Trace, n: nat, ok: bool)
    requires 0 < n <= |t| && DeclaringPart(s, t, n, ok)
    ensures Declaring(s, t, ok)
  {
  }

  /** Declares the video original if the page offers it. */
  method Declare(b: Browser, sid: string) returns (ok: bool, ghost t: Trace)
    modifies b`trace
    ensures b.trace == old(b.trace) + t && InSession(t, sid) && Declaring(Offered, t, ok)
  {
    hide Polled;
    hide Declaring;
    hide TruthOf;
    var offered, ask := Ask(b, sid, Offered);
    if offered != Some(true) {
      Ends(Offered, ask, offered == Some(false));
      return offered == Some(false), ask;
    }
    var up, wait := Ask(b, sid, AnyDialog);
    if up != Some(true) {
      Ends(AnyDialog, wait, up == Some(false));
      GoesOn(Offered, ask, AnyDialog, wait, up == Some(false));
      return up == Some(false), ask + wait;
    }
    ok, t := DeclareInDialog(b, sid);
    GoesOn(AnyDialog, wait, Protocol, t, ok);
    GoesOn(Offered, ask, AnyDialog, wait + t, ok);
    t := ask + (wait + t);
  }

  /** From the moment some dialog is up. */
  method DeclareInDialog(b: Browser, sid: string) returns (ok: bool, ghost t: Trace)
    modifies b`trace
    ensures b.trace == old(b.trace) + t && InSession(t, sid) && Declaring(Protocol, t, ok)
  {
    hide Polled;
    hide Declaring;
    hide TruthOf;
    var protocol, ask := Ask(b, sid, Protocol);
    if protocol == Some(true) {
      ok, t := ConfirmProtocol(b, sid);
      GoesOn(Protocol, ask, AcceptProtocol, t, ok);
      t := ask + t;
      return;
    }
    if protocol.None? {
      Ends(Protocol, ask, false);
      return false, ask;
    }
    var up, look := Ask(b, sid, DeclarationUp);
    if up != Some(true) {
      Ends(DeclarationUp, look, false);
      GoesOn(Protocol, ask, DeclarationUp, look, false);
      return false, ask + look;
    }
    ok, t := ConfirmDeclaration(b, sid);
    GoesOn(DeclarationUp, look, AcceptDeclaration, t, ok);
    GoesOn(Protocol, ask, DeclarationUp, look + t, ok);
    t := ask + (look + t);
  }

  /** Accepts the protocol; the declaration may end here without its own dialog ever coming up. */
  method ConfirmProtocol(b: Browser, sid: string) returns (ok: bool, ghost t: Trace)
    modifies b`trace
    ensures b.trace == old(b.trace) + t && InSession(t, sid) && Declaring(AcceptProtocol, t, ok)
  {
    hide Polled;
    hide Declaring;
    hide TruthOf;
    var accepted, accept := Ask(b, sid, AcceptProtocol);
    if accepted != Some(true) {
      Ends(AcceptProtocol, accept, false);
      return false, accept;
    }
    ok, t := AwaitDeclaration(b, sid);
    GoesOn(AcceptProtocol, accept, ProtocolLeft, t, ok);
    t := accept + t;
  }

  method AwaitDeclaration(b: Browser, sid: string) returns (ok: bool, ghost t: Trace)
    modifies b`trace
    ensures b.trace == old(b.trace) + t && InSession(t, sid) && Declaring(ProtocolLeft, t, ok)
  {
    hide Polled;
    hide Declaring;
    hide TruthOf;
    var left, leave := Ask(b, sid, ProtocolLeft);
    if left != Some(true) {
      Ends(ProtocolLeft, leave, false);
      return false, leave;
    }
    var up, wait := Ask(b, sid, DeclarationFollows);
    if up != Some(true) {
      Ends(DeclarationFollows, wait, up == Some(false));
      GoesOn(ProtocolLeft, leave, DeclarationFollows, wait, up == Some(false));
      return up == Some(false), leave + wait;
    }
    ok, t := ConfirmDeclaration(b, sid);
    GoesOn(DeclarationFollows, wait, AcceptDeclaration, t, ok);
    GoesOn(ProtocolLeft, leave, DeclarationFollows, wait + t, ok);
    t := leave + (wait + t);
  }

  method ConfirmDeclaration(b: Browser, sid: string) returns (ok: bool, ghost t: Trace)
    modifies b`trace
    ensures b.trace == old(b.trace) + t && InSession(t, sid) && Declaring(AcceptDeclaration, t, ok)
  {
    hide Polled;
    hide Declaring;
    hide TruthOf;
    var accepted, accept := Ask(b, sid, AcceptDeclaration);
    if accepted != Some(true) {
      Ends(AcceptDeclaration, accept, false);
      return false, accept;
    }
    var left, leave := Ask(b, sid, DeclarationLeft);
    ok, t := left == Some(true), leave;
    Ends(DeclarationLeft, leave, ok);
    GoesOn(AcceptDeclaration, accept, DeclarationLeft, leave, ok);
    t := accept + leave;
  }

  method CheckMarkersAbsent(b: Browser, sid: string) returns (ok: bool)
    requires b.Valid(sid)
    modifies b`trace, b`journal
    ensures b.Valid(sid) && Extends(old(b.journal), b.journal, [MarkersAbsent], ok)
  {
    hide Checked;
    var seen, t := b.SuccessMarkerVisible(sid);
    ok := seen == Some(false);
    if !ok && Checked(t, 0, Some(false)) { CheckedOnce(t, 0, seen, Some(false)); }
    b.Note(sid, MarkersAbsent, t, ok);
  }

  method WaitForSuccess(b: Browser, sid: string, attempts: nat) returns (ok: bool)
    requires b.Valid(sid)
    modifies b`trace, b`journal
    ensures b.Valid(sid) && Extends(old(b.journal), b.journal, [Acknowledge(attempts)], ok)
  {
    ghost var passes;
    ok, passes := WatchForSuccess(b, sid, attempts);
    b.Note(sid, Acknowledge(attempts), Join(passes), ok);
  }

  method WatchForSuccess(b: Browser, sid: string, attempts: nat) returns (ok: bool, ghost passes: seq<Trace>)
    modifies b`trace
    ensures b.trace == old(b.trace) + Join(passes) && InSession(Join(passes), sid) && Watched(passes, attempts, ok)
  {
    hide Checked;
    hide Watched;
    passes := [];
    for attempt := 0 to attempts
      invariant |passes| == attempt && forall i :: 0 <= i < |passes| ==> Checked(passes[i], 0, Some(false))
      invariant b.trace == old(b.trace) + Join(passes) && InSession(Join(passes), sid)
    {
      var seen, t := b.SuccessMarkerVisible(sid);
      OneMorePass(passes, t, seen, attempts);
      ghost var before := passes;
      passes := passes + [t];
      assert passes[..|passes| - 1] == before;
      if seen != Some(false) {
        return seen == Some(true), passes;
      }
    }
    ok := false;
    NothingSeen(passes, attempts);
  }

  lemma OneMorePass(before: seq<Trace>, t: Trace, seen: Option<bool>, attempts: nat)
    requires |before| < attempts && Checked(t, 0, seen)
    requires forall i :: 0 <= i < |before| ==> Checked(before[i], 0, Some(false))
    ensures seen != Some(false) ==> Watched(before + [t], attempts, seen == Some(true))
  {
    if Checked(t, 0, Some(false)) { CheckedOnce(t, 0, seen, Some(false)); }
    if Checked(t, 0, Some(true)) { CheckedOnce(t, 0, seen, Some(true)); }
  }

  lemma NothingSeen(passes: seq<Trace>, attempts: nat)
    requires |passes| == attempts && forall i :: 0 <= i < |passes| ==> Checked(passes[i], 0, Some(false))
    ensures Watched(passes, attempts, false)
  {
    if passes != [] {
      var last := passes[|passes| - 1];
      if Checked(last, 0, Some(true)) { CheckedOnce(last, 0, Some(true), Some(false)); }
    }
  }

  method PublishFooter(b: Browser, sid: string, draft: bool) returns (ok: bool)
    requires b.Valid(sid)
    modifies b`trace, b`journal
    ensures b.Valid(sid) && Extends(old(b.journal), b.journal, [Footer(draft)], ok)
  {
    ghost var t;
    ok, t := UseFooter(b, sid, draft);
    b.Note(sid, Footer(draft), t, ok);
  }

  method UseFooter(b: Browser, sid: string, draft: bool) returns (ok: bool, ghost t: Trace)
    modifies b`trace
    ensures b.trace == old(b.trace) + t && InSession(t, sid) && UsingFooter(t, draft, ok)
  {
    var ready, layout;
    ready, layout, t := b.Poll(sid, ActionState(Toutiao), [], FOOTER_READY, STATEMENT_ATTEMPTS);
    ok := false;
    if ready {
      var action := if draft && Says(layout, {"horizontal_ready"}) then "draft" else "submit";
      var reply := b.Send(Some(sid), Run(Action(Toutiao), [action]));
      ok := Judge(CLICKED, reply) == Done;
      ghost var polls := t;
      t := t + [Exchange(Some(sid), Run(Action(Toutiao), [action]), reply)];
      assert t[..|t| - 1] == polls;
    }
  }

  // ------------------------------------------------------------------ phases

  /** Finds the product's row in the chooser. */
  method ChooseProduct(b: Browser, sid: string, product: string) returns (ok: bool)
    requires b.Valid(sid)
    modifies b`trace, b`journal
    ensures b.Valid(sid) && Extends(old(b.journal), b.journal, ChoosePlan(product), ok)
  {
    hide Extends;
    hide Reached;
    hide Ran;
    ghost var j0, j, plan := b.journal, b.journal, ChoosePlan(product);
    Start(j0, plan);
    ok := b.WaitFor(sid, ProductTypeReady, [], Truth, SHADOW_ATTEMPTS);
    Advance(j0, j, b.journal, plan, 0, ok);
    if !ok { return; }
    j := b.journal;
    ok := b.Do(sid, ProductChooser, [], Truth);
    Advance(j0, j, b.journal, plan, 1, ok);
    if !ok { return; }
    j := b.journal;
    ok := b.WaitFor(sid, ProductDialog, [], Truth, SHADOW_ATTEMPTS);
    Advance(j0, j, b.journal, plan, 2, ok);
    if !ok { return; }
    j := b.journal;
    ok := b.Do(sid, ProductSearch, [product], Truth);
    Advance(j0, j, b.journal, plan, 3, ok);
    if !ok { return; }
    j := b.journal;
    ok := b.WaitFor(sid, ProductRow, [product], Truth, SHADOW_ATTEMPTS);
    Advance(j0, j, b.journal, plan, 4, ok);
    if ok { Finish(j0, b.journal, plan); }
  }

  /** Selects and adds exactly that product. */
  method AttachChosen(b: Browser, sid: string, product: string) returns (ok: bool)
    requires b.Valid(sid)
    modifies b`trace, b`journal
    ensures b.Valid(sid) && Extends(old(b.journal), b.journal, AttachPlan(product), ok)
  {
    hide Extends;
    hide Reached;
    hide Ran;
    ghost var j0, j, plan := b.journal, b.journal, AttachPlan(product);
    Start(j0, plan);
    ok := b.Do(sid, ProductSelect, [product], Truth);
    Advance(j0, j, b.journal, plan, 0, ok);
    if !ok { return; }
    j := b.journal;
    ok := b.WaitFor(sid, ProductAddReady, [], Truth, SHADOW_ATTEMPTS);
    Advance(j0, j, b.journal, plan, 1, ok);
    if !ok { return; }
    j := b.journal;
    ok := b.Do(sid, ProductAdd, [], Truth);
    Advance(j0, j, b.journal, plan, 2, ok);
    if !ok { return; }
    j := b.journal;
    ok := b.WaitFor(sid, ProductAttached, [], Truth, SHADOW_ATTEMPTS);
    Advance(j0, j, b.journal, plan, 3, ok);
    if ok { Finish(j0, b.journal, plan); }
  }

  /** Opens the channel panel and switches the channels on. */
  method SelectChannels(b: Browser, sid: string) returns (ok: bool)
    requires b.Valid(sid)
    modifies b`trace, b`journal
    ensures b.Valid(sid) && Extends(old(b.journal), b.journal, ChannelsPlan(), ok)
  {
    hide Extends;
    hide Reached;
    hide Ran;
    ghost var j0, j, plan := b.journal, b.journal, ChannelsPlan();
    Start(j0, plan);
    ok := b.WaitFor(sid, UploadState(FanqieVideo), [], Truth, FANQIE_ATTEMPTS);
    Advance(j0, j, b.journal, plan, 0, ok);
    if !ok { return; }
    j := b.journal;
    ok := b.Do(sid, PanelOpen, [], PANEL_OPEN);
    Advance(j0, j, b.journal, plan, 1, ok);
    if !ok { return; }
    j := b.journal;
    ok := b.WaitFor(sid, PanelVisible, [], Truth, FANQIE_ATTEMPTS);
    Advance(j0, j, b.journal, plan, 2, ok);
    if !ok { return; }
    j := b.journal;
    ok := b.Do(sid, ChannelsEnable, [], CHANNELS_ON);
    Advance(j0, j, b.journal, plan, 3, ok);
    if !ok { return; }
    j := b.journal;
    ok := b.WaitFor(sid, ChannelsSelected, [], Truth, FANQIE_ATTEMPTS);
    Advance(j0, j, b.journal, plan, 4, ok);
    if ok { Finish(j0, b.journal, plan); }
  }

  /** Publishes once ready and waits for the result. */
  method OneClickPublish(b: Browser, sid: string) returns (ok: bool)
    requires b.Valid(sid)
    modifies b`trace, b`journal
    ensures b.Valid(sid) && Extends(old(b.journal), b.journal, OneClickPlan(), ok)
  {
    hide Extends;
    hide Reached;
    hide Ran;
    ghost var j0, j, plan := b.journal, b.journal, OneClickPlan();
    Start(j0, plan);
    ok := b.WaitFor(sid, ActionState(FanqieVideo), [], ONE_CLICK_READY, FANQIE_ATTEMPTS);
    Advance(j0, j, b.journal, plan, 0, ok);
    if !ok { return; }
    j := b.journal;
    ok := b.Do(sid, Action(FanqieVideo), [], CLICKED);
    Advance(j0, j, b.journal, plan, 1, ok);
    if !ok { return; }
    j := b.journal;
    ok := b.WaitFor(sid, PublishResult, [], SUCCEEDED, FANQIE_ATTEMPTS);
    Advance(j0, j, b.journal, plan, 2, ok);
    if ok { Finish(j0, b.journal, plan); }
  }

  method PublishFanqie(b: Browser, sid: string) returns (ok: bool)
    requires b.Valid(sid)
    modifies b`trace, b`journal
    ensures b.Valid(sid) && Extends(old(b.journal), b.journal, ChannelsPlan() + OneClickPlan(), ok)
  {
    hide Ran;
    hide Extends;
    hide ChannelsPlan;
    hide OneClickPlan;
    ghost var j0 := b.journal;
    ok := SelectChannels(b, sid);
    if !ok {
      ExtendsPart(j0, b.journal, ChannelsPlan(), OneClickPlan());
      return;
    }
    ghost var j := b.journal;
    ok := OneClickPublish(b, sid);
    ExtendsThen(j0, j, b.journal, ChannelsPlan(), OneClickPlan(), ok);
  }

  /** Opens the statement list, waits for it, and picks the statement. */
  method PickStatement(b: Browser, sid: string, p: Platform, text: string) returns (ok: bool)
    requires b.Valid(sid)
    modifies b`trace, b`journal
    ensures b.Valid(sid) && Extends(old(b.journal), b.journal, PickPlan(p, text), ok)
  {
    hide Extends;
    hide Reached;
    hide Ran;
    ghost var j0, j, plan := b.journal, b.journal, PickPlan(p, text);
    Start(j0, plan);
    ok := b.Do(sid, StatementOpen(p), [], Truth);
    Advance(j0, j, b.journal, plan, 0, ok);
    if !ok { return; }
    j := b.journal;
    ok := b.WaitFor(sid, StatementShown(p), [text], Truth, STATEMENT_ATTEMPTS);
    Advance(j0, j, b.journal, plan, 1, ok);
    if !ok { return; }
    j := b.journal;
    ok := b.Do(sid, StatementSelect(p), [text], Truth);
    Advance(j0, j, b.journal, plan, 2, ok);
    if ok { Finish(j0, b.journal, plan); }
  }

  /** What shows that the statement has taken. */
  method SettleStatement(b: Browser, sid: string, p: Platform, text: string) returns (ok: bool)
    requires b.Valid(sid)
    modifies b`trace, b`journal
    ensures b.Valid(sid) && Extends(old(b.journal), b.journal, SettlePlan(p, text), ok)
  {
    hide Ran;
    if p == Douyin || p == Baijiahao {
      ok := b.Do(sid, StatementConfirm(p), [text], Truth);
      if ok {
        ok := b.WaitFor(sid, StatementGone(p), [text], Truth, STATEMENT_ATTEMPTS);
      }
    } else if p == Bilibili {
      ok := b.WaitFor(sid, StatementGone(p), [text], Truth, STATEMENT_ATTEMPTS);
    } else {
      ok := b.WaitFor(sid, StatementApplied(p), [text], if p == Xiaohongshu then PROVEN else Truth, STATEMENT_ATTEMPTS);
    }
  }

  /** WeChat's statement list needs no wait of its own. */
  method ApplyWechatStatement(b: Browser, sid: string, text: string) returns (ok: bool)
    requires b.Valid(sid)
    modifies b`trace, b`journal
    ensures b.Valid(sid) && Extends(old(b.journal), b.journal, StatementPlan(WechatChannels, text), ok)
  {
    hide Ran;
    ok := b.Do(sid, StatementOpen(WechatChannels), [], Truth);
    if ok {
      ok := b.WaitFor(sid, StatementSelect(WechatChannels), [text], Truth, SHADOW_ATTEMPTS);
    }
  }

  method ApplyStatement(b: Browser, sid: string, p: Platform, text: string) returns (ok: bool)
    requires b.Valid(sid) && p != FanqieVideo
    modifies b`trace, b`journal
    ensures b.Valid(sid) && Extends(old(b.journal), b.journal, StatementPlan(p, text), ok)
  {
    hide Ran;
    hide Extends;
    hide PickPlan;
    hide SettlePlan;
    if p == Toutiao {
      ok := ApplyToutiaoStatement(b, sid, text);
    } else if p == WechatChannels {
      ok := ApplyWechatStatement(b, sid, text);
    } else {
      ghost var j0 := b.journal;
      ok := PickStatement(b, sid, p, text);
      if !ok {
        ExtendsPart(j0, b.journal, PickPlan(p, text), SettlePlan(p, text));
        return;
      }
      ghost var j := b.journal;
      ok := SettleStatement(b, sid, p, text);
      ExtendsThen(j0, j, b.journal, PickPlan(p, text), SettlePlan(p, text), ok);
    }
  }

  /** The readiness wait and the action of Baijiahao and Kuaishou. */
  method ActWhenReady(b: Browser, sid: string, p: Platform, args: seq<string>) returns (ok: bool)
    requires b.Valid(sid)
    modifies b`trace, b`journal
    ensures b.Valid(sid) && Extends(old(b.journal), b.journal,
      [Await(ActionState(p), args, READY, ACTION_ATTEMPTS), Await(Action(p), args, CLICKED, 1)], ok)
  {
    hide Ran;
    ok := b.WaitFor(sid, ActionState(p), args, READY, ACTION_ATTEMPTS);
    if ok {
      ok := b.Do(sid, Action(p), args, CLICKED);
    }
  }

  method Act(b: Browser, sid: string, p: Platform, draft: bool) returns (ok: bool)
    requires b.Valid(sid)
    modifies b`trace, b`journal
    ensures b.Valid(sid) && Extends(old(b.journal), b.journal, ActionPlan(p, draft), ok)
  {
    hide Extends;
    hide Ran;
    if p == Baijiahao {
      ok := ActWhenReady(b, sid, p, [if draft then "draft" else "publish"]);
    } else if p == Toutiao {
      ok := PublishFooter(b, sid, draft);
    } else if p == Kuaishou {
      ok := ActWhenReady(b, sid, p, []);
    } else {
      ok := b.ClickOn(sid, if draft then DraftButton else Submit);
    }
  }

  method Close(b: Browser, sid: string, p: Platform, draft: bool, acknowledgements: nat) returns (ok: bool)
    requires b.Valid(sid)
    modifies b`trace, b`journal
    ensures b.Valid(sid) && Extends(old(b.journal), b.journal, ClosingPlan(p, draft, acknowledgements), ok)
  {
    hide Extends;
    hide Ran;
    hide ActionPlan;
    if p == FanqieVideo {
      ok := PublishFanqie(b, sid);
      return;
    }
    ghost var j0 := b.journal;
    ok := CheckMarkersAbsent(b, sid);
    if !ok {
      ExtendsPart(j0, b.journal, [MarkersAbsent], ActionPlan(p, draft) + [Acknowledge(acknowledgements)]);
      Associate([MarkersAbsent], ActionPlan(p, draft), [Acknowledge(acknowledgements)]);
      return;
    }
    ghost var j1 := b.journal;
    ok := Act(b, sid, p, draft);
    ExtendsThen(j0, j1, b.journal, [MarkersAbsent], ActionPlan(p, draft), ok);
    if !ok {
      ExtendsPart(j0, b.journal, [MarkersAbsent] + ActionPlan(p, draft), [Acknowledge(acknowledgements)]);
      return;
    }
    ghost var j2 := b.journal;
    ok := WaitForSuccess(b, sid, acknowledgements);
    ExtendsThen(j0, j2, b.journal, [MarkersAbsent] + ActionPlan(p, draft), [Acknowledge(acknowledgements)], ok);
  }

  lemma Associate<T>(a: seq<T>, b: seq<T>, c: seq<T>)
    ensures a + b + c == a + (b + c)
  {
  }

  /** Bilibili takes tags one by one, each to be committed before the next. */
  method InputTags(b: Browser, sid: string, tags: seq<string>) returns (ok: bool)
    requires b.Valid(sid)
    modifies b`trace, b`journal
    ensures b.Valid(sid) && Extends(old(b.journal), b.journal, TagPlan(tags), ok)
  {
    hide Ran;
    hide Extends;
    ghost var j0, done := b.journal, [];
    ok := true;
    ExtendsNothing(j0);
    for i := 0 to |tags|
      invariant b.Valid(sid) && Extends(j0, b.journal, done, true) && ok
      invariant TagPlan(tags) == done + TagPlan(tags[i..])
    {
      ghost var j := b.journal;
      var tag := tags[i];
      assert tags[i..][0] == tag && tags[i..][1..] == tags[i + 1..];
      ok := InputTag(b, sid, tag);
      ExtendsThen(j0, j, b.journal, done, OneTag(tag), ok);
      if !ok {
        ghost var rest := if tag == "" then [] else TagPlan(tags[i + 1..]);
        ExtendsPart(j0, b.journal, done + OneTag(tag), rest);
        Associate(done, OneTag(tag), rest);
        assert OneTag(tag) + rest == TagPlan(tags[i..]);
        return;
      }
      Associate(done, OneTag(tag), TagPlan(tags[i + 1..]));
      done := done + OneTag(tag);
    }
    assert done + [] == done;
  }

  function OneTag(tag: string): seq<Step> {
    if tag == "" then [Refuse]
    else [Await(TagSubmit, [tag], Truth, 1), Await(TagCommitted, [], Truth, STATEMENT_ATTEMPTS)]
  }

  lemma ExtendsNothing(j: Journal)
    ensures Extends(j, j, [], true)
  {
  }

  method InputTag(b: Browser, sid: string, tag: string) returns (ok: bool)
    requires b.Valid(sid)
    modifies b`trace, b`journal
    ensures b.Valid(sid) && Extends(old(b.journal), b.journal, OneTag(tag), ok) && (ok ==> tag != "")
  {
    if tag == "" {
      ok := false;
      b.Note(sid, Refuse, [], false);
      return;
    }
    hide Ran;
    ok := b.Do(sid, TagSubmit, [tag], Truth);
    if ok {
      ok := b.WaitFor(sid, TagCommitted, [], Truth, STATEMENT_ATTEMPTS);
    }
  }

  /** Adds an optional phase to what has been done. */
  lemma Then(j0: Journal, j1: Journal, j2: Journal, p: seq<Step>, q: seq<Step>, rest: seq<Step>, ok: bool)
    requires Extends(j0, j1, p, true) && Extends(j1, j2, q, ok)
    ensures Extends(j0, j2, p + q, ok) && (!ok ==> Extends(j0, j2, p + q + rest, false))
  {
    ExtendsThen(j0, j1, j2, p, q, ok);
    if !ok { ExtendsPart(j0, j2, p + q, rest); }
  }

  // ---------------------------------------------------------------- workflow

  method InputMetadata(b: Browser, sid: string, job: Job) returns (ok: bool)
    requires b.Valid(sid)
    modifies b`trace, b`journal
    ensures b.Valid(sid) && Extends(old(b.journal), b.journal, MetadataPlan(job), ok)
  {
    hide Ran;
    hide Extends;
    hide ShortPart;
    hide TextPart;
    hide TagPart;
    ghost var j0 := b.journal;
    ok := b.Input(sid, Title, job.title);
    if job.platform == Kuaishou {
      assert [Enter(Title, job.title)] + [] == [Enter(Title, job.title)];
      return;
    }
    if !ok {
      ExtendsPart(j0, b.journal, [Enter(Title, job.title)], ShortPart(job) + TextPart(job) + TagPart(job));
      return;
    }
    ghost var j := b.journal;
    ok := InputDetails(b, sid, job);
    ExtendsThen(j0, j, b.journal, [Enter(Title, job.title)], ShortPart(job) + TextPart(job) + TagPart(job), ok);
  }

  method InputShortTitle(b: Browser, sid: string, job: Job) returns (ok: bool)
    requires b.Valid(sid)
    modifies b`trace, b`journal
    ensures b.Valid(sid) && Extends(old(b.journal), b.journal, ShortPart(job), ok)
  {
    hide Ran;
    hide Extends;
    ok := true;
    ExtendsNothing(b.journal);
    if job.platform == WechatChannels && job.shortTitle.Some? {
      ok := b.Input(sid, ShortTitle, job.shortTitle.value);
    }
  }

  method InputDetails(b: Browser, sid: string, job: Job) returns (ok: bool)
    requires b.Valid(sid)
    modifies b`trace, b`journal
    ensures b.Valid(sid) && Extends(old(b.journal), b.journal, ShortPart(job) + TextPart(job) + TagPart(job), ok)
  {
    hide Ran;
    hide Extends;
    hide TagPlan;
    hide ShortPart;
    Associate(ShortPart(job), TextPart(job), TagPart(job));
    ghost var j0 := b.journal;
    ok := InputShortTitle(b, sid, job);
    if !ok { ExtendsPart(j0, b.journal, ShortPart(job), TextPart(job) + TagPart(job)); return; }
    ghost var j := b.journal;
    ExtendsNothing(j);
    if job.description != "" {
      ok := b.Input(sid, Description, job.description);
    }
    Then(j0, j, b.journal, ShortPart(job), TextPart(job), TagPart(job), ok);
    if !ok { return; }
    j := b.journal;
    ExtendsNothing(j);
    if job.platform == Bilibili {
      ok := InputTags(b, sid, job.tags);
    }
    ExtendsThen(j0, j, b.journal, ShortPart(job) + TextPart(job), TagPart(job), ok);
  }

  method UploadFile(b: Browser, sid: string, p: Platform, file: string) returns (ok: bool)
    requires b.Valid(sid)
    modifies b`trace, b`journal
    ensures b.Valid(sid) && Extends(old(b.journal), b.journal, UploadPlan(p, file), ok)
  {
    hide Extends;
    hide Reached;
    hide Ran;
    ghost var j0, j, plan := b.journal, b.journal, UploadPlan(p, file);
    Start(j0, plan);
    ok := b.Navigate(sid, Upload(p));
    Advance(j0, j, b.journal, plan, 0, ok);
    if !ok { return; }
    j := b.journal;
    ok := b.Input(sid, File, file);
    Advance(j0, j, b.journal, plan, 1, ok);
    if !ok { return; }
    j := b.journal;
    if p == Bilibili {
      ok := b.WaitFor(sid, UploadState(Bilibili), [], READY, UPLOAD_ATTEMPTS);
      Advance(j0, j, b.journal, plan, 2, ok);
    }
    if ok { Finish(j0, b.journal, plan); }
  }

  method AttachProduct(b: Browser, sid: string, product: string) returns (ok: bool)
    requires b.Valid(sid)
    modifies b`trace, b`journal
    ensures b.Valid(sid) && Extends(old(b.journal), b.journal, ChoosePlan(product) + AttachPlan(product), ok)
  {
    hide Ran;
    hide Extends;
    hide ChoosePlan;
    hide AttachPlan;
    ghost var j0 := b.journal;
    ok := ChooseProduct(b, sid, product);
    if !ok {
      ExtendsPart(j0, b.journal, ChoosePlan(product), AttachPlan(product));
      return;
    }
    ghost var j := b.journal;
    ok := AttachChosen(b, sid, product);
    ExtendsThen(j0, j, b.journal, ChoosePlan(product), AttachPlan(product), ok);
  }

  method PrepareDouyin(b: Browser, sid: string) returns (ok: bool)
    requires b.Valid(sid)
    modifies b`trace, b`journal
    ensures b.Valid(sid) && Extends(old(b.journal), b.journal, DouyinPlan(), ok)
  {
    hide Ran;
    ok := b.WaitFor(sid, UploadState(Douyin), [], READY, READY_ATTEMPTS);
    if ok {
      ok := SetSavePermission(b, sid);
    }
  }

  method FinishWechat(b: Browser, sid: string) returns (ok: bool)
    requires b.Valid(sid)
    modifies b`trace, b`journal
    ensures b.Valid(sid) && Extends(old(b.journal), b.journal, WechatPlan(), ok)
  {
    hide Ran;
    ok := TryDeclareOriginal(b, sid);
    if ok {
      ok := b.WaitFor(sid, UploadState(WechatChannels), [], READY, UPLOAD_ATTEMPTS);
    }
  }

  method AttachAnyProduct(b: Browser, sid: string, job: Job) returns (ok: bool)
    requires b.Valid(sid) && !RefusedUpFront(job)
    modifies b`trace, b`journal
    ensures b.Valid(sid) && Extends(old(b.journal), b.journal, ProductPart(job), ok)
  {
    hide Ran;
    hide Extends;
    ok := true;
    ExtendsNothing(b.journal);
    if job.platform == WechatChannels && job.product.value.Some? {
      ok := AttachProduct(b, sid, job.product.value.value);
    }
  }

  method ApplyAnyStatement(b: Browser, sid: string, job: Job) returns (ok: bool)
    requires b.Valid(sid)
    modifies b`trace, b`journal
    ensures b.Valid(sid) && Extends(old(b.journal), b.journal, StatementPart(job), ok)
  {
    hide Ran;
    hide Extends;
    ok := true;
    ExtendsNothing(b.journal);
    if job.platform != FanqieVideo && job.statement.Some? {
      ok := ApplyStatement(b, sid, job.platform, job.statement.value);
    }
  }

  method ApplySettings(b: Browser, sid: string, job: Job) returns (ok: bool)
    requires b.Valid(sid) && !RefusedUpFront(job)
    modifies b`trace, b`journal
    ensures b.Valid(sid) && Extends(old(b.journal), b.journal, SettingsPlan(job), ok)
  {
    hide Ran;
    hide Extends;
    hide ProductPart;
    hide StatementPart;
    hide DouyinPlan;
    hide WechatPlan;
    var p := job.platform;
    ghost var j0 := b.journal;
    ghost var product, statement := ProductPart(job), StatementPart(job);
    ghost var douyin := if p == Douyin then DouyinPlan() else [];
    ghost var wechat := if p == WechatChannels then WechatPlan() else [];
    ghost var cover := if p == Xiaohongshu then [PkCover] else [];
    Regrouped(product, douyin, statement, wechat, cover);
    ok := AttachAnyProduct(b, sid, job);
    if !ok { ExtendsPart(j0, b.journal, product, douyin + statement + wechat + cover); return; }
    ghost var j, done := b.journal, product;
    ExtendsNothing(j);
    if p == Douyin {
      ok := PrepareDouyin(b, sid);
    }
    Then(j0, j, b.journal, done, douyin, statement + wechat + cover, ok);
    if !ok { return; }
    j, done := b.journal, done + douyin;
    ok := ApplyAnyStatement(b, sid, job);
    Then(j0, j, b.journal, done, statement, wechat + cover, ok);
    if !ok { return; }
    j, done := b.journal, done + statement;
    ExtendsNothing(j);
    if p == WechatChannels {
      ok := FinishWechat(b, sid);
    }
    Then(j0, j, b.journal, done, wechat, cover, ok);
    if !ok { return; }
    j, done := b.journal, done + wechat;
    ExtendsNothing(j);
    if p == Xiaohongshu {
      ok := NormalizePkCover(b, sid);
    }
    ExtendsThen(j0, j, b.journal, done, cover, ok);
  }

  lemma Regrouped(a: seq<Step>, b: seq<Step>, c: seq<Step>, d: seq<Step>, e: seq<Step>)
    ensures a + b + c + d + e == a + (b + c + d + e) == a + b + (c + d + e) == a + b + c + (d + e)
  {
  }

  method Work(b: Browser, sid: string, job: Job, acknowledgements: nat) returns (ok: bool)
    requires b.Valid(sid) && !RefusedUpFront(job)
    modifies b`trace, b`journal
    ensures b.Valid(sid) && Extends(old(b.journal), b.journal, Plan(job, acknowledgements), ok)
  {
    hide Ran;
    hide Extends;
    hide UploadPlan;
    hide MetadataPlan;
    hide SettingsPlan;
    hide ClosingPlan;
    var p := job.platform;
    ghost var upload, metadata := UploadPlan(p, job.file.value), MetadataPlan(job);
    ghost var settings, closing := SettingsPlan(job), ClosingPlan(p, job.draft, acknowledgements);
    Associate(upload, metadata, settings);
    Associate(upload, metadata + settings, closing);
    Associate(upload + metadata, settings, closing);
    ghost var j0 := b.journal;
    ok := UploadFile(b, sid, p, job.file.value);
    if !ok { ExtendsPart(j0, b.journal, upload, metadata + settings + closing); return; }
    ghost var j, done := b.journal, upload;
    ok := InputMetadata(b, sid, job);
    Then(j0, j, b.journal, done, metadata, settings + closing, ok);
    if !ok { return; }
    j, done := b.journal, done + metadata;
    ok := ApplySettings(b, sid, job);
    Then(j0, j, b.journal, done, settings, closing, ok);
    if !ok { return; }
    j, done := b.journal, done + settings;
    ok := Close(b, sid, p, job.draft, acknowledgements);
    Then(j0, j, b.journal, done, closing, [], ok);
  }
}
