/** What every video publication keeps to, whatever the page answers. */
module VideoLaws {
  import opened Platforms
  import opened Wrappers
  import opened WebDriver
  import opened VideoFlow

  /** A request that may publish, or save the draft. */
  predicate IsCommit(x: Exchange) {
    x.request.Click? || (x.request.Run? && x.request.script.Action?)
  }

  function ReadyProbe(p: Platform): Script {
    if p == Bilibili || p == WechatChannels || p == Douyin then UploadState(p) else ActionState(p)
  }

  /** Baijiahao is asked for the very action to come. */
  function ProbeArgs(p: Platform, draft: bool): seq<string> {
    if p == Baijiahao then [if draft then "draft" else "publish"] else []
  }

  /** A reply that allows the action on this platform; Xiaohongshu has no such probe. */
  predicate ReadySays(p: Platform, draft: bool, x: Exchange) {
    && x.request == Run(ReadyProbe(p), ProbeArgs(p, draft))
    && Says(x.reply, if p == Toutiao then {"horizontal_ready", "vertical_ready"} else {"ready"})
  }

  /** Platforms asked for readiness immediately before the action. */
  predicate ReadyDirectly(p: Platform) { p == Baijiahao || p == Kuaishou || p == FanqieVideo || p == Toutiao }

  /** The evidence of success a finished job must have seen. */
  predicate Proves(p: Platform, x: Exchange) {
    if p == FanqieVideo then x.request == Run(PublishResult, []) && Says(x.reply, {"success"}) else SeesMarker(x)
  }

  // --------------------------------------------------------------- step laws

  /** The most exchanges a step can take. */
  function Cost(step: Step): nat {
    match step
    case Open(_) => 1
    case Enter(f, _) => ELEMENT_POLL_ATTEMPTS * Selectors(f) + 1
    case Press(f) => ELEMENT_POLL_ATTEMPTS * Selectors(f) + 1
    case WriteBody(_) => ELEMENT_POLL_ATTEMPTS * Selectors(Content) + 1
    case Await(_, _, _, attempts) => attempts
    case SavePermission => 2 * READY_ATTEMPTS
    case ToutiaoStatement(_) => 2 + STATEMENT_ATTEMPTS
    case PkCover => 2 + STATEMENT_ATTEMPTS
    case Original => ORIGINAL_COST
    case MarkersAbsent => 2 * Selectors(Success)
    case Footer(_) => STATEMENT_ATTEMPTS + 1
    case Acknowledge(attempts) => 2 * Selectors(Success) * attempts
    case Refuse => 0
  }

  /** Whether a step may commit. */
  predicate MayCommit(step: Step) {
    step.Press? || step.Footer? || (step.Await? && step.script.Action?)
  }

  lemma {:induction false} CheckedIsShort(t: Trace, k: nat, seen: Option<bool>)
    requires Checked(t, k, seen) && k <= Selectors(Success)
    ensures |t| <= 2 * (Selectors(Success) - k)
    ensures forall i :: 0 <= i < |t| ==> t[i].request.Find? || t[i].request.Visible?
    ensures seen == Some(true) <==> t != [] && SeesMarker(t[|t| - 1])
    decreases |t|
  {
    if k < Selectors(Success) {
      if ElementOf(t[0].reply).None? {
        CheckedIsShort(t[1..], k + 1, seen);
        assert forall i :: 1 <= i < |t| ==> t[i] == t[1..][i - 1];
      } else if TruthOf(t[1].reply) == Some(false) {
        CheckedIsShort(t[2..], k + 1, seen);
        assert forall i :: 2 <= i < |t| ==> t[i] == t[2..][i - 2];
      }
    }
  }

  lemma {:induction false} PassesAreShort(passes: seq<Trace>)
    requires forall i :: 0 <= i < |passes| ==> Pass(passes[i])
    ensures |Join(passes)| <= 2 * Selectors(Success) * |passes|
    ensures forall i :: 0 <= i < |Join(passes)| ==> Join(passes)[i].request.Find? || Join(passes)[i].request.Visible?
  {
    if passes != [] {
      var last := passes[|passes| - 1];
      assert Pass(last);
      var seen :| Checked(last, 0, seen);
      CheckedIsShort(last, 0, seen);
      PassesAreShort(passes[..|passes| - 1]);
    }
  }

  lemma WatchedLaw(passes: seq<Trace>, attempts: nat, ok: bool)
    requires Watched(passes, attempts, ok)
    ensures |Join(passes)| <= 2 * Selectors(Success) * attempts
    ensures forall i :: 0 <= i < |Join(passes)| ==> Join(passes)[i].request.Find? || Join(passes)[i].request.Visible?
    ensures ok ==> Join(passes) != [] && SeesMarker(Join(passes)[|Join(passes)| - 1])
  {
    assert forall i :: 0 <= i < |passes| - 1 ==> Checked(passes[i], 0, Some(false));
    PassesAreShort(passes);
    if ok {
      CheckedIsShort(passes[|passes| - 1], 0, Some(true));
    }
  }

  /** A step keeps to its session, its length, and commits at most once if at all. */
  ghost predicate WellRun(sid: string, step: Step, t: Trace) {
    && InSession(t, sid) && |t| <= Cost(step)
    && (forall i :: 0 <= i < |t| ==> !t[i].request.NewSession? && !t[i].request.DeleteSession?)
    && (forall i :: 0 <= i < |t| && IsCommit(t[i]) ==> MayCommit(step))
    && (!(step.Await? && step.attempts > 1) ==> forall i :: 0 <= i < |t| - 1 ==> !IsCommit(t[i]))
  }

  lemma SearchLaw(sid: string, step: Step, t: Trace, ok: bool)
    requires Ran(sid, step, t, ok) && (step.Enter? || step.Press? || step.WriteBody?)
    ensures WellRun(sid, step, t)
  {
    var f := if step.WriteBody? then Content else step.field;
    if t != [] && !t[|t| - 1].request.Find? {
      var search := t[..|t| - 1];
      assert Searched(search, f, true);
      assert forall i :: 0 <= i < |t| - 1 ==> t[i] == search[i];
    } else {
      assert Searched(t, f, false);
    }
  }

  lemma FooterLaw(sid: string, draft: bool, t: Trace, ok: bool)
    requires Ran(sid, Footer(draft), t, ok)
    ensures WellRun(sid, Footer(draft), t)
    ensures forall i :: 0 <= i < |t| && IsCommit(t[i]) ==>
              i > 0 && i == |t| - 1 && ReadySays(Toutiao, draft, t[i - 1])
    ensures ok ==> t != [] && IsCommit(t[|t| - 1])
  {
    if t != [] && t[|t| - 1].request == Run(Action(Toutiao), t[|t| - 1].request.args) {
      var polls := t[..|t| - 1];
      assert forall i :: 0 <= i < |t| - 1 ==> t[i] == polls[i];
      assert Judge(FOOTER_READY, polls[|polls| - 1].reply) == Done && polls[|polls| - 1].request == Run(ActionState(Toutiao), []);
    }
  }

  /** The most exchanges a declaration can still take. */
  function StageCost(s: Stage): nat {
    match s
    case Offered => ORIGINAL_COST
    case AnyDialog => ORIGINAL_COST - 1
    case Protocol => 1 + 5 * SHADOW_ATTEMPTS
    case AcceptProtocol => 5 * SHADOW_ATTEMPTS
    case ProtocolLeft => 4 * SHADOW_ATTEMPTS
    case DeclarationFollows => 3 * SHADOW_ATTEMPTS
    case DeclarationUp => 1 + 2 * SHADOW_ATTEMPTS
    case AcceptDeclaration => 2 * SHADOW_ATTEMPTS
    case DeclarationLeft => SHADOW_ATTEMPTS
  }

  lemma {:induction false} DeclaringLaw(s: Stage, t: Trace, ok: bool)
    requires Declaring(s, t, ok)
    ensures |t| <= StageCost(s)
    ensures forall i :: 0 <= i < |t| ==> t[i].request.Run? && !t[i].request.script.Action?
    decreases |t|
  {
    var n :| 0 < n <= |t| && DeclaringPart(s, t, n, ok);
    var next := After(s, TruthOf(t[n - 1].reply));
    assert forall i :: 0 <= i < n ==> t[i] == t[..n][i];
    if next.On? {
      DeclaringLaw(next.stage, t[n..], ok);
      assert forall i :: n <= i < |t| ==> t[i] == t[n..][i - n];
    }
  }

  lemma {:induction false} LooksAreShort(looks: seq<Trace>)
    requires forall i :: 0 <= i < |looks| ==> IsLook(looks[i])
    ensures |Join(looks)| <= 2 * |looks|
    ensures forall i :: 0 <= i < |Join(looks)| ==> Join(looks)[i].request.Run? && !Join(looks)[i].request.script.Action?
  {
    if looks != [] { LooksAreShort(looks[..|looks| - 1]); }
  }

  /** One question or two, then perhaps a wait: nothing but scripts that do not commit. */
  lemma QuestionsLaw(sid: string, step: Step, t: Trace, ok: bool)
    requires Ran(sid, step, t, ok) && (step.ToutiaoStatement? || step.PkCover?)
    ensures WellRun(sid, step, t)
  {
    assert |t| > 2 ==> |t[2..]| <= STATEMENT_ATTEMPTS && forall i :: 2 <= i < |t| ==> t[i] == t[2..][i - 2];
    assert forall i :: 0 <= i < |t| ==> t[i].request.Run? && !t[i].request.script.Action?;
    hide ChoosingSource;
    hide ClearingCover;
  }

  lemma BranchingLaw(sid: string, step: Step, t: Trace, ok: bool)
    requires Ran(sid, step, t, ok) && (step.SavePermission? || step.Original?)
    ensures WellRun(sid, step, t)
  {
    if step.SavePermission? {
      var looks :| t == Join(looks) && PermittedBy(looks, ok);
      LooksAreShort(looks);
    } else {
      DeclaringLaw(Offered, t, ok);
    }
  }

  lemma {:induction false} MarkerLaw(sid: string, step: Step, t: Trace, ok: bool)
    requires Ran(sid, step, t, ok) && (step.MarkersAbsent? || step.Acknowledge?)
    ensures WellRun(sid, step, t)
    ensures step.MarkersAbsent? && ok ==> Checked(t, 0, Some(false))
    ensures step.Acknowledge? && ok ==> t != [] && SeesMarker(t[|t| - 1])
  {
    if step.MarkersAbsent? {
      var seen :| Checked(t, 0, seen);
      CheckedIsShort(t, 0, seen);
    } else {
      var passes :| t == Join(passes) && Watched(passes, step.attempts, ok);
      WatchedLaw(passes, step.attempts, ok);
    }
  }

  lemma StepLaw(sid: string, step: Step, t: Trace, ok: bool)
    requires Ran(sid, step, t, ok)
    ensures WellRun(sid, step, t)
  {
    if step.Enter? || step.Press? || step.WriteBody? {
      SearchLaw(sid, step, t, ok);
    } else if step.Footer? {
      FooterLaw(sid, step.draft, t, ok);
    } else if step.SavePermission? || step.Original? {
      BranchingLaw(sid, step, t, ok);
    } else if step.ToutiaoStatement? || step.PkCover? {
      QuestionsLaw(sid, step, t, ok);
    } else if step.MarkersAbsent? || step.Acknowledge? {
      MarkerLaw(sid, step, t, ok);
    }
  }

  // ------------------------------------------------------------ journal laws

  /** A journal that follows a plan, each step having run as it may. */
  ghost predicate Kept(sid: string, plan: seq<Step>, j: Journal, ok: bool) {
    && Extends([], j, plan, ok)
    && forall i :: 0 <= i < |j| ==> Ran(sid, j[i].step, j[i].trace, j[i].ok)
  }

  lemma StepRan(sid: string, plan: seq<Step>, j: Journal, ok: bool, k: nat)
    requires Kept(sid, plan, j, ok) && k < |j| && (ok || k < |j| - 1)
    ensures Ran(sid, plan[k], j[k].trace, true) && (ok ==> |j| == |plan|)
  {
    hide Ran;
    assert j[k].ok && j[k].step == plan[k];
  }

  /** Where entry `k` starts in the trace. */
  function Offset(j: Journal, k: nat): nat
    requires k <= |j|
  {
    |Flat(j[..k])|
  }

  lemma {:induction false} EntryAt(j: Journal, k: nat)
    requires k < |j|
    ensures Offset(j, k) + |j[k].trace| == Offset(j, k + 1) <= |Flat(j)|
    ensures Flat(j)[Offset(j, k)..Offset(j, k + 1)] == j[k].trace
    decreases |j|
  {
    assert j[..k + 1][..k] == j[..k];
    if k == |j| - 1 {
      assert j[..k + 1] == j;
    } else {
      var front := j[..|j| - 1];
      EntryAt(front, k);
      assert front[..k] == j[..k] && front[..k + 1] == j[..k + 1];
    }
  }

  lemma {:induction false} OffsetsGrow(j: Journal, k: nat, l: nat)
    requires k <= l <= |j|
    ensures Offset(j, k) <= Offset(j, l)
    decreases l
  {
    if k < l {
      OffsetsGrow(j, k, l - 1);
      EntryAt(j, l - 1);
    }
  }

  /** The entry an exchange belongs to. */
  lemma {:induction false} EntryOf(j: Journal, p: nat) returns (k: nat)
    requires p < |Flat(j)|
    ensures k < |j| && Offset(j, k) <= p < Offset(j, k + 1)
    ensures Offset(j, k + 1) == Offset(j, k) + |j[k].trace| && Flat(j)[p] == j[k].trace[p - Offset(j, k)]
    decreases |j|
  {
    var n := |j| - 1;
    var front := j[..n];
    if p < |Flat(front)| {
      k := EntryOf(front, p);
      assert front[..k] == j[..k] && front[..k + 1] == j[..k + 1];
    } else {
      k := n;
      assert j[..n + 1] == j;
    }
  }

  /** An exchange at position `i` of entry `k`. */
  lemma ExchangeAt(j: Journal, k: nat, i: nat)
    requires k < |j| && i < |j[k].trace|
    ensures Offset(j, k) + i < |Flat(j)| && Flat(j)[Offset(j, k) + i] == j[k].trace[i]
  {
    EntryAt(j, k);
    assert Flat(j)[Offset(j, k)..Offset(j, k + 1)][i] == j[k].trace[i];
  }

  /** All a workflow does stays inside the session it was given. */
  lemma WorkStaysInSession(sid: string, plan: seq<Step>, j: Journal, ok: bool)
    requires Kept(sid, plan, j, ok)
    ensures InSession(Flat(j), sid)
    ensures forall p :: 0 <= p < |Flat(j)| ==> !Flat(j)[p].request.NewSession? && !Flat(j)[p].request.DeleteSession?
  {
    forall p | 0 <= p < |Flat(j)|
      ensures Flat(j)[p].session == Some(sid) && !Flat(j)[p].request.NewSession? && !Flat(j)[p].request.DeleteSession?
    {
      var k := EntryOf(j, p);
      StepLaw(sid, j[k].step, j[k].trace, j[k].ok);
    }
  }

  function PlanCost(plan: seq<Step>): nat {
    if plan == [] then 0 else PlanCost(plan[..|plan| - 1]) + Cost(plan[|plan| - 1])
  }

  lemma {:induction false} CostAppend(p: seq<Step>, q: seq<Step>)
    ensures PlanCost(p + q) == PlanCost(p) + PlanCost(q)
    decreases |q|
  {
    if q == [] {
      assert p + q == p;
    } else {
      CostAppend(p, q[..|q| - 1]);
      assert (p + q)[..|p + q| - 1] == p + q[..|q| - 1];
    }
  }

  lemma {:induction false} PrefixCost(plan: seq<Step>, j: Journal, sid: string)
    requires |j| <= |plan| && forall i :: 0 <= i < |j| ==> j[i].step == plan[i]
    requires forall i :: 0 <= i < |j| ==> Ran(sid, j[i].step, j[i].trace, j[i].ok)
    ensures |Flat(j)| <= PlanCost(plan[..|j|])
    decreases |j|
  {
    if j != [] {
      var n := |j| - 1;
      PrefixCost(plan, j[..n], sid);
      assert plan[..n + 1][..n] == plan[..n];
      StepLaw(sid, j[n].step, j[n].trace, j[n].ok);
    }
  }

  /** A workflow never takes more exchanges than its plan's steps may take together. */
  lemma WorkIsBounded(sid: string, plan: seq<Step>, j: Journal, ok: bool)
    requires Kept(sid, plan, j, ok)
    ensures |Flat(j)| <= PlanCost(plan)
  {
    hide Flat;
    hide Ran;
    PrefixCost(plan, j, sid);
    CostAppend(plan[..|j|], plan[|j|..]);
    assert plan[..|j|] + plan[|j|..] == plan;
  }

  // --------------------------------------------------------------- plan laws

  function FrontPlan(job: Job): seq<Step>
    requires job.file.Some?
  {
    UploadPlan(job.platform, job.file.value) + MetadataPlan(job) + SettingsPlan(job)
  }

  /** The place of the one step that may commit. */
  function CommitIndex(job: Job): nat
    requires job.file.Some?
  {
    |FrontPlan(job)| + if job.platform == FanqieVideo then 6 else |ActionPlan(job.platform, job.draft)|
  }

  predicate Quiet(plan: seq<Step>) {
    forall i :: 0 <= i < |plan| ==> !MayCommit(plan[i])
  }

  lemma {:induction false} TagsAreQuiet(tags: seq<string>)
    ensures Quiet(TagPlan(tags)) && PlanCost(TagPlan(tags)) <= 31 * |tags|
  {
    if tags != [] && tags[0] != "" {
      TagsAreQuiet(tags[1..]);
      var tag := [Await(TagSubmit, [tags[0]], Truth, 1), Await(TagCommitted, [], Truth, STATEMENT_ATTEMPTS)];
      CostAppend(tag, TagPlan(tags[1..]));
      CostOfTwo(tag[0], tag[1]);
    } else if tags != [] {
      CostOfOne(Refuse);
    }
  }

  lemma CostOfOne(a: Step)
    ensures PlanCost([a]) == Cost(a)
  {
    assert [a][..0] == [];
  }

  lemma CostOfTwo(a: Step, b: Step)
    ensures PlanCost([a, b]) == Cost(a) + Cost(b)
  {
    CostOfOne(a);
    assert [a, b][..1] == [a];
  }

  lemma CostOfThree(a: Step, b: Step, c: Step)
    ensures PlanCost([a, b, c]) == Cost(a) + Cost(b) + Cost(c)
  {
    CostOfTwo(a, b);
    assert [a, b, c][..2] == [a, b];
  }

  lemma CostOfFive(a: Step, b: Step, c: Step, d: Step, e: Step)
    ensures PlanCost([a, b, c, d, e]) == Cost(a) + Cost(b) + Cost(c) + Cost(d) + Cost(e)
  {
    CostOfThree(a, b, c);
    assert [a, b, c, d, e][..4] == [a, b, c, d];
    assert [a, b, c, d][..3] == [a, b, c];
  }

  lemma UploadLaw(p: Platform, file: string)
    ensures Quiet(UploadPlan(p, file)) && PlanCost(UploadPlan(p, file)) <= if p == Bilibili then 158 else 8
  {
    var plan := [Open(Upload(p)), Enter(File, file)];
    var last := Await(UploadState(Bilibili), [], READY, UPLOAD_ATTEMPTS);
    CostOfTwo(plan[0], plan[1]);
    CostOfOne(last);
    CostAppend(plan, if p == Bilibili then [last] else []);
  }

  lemma ShortLaw(job: Job)
    ensures Quiet(ShortPart(job)) && PlanCost(ShortPart(job)) <= if job.platform == WechatChannels then 4 else 0
  {
    if job.shortTitle.Some? { CostOfOne(Enter(ShortTitle, job.shortTitle.value)); }
  }

  lemma TextLaw(job: Job)
    ensures Quiet(TextPart(job)) && PlanCost(TextPart(job)) <= 7
  {
    CostOfOne(Enter(Description, job.description));
  }

  lemma TagLaw(job: Job)
    ensures Quiet(TagPart(job)) && PlanCost(TagPart(job)) <= if job.platform == Bilibili then 31 * |job.tags| else 0
  {
    TagsAreQuiet(job.tags);
  }

  lemma MetadataLaw(job: Job)
    ensures Quiet(MetadataPlan(job))
    ensures PlanCost(MetadataPlan(job)) <= 14 + (if job.platform == WechatChannels then 4 else 0)
                                             + (if job.platform == Bilibili then 31 * |job.tags| else 0)
  {
    hide ShortPart;
    hide TextPart;
    hide TagPart;
    ShortLaw(job);
    TextLaw(job);
    TagLaw(job);
    CostOfOne(Enter(Title, job.title));
    hide PlanCost;
    CostAppend(ShortPart(job), TextPart(job));
    CostAppend(ShortPart(job) + TextPart(job), TagPart(job));
    CostAppend([Enter(Title, job.title)], ShortPart(job) + TextPart(job) + TagPart(job));
    if job.platform == Kuaishou {
      assert MetadataPlan(job) == [Enter(Title, job.title)];
    }
  }

  lemma ProductLaw(job: Job)
    ensures Quiet(ProductPart(job)) && PlanCost(ProductPart(job)) <= if job.platform == WechatChannels then 154 else 0
  {
    if job.platform == WechatChannels && job.product.Ok? && job.product.value.Some? {
      var a, b := ChoosePlan(job.product.value.value), AttachPlan(job.product.value.value);
      CostAppend(a, b);
      CostOfFive(a[0], a[1], a[2], a[3], a[4]);
      CostOfThree(b[0], b[1], b[2]);
      assert b[..3] == [b[0], b[1], b[2]];
    }
  }

  lemma PickLaw(p: Platform, text: string)
    ensures Quiet(PickPlan(p, text) + SettlePlan(p, text)) && PlanCost(PickPlan(p, text) + SettlePlan(p, text)) <= 63
  {
    var pick, settle := PickPlan(p, text), SettlePlan(p, text);
    CostAppend(pick, settle);
    CostOfThree(pick[0], pick[1], pick[2]);
    if |settle| == 1 { CostOfOne(settle[0]); } else { CostOfTwo(settle[0], settle[1]); }
  }

  lemma StatementLaw(job: Job)
    ensures Quiet(StatementPart(job))
    ensures PlanCost(StatementPart(job)) <= if job.platform == WechatChannels then 31 else 63
  {
    hide PickPlan;
    hide SettlePlan;
    if job.platform != FanqieVideo && job.statement.Some? {
      var p, text := job.platform, job.statement.value;
      PickLaw(p, text);
      CostOfOne(ToutiaoStatement(text));
      CostOfTwo(Await(StatementOpen(p), [], Truth, 1), Await(StatementSelect(p), [text], Truth, SHADOW_ATTEMPTS));
    }
  }

  lemma DouyinLaw()
    ensures Quiet(DouyinPlan()) && PlanCost(DouyinPlan()) == 450
  {
    CostOfTwo(DouyinPlan()[0], DouyinPlan()[1]);
  }

  lemma WechatLaw()
    ensures Quiet(WechatPlan()) && PlanCost(WechatPlan()) == 332
  {
    CostOfTwo(WechatPlan()[0], WechatPlan()[1]);
  }

  lemma Append(p: seq<Step>, q: seq<Step>)
    requires Quiet(p) && Quiet(q)
    ensures Quiet(p + q) && PlanCost(p + q) == PlanCost(p) + PlanCost(q)
  {
    CostAppend(p, q);
  }

  lemma SettingsLaw(job: Job)
    ensures Quiet(SettingsPlan(job))
    ensures PlanCost(SettingsPlan(job)) <=
      if job.platform == WechatChannels then 517 else if job.platform == Douyin then 513 else 95
  {
    hide ProductPart;
    hide StatementPart;
    hide DouyinPlan;
    hide WechatPlan;
    var p := job.platform;
    var product, statement := ProductPart(job), StatementPart(job);
    var douyin := if p == Douyin then DouyinPlan() else [];
    var wechat := if p == WechatChannels then WechatPlan() else [];
    var cover := if p == Xiaohongshu then [PkCover] else [];
    ProductLaw(job);
    StatementLaw(job);
    DouyinLaw();
    WechatLaw();
    CostOfOne(PkCover);
    assert PlanCost([]) == 0 && Quiet([]) && Quiet([PkCover]);
    hide PlanCost;
    hide Quiet;
    Append(product, douyin);
    Append(product + douyin, statement);
    Append(product + douyin + statement, wechat);
    Append(product + douyin + statement + wechat, cover);
  }

  /** Nothing before the closing phase can commit. */
  lemma FrontLaw(job: Job)
    requires job.file.Some?
    ensures Quiet(FrontPlan(job))
    ensures PlanCost(FrontPlan(job)) <= 543 + 31 * |job.tags|
  {
    hide UploadPlan;
    hide MetadataPlan;
    hide SettingsPlan;
    UploadLaw(job.platform, job.file.value);
    MetadataLaw(job);
    SettingsLaw(job);
    CostAppend(UploadPlan(job.platform, job.file.value), MetadataPlan(job));
    CostAppend(UploadPlan(job.platform, job.file.value) + MetadataPlan(job), SettingsPlan(job));
  }

  /** The closing phase has one step that may commit, and it runs its script or click at most once. */
  lemma ClosingLaw(job: Job, acknowledgements: nat)
    requires job.file.Some?
    ensures var closing, at := ClosingPlan(job.platform, job.draft, acknowledgements), CommitIndex(job) - |FrontPlan(job)|;
      && 0 < at < |closing| && (forall i :: 0 <= i < |closing| ==> (MayCommit(closing[i]) <==> i == at))
      && (closing[at].Await? ==> closing[at].attempts == 1)
  {
    hide FrontPlan;
    if job.platform == FanqieVideo {
      var a, b := ChannelsPlan(), OneClickPlan();
      assert forall i :: 0 <= i < |a| ==> !MayCommit(a[i]);
      assert forall i :: 0 <= i < |b| ==> (MayCommit(b[i]) <==> i == 1);
    } else {
      var action := ActionPlan(job.platform, job.draft);
      assert forall i :: 0 <= i < |action| ==> (MayCommit(action[i]) <==> i == |action| - 1);
    }
  }

  lemma FanqieCost()
    ensures PlanCost(ChannelsPlan() + OneClickPlan()) == 153
  {
    var a, b := ChannelsPlan(), OneClickPlan();
    CostAppend(a, b);
    CostOfFive(a[0], a[1], a[2], a[3], a[4]);
    CostOfThree(b[0], b[1], b[2]);
  }

  lemma ActionCost(p: Platform, draft: bool)
    ensures PlanCost(ActionPlan(p, draft)) <= 31
  {
    var action := ActionPlan(p, draft);
    if |action| == 1 { CostOfOne(action[0]); } else { CostOfTwo(action[0], action[1]); }
  }

  lemma ClosingCost(p: Platform, draft: bool, acknowledgements: nat)
    ensures PlanCost(ClosingPlan(p, draft, acknowledgements)) <= 153 + 4 * acknowledgements
  {
    hide ActionPlan;
    if p == FanqieVideo {
      FanqieCost();
    } else {
      CostOfOne(MarkersAbsent);
      CostOfOne(Acknowledge(acknowledgements));
      ActionCost(p, draft);
      CostAppend([MarkersAbsent], ActionPlan(p, draft));
      CostAppend([MarkersAbsent] + ActionPlan(p, draft), [Acknowledge(acknowledgements)]);
    }
  }

  /** Of all the steps of a job exactly one may commit. */
  lemma OneStepCommits(job: Job, acknowledgements: nat)
    requires job.file.Some?
    ensures CommitsAt(Plan(job, acknowledgements), CommitIndex(job))
  {
    hide FrontPlan;
    hide ClosingPlan;
    var front, closing := FrontPlan(job), ClosingPlan(job.platform, job.draft, acknowledgements);
    FrontLaw(job);
    ClosingLaw(job, acknowledgements);
    assert Plan(job, acknowledgements) == front + closing by { PlanParts(job, acknowledgements); }
  }

  lemma PlanParts(job: Job, acknowledgements: nat)
    requires job.file.Some?
    ensures Plan(job, acknowledgements) == FrontPlan(job) + ClosingPlan(job.platform, job.draft, acknowledgements)
  {
  }

  /** The number of exchanges is bounded, linearly in the tags and the acknowledgement attempts. */
  lemma PlanIsBounded(job: Job, acknowledgements: nat)
    requires job.file.Some?
    ensures PlanCost(Plan(job, acknowledgements)) <= 696 + 31 * |job.tags| + 4 * acknowledgements
  {
    hide FrontPlan;
    hide ClosingPlan;
    FrontLaw(job);
    ClosingCost(job.platform, job.draft, acknowledgements);
    PlanParts(job, acknowledgements);
    CostAppend(FrontPlan(job), ClosingPlan(job.platform, job.draft, acknowledgements));
  }

  // ------------------------------------------------------------- commit laws

  ghost predicate JobKept(sid: string, job: Job, acknowledgements: nat, j: Journal, ok: bool) {
    job.file.Some? && Kept(sid, Plan(job, acknowledgements), j, ok)
  }

  /** `at` is the only step of the plan that may commit, and does so at most once. */
  ghost predicate CommitsAt(plan: seq<Step>, at: nat) {
    && at < |plan| && (forall i :: 0 <= i < |plan| ==> (MayCommit(plan[i]) <==> i == at))
    && (plan[at].Await? ==> plan[at].attempts == 1)
  }

  /** A commit is the last exchange of that step. */
  lemma CommitPlace(sid: string, plan: seq<Step>, at: nat, j: Journal, ok: bool, p: nat)
    requires Kept(sid, plan, j, ok) && CommitsAt(plan, at) && p < |Flat(j)| && IsCommit(Flat(j)[p])
    ensures at < |j| && j[at].step == plan[at] && j[at].trace != []
    ensures p == Offset(j, at) + |j[at].trace| - 1 && j[at].trace[|j[at].trace| - 1] == Flat(j)[p]
  {
    hide Ran;
    hide IsCommit;
    hide MayCommit;
    hide Flat;
    var k := EntryOf(j, p);
    StepLaw(sid, j[k].step, j[k].trace, j[k].ok);
    assert j[k].step == plan[k];
    var i := p - Offset(j, k);
    assert j[k].trace[i] == Flat(j)[p];
    assert !(i < |j[k].trace| - 1);
  }

  /** Whatever the plan has before that step has succeeded, and lies before the commit. */
  lemma {:induction false} BeforeCommit(sid: string, plan: seq<Step>, at: nat, j: Journal, ok: bool, p: nat, m: nat)
    requires Kept(sid, plan, j, ok) && CommitsAt(plan, at) && p < |Flat(j)| && IsCommit(Flat(j)[p]) && m < at
    ensures m < |j| && Ran(sid, plan[m], j[m].trace, true)
    ensures Offset(j, m) <= Offset(j, m + 1) == Offset(j, m) + |j[m].trace| <= p
    ensures Flat(j)[Offset(j, m)..Offset(j, m + 1)] == j[m].trace
  {
    hide Ran;
    hide IsCommit;
    hide MayCommit;
    hide Flat;
    CommitPlace(sid, plan, at, j, ok, p);
    assert j[m].ok && j[m].step == plan[m];
    EntryAt(j, m);
    OffsetsGrow(j, m + 1, at);
    EntryAt(j, at);
  }

  /** At most one request of a whole workflow may publish. */
  lemma AtMostOneCommit(sid: string, job: Job, acknowledgements: nat, j: Journal, ok: bool, p: nat, q: nat)
    requires JobKept(sid, job, acknowledgements, j, ok) && p < |Flat(j)| && q < |Flat(j)|
    requires IsCommit(Flat(j)[p]) && IsCommit(Flat(j)[q])
    ensures p == q
  {
    hide Flat;
    hide Ran;
    hide Extends;
    OneStepCommits(job, acknowledgements);
    CommitPlace(sid, Plan(job, acknowledgements), CommitIndex(job), j, ok, p);
    CommitPlace(sid, Plan(job, acknowledgements), CommitIndex(job), j, ok, q);
  }

  lemma MarkerStep(job: Job, acknowledgements: nat)
    requires job.file.Some? && job.platform != FanqieVideo
    ensures |FrontPlan(job)| < CommitIndex(job) && |FrontPlan(job)| < |Plan(job, acknowledgements)|
    ensures Plan(job, acknowledgements)[|FrontPlan(job)|] == MarkersAbsent
  {
    hide FrontPlan;
    PlanParts(job, acknowledgements);
  }

  /** Before the commit of any platform but Fanqie, a complete check of the success markers saw none. */
  lemma CommitAfterMarkerCheck(sid: string, job: Job, acknowledgements: nat, j: Journal, ok: bool, p: nat) returns (a: nat, b: nat)
    requires JobKept(sid, job, acknowledgements, j, ok) && p < |Flat(j)| && IsCommit(Flat(j)[p])
    requires job.platform != FanqieVideo
    ensures a <= b <= p && Checked(Flat(j)[a..b], 0, Some(false))
  {
    hide Flat;
    hide Ran;
    hide Extends;
    hide Checked;
    var m, plan := |FrontPlan(job)|, Plan(job, acknowledgements);
    OneStepCommits(job, acknowledgements);
    MarkerStep(job, acknowledgements);
    BeforeCommit(sid, plan, CommitIndex(job), j, ok, p, m);
    MarkerLaw(sid, MarkersAbsent, j[m].trace, true);
    a, b := Offset(j, m), Offset(j, m + 1);
  }

  /** The step whose success says the page is ready. */
  function ReadyIndex(job: Job): nat
    requires job.file.Some?
  {
    match job.platform
    case Bilibili => 2
    case Douyin => |UploadPlan(Douyin, job.file.value)| + |MetadataPlan(job)| + |ProductPart(job)|
    case WechatChannels => |FrontPlan(job)| - 1
    case _ => CommitIndex(job) - 1
  }

  predicate AsksReadiness(p: Platform, draft: bool, step: Step) {
    && step.Await? && step.rule.Words? && step.rule.done == {"ready"}
    && step.script == ReadyProbe(p) && step.args == ProbeArgs(p, draft)
  }

  lemma WechatReadyStep(job: Job)
    requires job.file.Some? && job.platform == WechatChannels
    ensures FrontPlan(job) != [] && AsksReadiness(WechatChannels, job.draft, FrontPlan(job)[|FrontPlan(job)| - 1])
  {
    hide StatementPart;
    hide ProductPart;
    hide MetadataPlan;
    hide UploadPlan;
    var settings := SettingsPlan(job);
    assert settings[|settings| - 1] == WechatPlan()[1];
  }

  lemma DouyinReadyStep(job: Job)
    requires job.file.Some? && job.platform == Douyin
    ensures ReadyIndex(job) < |FrontPlan(job)| && AsksReadiness(Douyin, job.draft, FrontPlan(job)[ReadyIndex(job)])
  {
    hide StatementPart;
    hide ProductPart;
    hide MetadataPlan;
    hide UploadPlan;
    assert SettingsPlan(job)[|ProductPart(job)|] == DouyinPlan()[0];
  }

  /** The action of these platforms other than Toutiao: a script with the arguments of its probe. */
  function DirectAction(p: Platform, draft: bool): Step { Await(Action(p), ProbeArgs(p, draft), CLICKED, 1) }

  /** In the closing plan of these platforms the action comes right behind its probe. */
  lemma DirectPlan(p: Platform, draft: bool, acknowledgements: nat)
    requires ReadyDirectly(p) && p != Toutiao
    ensures var closing, at := ClosingPlan(p, draft, acknowledgements), if p == FanqieVideo then 6 else 2;
      at < |closing| && AsksReadiness(p, draft, closing[at - 1]) && closing[at] == DirectAction(p, draft)
  {
  }

  lemma DirectReadyStep(job: Job, acknowledgements: nat)
    requires job.file.Some? && ReadyDirectly(job.platform) && job.platform != Toutiao
    ensures 0 < CommitIndex(job) < |Plan(job, acknowledgements)|
    ensures AsksReadiness(job.platform, job.draft, Plan(job, acknowledgements)[CommitIndex(job) - 1])
    ensures Plan(job, acknowledgements)[CommitIndex(job)] == DirectAction(job.platform, job.draft)
  {
    var at := if job.platform == FanqieVideo then 6 else 2;
    assert CommitIndex(job) == |FrontPlan(job)| + at;
    hide FrontPlan;
    hide CommitIndex;
    PlanParts(job, acknowledgements);
    hide Plan;
    DirectPlan(job.platform, job.draft, acknowledgements);
    hide ClosingPlan;
    hide AsksReadiness;
    hide DirectAction;
  }

  lemma BilibiliReadyStep(job: Job)
    requires job.file.Some? && job.platform == Bilibili
    ensures 2 < |FrontPlan(job)| && AsksReadiness(Bilibili, job.draft, FrontPlan(job)[2])
  {
    hide MetadataPlan;
    hide SettingsPlan;
    assert FrontPlan(job)[2] == UploadPlan(Bilibili, job.file.value)[2];
  }

  /** The other platforms are asked while the page is still being filled in. */
  lemma FrontReadyStep(job: Job)
    requires job.file.Some? && (job.platform == Bilibili || job.platform == Douyin || job.platform == WechatChannels)
    ensures ReadyIndex(job) < |FrontPlan(job)| && AsksReadiness(job.platform, job.draft, FrontPlan(job)[ReadyIndex(job)])
  {
    hide FrontPlan;
    hide AsksReadiness;
    if job.platform == Bilibili {
      BilibiliReadyStep(job);
    } else if job.platform == Douyin {
      DouyinReadyStep(job);
    } else {
      WechatReadyStep(job);
    }
  }

  lemma ReadyStep(job: Job, acknowledgements: nat)
    requires job.file.Some? && job.platform != Toutiao && job.platform != Xiaohongshu
    ensures ReadyIndex(job) < CommitIndex(job) < |Plan(job, acknowledgements)|
    ensures AsksReadiness(job.platform, job.draft, Plan(job, acknowledgements)[ReadyIndex(job)])
    ensures ReadyDirectly(job.platform) ==>
      ReadyIndex(job) == CommitIndex(job) - 1 && Plan(job, acknowledgements)[CommitIndex(job)] == DirectAction(job.platform, job.draft)
  {
    hide Plan;
    hide FrontPlan;
    hide AsksReadiness;
    hide DirectAction;
    if ReadyDirectly(job.platform) {
      DirectReadyStep(job, acknowledgements);
    } else {
      PlanParts(job, acknowledgements);
      ClosingLaw(job, acknowledgements);
      FrontReadyStep(job);
      hide ReadyIndex;
      hide ClosingPlan;
    }
  }

  /** A wait for readiness that succeeded ends with a reply saying so. */
  lemma ReadinessReply(sid: string, p: Platform, draft: bool, step: Step, t: Trace)
    requires AsksReadiness(p, draft, step) && p != Toutiao && Ran(sid, step, t, true)
    ensures t != [] && ReadySays(p, draft, t[|t| - 1])
  {
  }

  /** On Toutiao the action follows its footer's layout, reported in the exchange before. */
  lemma FooterAction(sid: string, draft: bool, t: Trace, ok: bool, i: nat)
    requires Ran(sid, Footer(draft), t, ok) && i < |t| && IsCommit(t[i])
    ensures i > 0 && ReadySays(Toutiao, draft, t[i - 1]) && FollowsFooter(draft, t[i - 1], t[i])
  {
    FooterLaw(sid, draft, t, ok);
    var polls := t[..|t| - 1];
    assert polls[|polls| - 1] == t[|t| - 2];
  }

  /** Only a horizontal footer is sent the draft action; any other ready footer is sent the submit action. */
  predicate FollowsFooter(draft: bool, ready: Exchange, action: Exchange) {
    && action.request.Run? && action.request.script == Action(Toutiao)
    && (action.request.args == ["draft"] <==> draft && Says(ready.reply, {"horizontal_ready"}))
    && (action.request.args == ["submit"] <==> !draft || Says(ready.reply, {"vertical_ready"}))
  }

  lemma FooterReadiness(sid: string, job: Job, acknowledgements: nat, j: Journal, ok: bool, p: nat)
    requires JobKept(sid, job, acknowledgements, j, ok) && p < |Flat(j)| && IsCommit(Flat(j)[p])
    requires job.platform == Toutiao
    ensures p > 0 && ReadySays(Toutiao, job.draft, Flat(j)[p - 1]) && FollowsFooter(job.draft, Flat(j)[p - 1], Flat(j)[p])
  {
    hide Flat;
    hide Ran;
    hide Extends;
    hide Plan;
    hide CommitIndex;
    hide FollowsFooter;
    var at, plan := CommitIndex(job), Plan(job, acknowledgements);
    OneStepCommits(job, acknowledgements);
    CommitPlace(sid, plan, at, j, ok, p);
    FooterStep(job, acknowledgements);
    FooterAction(sid, job.draft, j[at].trace, j[at].ok, |j[at].trace| - 1);
    ExchangeAt(j, at, |j[at].trace| - 2);
  }

  lemma ReadyBeforeCommit(sid: string, job: Job, plan: seq<Step>, at: nat, r: nat, j: Journal, ok: bool, p: nat)
    returns (q: nat)
    requires Kept(sid, plan, j, ok) && CommitsAt(plan, at) && p < |Flat(j)| && IsCommit(Flat(j)[p])
    requires r < at && job.platform != Toutiao && AsksReadiness(job.platform, job.draft, plan[r])
    ensures q < p && ReadySays(job.platform, job.draft, Flat(j)[q])
    ensures r == at - 1 && plan[at] == DirectAction(job.platform, job.draft) ==>
      q == p - 1 && Flat(j)[p].request == Run(Action(job.platform), ProbeArgs(job.platform, job.draft))
  {
    hide Flat;
    hide Ran;
    hide Extends;
    hide AsksReadiness;
    hide ReadySays;
    hide IsCommit;
    hide ProbeArgs;
    BeforeCommit(sid, plan, at, j, ok, p, r);
    ReadinessReply(sid, job.platform, job.draft, plan[r], j[r].trace);
    ExchangeAt(j, r, |j[r].trace| - 1);
    q := Offset(j, r + 1) - 1;
    CommitPlace(sid, plan, at, j, ok, p);
    if plan[at] == DirectAction(job.platform, job.draft) {
      DirectlyActs(sid, job.platform, job.draft, j[at].trace, j[at].ok);
    }
  }

  lemma DirectlyActs(sid: string, p: Platform, draft: bool, t: Trace, ok: bool)
    requires Ran(sid, DirectAction(p, draft), t, ok)
    ensures |t| <= 1 && (t != [] ==> t[0].request == Run(Action(p), ProbeArgs(p, draft)))
  {
  }

  /** The commit only comes after the page itself reported that it is ready. */
  lemma CommitAfterReadiness(sid: string, job: Job, acknowledgements: nat, j: Journal, ok: bool, p: nat) returns (q: nat)
    requires JobKept(sid, job, acknowledgements, j, ok) && p < |Flat(j)| && IsCommit(Flat(j)[p])
    requires job.platform != Xiaohongshu
    ensures q < p && ReadySays(job.platform, job.draft, Flat(j)[q])
    ensures ReadyDirectly(job.platform) ==> q == p - 1
    ensures ReadyDirectly(job.platform) && job.platform != Toutiao ==>
      Flat(j)[p].request == Run(Action(job.platform), ProbeArgs(job.platform, job.draft))
  {
    hide Flat;
    hide Ran;
    hide Extends;
    hide Plan;
    hide CommitIndex;
    hide ReadyIndex;
    hide ReadySays;
    hide FollowsFooter;
    if job.platform == Toutiao {
      FooterReadiness(sid, job, acknowledgements, j, ok, p);
      q := p - 1;
    } else {
      OneStepCommits(job, acknowledgements);
      ReadyStep(job, acknowledgements);
      q := ReadyBeforeCommit(sid, job, Plan(job, acknowledgements), CommitIndex(job), ReadyIndex(job), j, ok, p);
    }
  }

  lemma FooterStep(job: Job, acknowledgements: nat)
    requires job.file.Some? && job.platform == Toutiao
    ensures CommitIndex(job) < |Plan(job, acknowledgements)|
    ensures Plan(job, acknowledgements)[CommitIndex(job)] == Footer(job.draft)
  {
    hide FrontPlan;
    PlanParts(job, acknowledgements);
  }

  lemma FinalProof(sid: string, p: Platform, acknowledgements: nat, step: Step, t: Trace)
    requires Ran(sid, step, t, true)
    requires step == if p == FanqieVideo then Await(PublishResult, [], SUCCEEDED, FANQIE_ATTEMPTS) else Acknowledge(acknowledgements)
    ensures t != [] && Proves(p, t[|t| - 1])
  {
    if p != FanqieVideo { MarkerLaw(sid, step, t, true); }
  }

  lemma {:induction false} LaterStep(sid: string, plan: seq<Step>, j: Journal, k: nat, l: nat)
    requires Kept(sid, plan, j, true) && k < l < |plan| && j[k].trace != [] && j[l].trace != []
    ensures var p, q := Offset(j, k) + |j[k].trace| - 1, Offset(j, l) + |j[l].trace| - 1;
      p < q < |Flat(j)| && Flat(j)[p] == j[k].trace[|j[k].trace| - 1] && Flat(j)[q] == j[l].trace[|j[l].trace| - 1]
  {
    hide Flat;
    hide Ran;
    ExchangeAt(j, k, |j[k].trace| - 1);
    ExchangeAt(j, l, |j[l].trace| - 1);
    EntryAt(j, k);
    OffsetsGrow(j, k + 1, l);
  }

  /** A finished workflow committed, and afterwards saw the success it reports. */
  lemma FinishedWorkWasConfirmed(sid: string, job: Job, acknowledgements: nat, j: Journal) returns (p: nat, q: nat)
    requires JobKept(sid, job, acknowledgements, j, true)
    ensures p < q < |Flat(j)| && IsCommit(Flat(j)[p]) && Proves(job.platform, Flat(j)[q])
  {
    hide Flat;
    hide Ran;
    hide Plan;
    hide CommitIndex;
    hide IsCommit;
    hide Proves;
    var plan, at := Plan(job, acknowledgements), CommitIndex(job);
    LastSteps(job, acknowledgements);
    var end := |plan| - 1;
    assert j[at].ok && j[at].step == plan[at] && j[end].ok && j[end].step == plan[end];
    FinalStepCommits(sid, plan[at], j[at].trace);
    FinalProof(sid, job.platform, acknowledgements, plan[end], j[end].trace);
    LaterStep(sid, plan, j, at, end);
    p, q := Offset(j, at) + |j[at].trace| - 1, Offset(j, end) + |j[end].trace| - 1;
  }

  lemma LastSteps(job: Job, acknowledgements: nat)
    requires job.file.Some?
    ensures var plan, at := Plan(job, acknowledgements), CommitIndex(job);
      && at < |plan| - 1 && (plan[at].Press? || plan[at].Footer? || (plan[at].Await? && plan[at].script.Action?))
      && plan[|plan| - 1] == if job.platform == FanqieVideo then Await(PublishResult, [], SUCCEEDED, FANQIE_ATTEMPTS)
                             else Acknowledge(acknowledgements)
  {
    hide FrontPlan;
    PlanParts(job, acknowledgements);
  }

  lemma FinalStepCommits(sid: string, step: Step, t: Trace)
    requires Ran(sid, step, t, true) && (step.Press? || step.Footer? || (step.Await? && step.script.Action?))
    ensures t != [] && IsCommit(t[|t| - 1])
  {
    if step.Footer? { FooterLaw(sid, step.draft, t, true); }
  }

  // -------------------------------------------------------------- publication

  /** The trace `t` of one publication call and its result: refused without a request, or one session around the work. */
  ghost predicate Published(job: Job, acknowledgements: nat, t: Trace, r: Outcome, next: nat) {
    if RefusedUpFront(job) then t == [] && r == Refused
    else
      && t != [] && t[0].session == None && t[0].request == NewSession
      && match SessionOf(t[0].reply)
         case None => |t| == 1 && r == Incomplete
         case Some(sid) =>
           && |t| >= 2
           && t[|t| - 1].session == Some(sid) && t[|t| - 1].request == DeleteSession
           && exists j, ok :: JobKept(sid, job, acknowledgements, j, ok) && t[1..|t| - 1] == Flat(j)
                && r == if ok && t[|t| - 1].reply.Value? then Accepted(next) else Incomplete
  }

  lemma WorkSlice(before: Trace, first: Exchange, work: Trace, last: Exchange, whole: Trace)
    requires whole == before + [first] + work + [last]
    ensures var t := whole[|before|..];
      |t| == |work| + 2 && t[0] == first && t[|t| - 1] == last && t[1..|t| - 1] == work
  {
  }

  /** Publishes one job through a browser session of its own, which is deleted whatever happened in between. */
  method Publish(b: Browser, job: Job, acknowledgements: nat) returns (r: Outcome)
    modifies b
    ensures old(b.trace) <= b.trace
    ensures Published(job, acknowledgements, b.trace[|old(b.trace)|..], r, old(b.nextJob))
    ensures b.nextJob == old(b.nextJob) + if r.Accepted? then 1 else 0
  {
    hide Plan;
    hide Extends;
    hide Ran;
    if RefusedUpFront(job) { return Refused; }
    ghost var before := b.trace;
    var session := b.Session();
    if session.None? { return Incomplete; }
    ghost var opening := b.trace[|before|];
    assert b.trace == before + [opening];
    var sid := session.value;
    var ok := Work(b, sid, job, acknowledgements);
    ghost var work := Flat(b.journal);
    var deleted := b.DeleteSession(sid);
    WorkSlice(before, opening, work, b.trace[|b.trace| - 1], b.trace);
    assert JobKept(sid, job, acknowledgements, b.journal, ok);
    if !ok || !deleted { return Incomplete; }
    var number := b.nextJob;
    b.nextJob := b.nextJob + 1;
    return Accepted(number);
  }

  /** The work of a publication that got a session. */
  lemma WorkOf(job: Job, acknowledgements: nat, t: Trace, r: Outcome, next: nat) returns (sid: string, j: Journal, ok: bool)
    requires Published(job, acknowledgements, t, r, next) && |t| > 1
    ensures t[0].request == NewSession && t[|t| - 1].request == DeleteSession && t[|t| - 1].session == Some(sid)
    ensures SessionOf(t[0].reply) == Some(sid) && JobKept(sid, job, acknowledgements, j, ok)
    ensures |Flat(j)| == |t| - 2 && forall i :: 1 <= i < |t| - 1 ==> t[i] == Flat(j)[i - 1]
    ensures r.Accepted? ==> ok
  {
    hide JobKept;
    hide Flat;
    sid := SessionOf(t[0].reply).value;
    j, ok :| JobKept(sid, job, acknowledgements, j, ok) && t[1..|t| - 1] == Flat(j)
             && r == if ok && t[|t| - 1].reply.Value? then Accepted(next) else Incomplete;
  }

  lemma NoWork(job: Job, acknowledgements: nat, t: Trace, r: Outcome, next: nat)
    requires Published(job, acknowledgements, t, r, next) && |t| <= 1
    ensures t != [] ==> t[0].request == NewSession && SessionOf(t[0].reply).None?
    ensures !r.Accepted?
  {
    hide JobKept;
  }

  /** A commit is made in the midst of the work. */
  lemma CommitInWork(job: Job, acknowledgements: nat, t: Trace, r: Outcome, next: nat, p: nat)
    requires Published(job, acknowledgements, t, r, next) && p < |t| && IsCommit(t[p])
    ensures |t| > 1 && 0 < p < |t| - 1
  {
    hide Published;
    if |t| <= 1 {
      NoWork(job, acknowledgements, t, r, next);
    } else {
      var sid, j, ok := WorkOf(job, acknowledgements, t, r, next);
    }
  }

  /**
   A publication asks for at most one session, first of all; if it gets one, all its
   other requests are made in that session and the last, and only the last, deletes it.
   */
  lemma SessionIsBracketed(job: Job, acknowledgements: nat, t: Trace, r: Outcome, next: nat)
    requires Published(job, acknowledgements, t, r, next)
    ensures forall i :: 0 <= i < |t| ==> (t[i].request.NewSession? <==> i == 0)
    ensures t != [] && SessionOf(t[0].reply).Some? ==>
      && |t| > 1 && (forall i :: 0 <= i < |t| ==> (t[i].request.DeleteSession? <==> i == |t| - 1))
      && forall i :: 1 <= i < |t| ==> t[i].session == SessionOf(t[0].reply)
    ensures t != [] && SessionOf(t[0].reply).None? ==> |t| == 1
  {
    hide Published;
    hide Flat;
    hide Kept;
    hide Plan;
    if |t| <= 1 {
      NoWork(job, acknowledgements, t, r, next);
    } else {
      var sid, j, ok := WorkOf(job, acknowledgements, t, r, next);
      WorkStaysInSession(sid, Plan(job, acknowledgements), j, ok);
    }
  }

  /** The length of the exchange is bounded before it starts. */
  lemma PublicationIsBounded(job: Job, acknowledgements: nat, t: Trace, r: Outcome, next: nat)
    requires Published(job, acknowledgements, t, r, next)
    ensures |t| <= 698 + 31 * |job.tags| + 4 * acknowledgements
  {
    hide Published;
    hide Flat;
    hide Kept;
    hide Plan;
    if |t| > 1 {
      var sid, j, ok := WorkOf(job, acknowledgements, t, r, next);
      WorkIsBounded(sid, Plan(job, acknowledgements), j, ok);
      PlanIsBounded(job, acknowledgements);
    }
  }

  /** A publication publishes at most once, no matter what the page answers. */
  lemma PublishesAtMostOnce(job: Job, acknowledgements: nat, t: Trace, r: Outcome, next: nat, p: nat, q: nat)
    requires Published(job, acknowledgements, t, r, next)
    requires p < |t| && q < |t| && IsCommit(t[p]) && IsCommit(t[q])
    ensures p == q
  {
    hide Published;
    hide JobKept;
    hide Flat;
    CommitInWork(job, acknowledgements, t, r, next, p);
    CommitInWork(job, acknowledgements, t, r, next, q);
    var sid, j, ok := WorkOf(job, acknowledgements, t, r, next);
    AtMostOneCommit(sid, job, acknowledgements, j, ok, p - 1, q - 1);
  }

  /** Nothing is published before no success marker was in sight and the page declared itself ready. */
  lemma PublishesOnlyWhenReady(job: Job, acknowledgements: nat, t: Trace, r: Outcome, next: nat, p: nat)
    requires Published(job, acknowledgements, t, r, next) && p < |t| && IsCommit(t[p])
    ensures job.platform != FanqieVideo ==> exists a, b :: 0 <= a <= b <= p && Checked(t[a..b], 0, Some(false))
    ensures job.platform != Xiaohongshu ==> exists q :: 0 <= q < p && ReadySays(job.platform, job.draft, t[q])
    ensures ReadyDirectly(job.platform) ==> p > 0 && ReadySays(job.platform, job.draft, t[p - 1])
    ensures ReadyDirectly(job.platform) && job.platform != Toutiao ==>
      t[p].request == Run(Action(job.platform), ProbeArgs(job.platform, job.draft))
  {
    hide Published;
    hide JobKept;
    hide Flat;
    hide Checked;
    hide ReadySays;
    CommitInWork(job, acknowledgements, t, r, next, p);
    var sid, j, ok := WorkOf(job, acknowledgements, t, r, next);
    if job.platform != FanqieVideo {
      var a, b := CommitAfterMarkerCheck(sid, job, acknowledgements, j, ok, p - 1);
      assert t[a + 1..b + 1] == Flat(j)[a..b];
    }
    if job.platform != Xiaohongshu {
      var q := CommitAfterReadiness(sid, job, acknowledgements, j, ok, p - 1);
      assert t[q + 1] == Flat(j)[q] && t[p] == Flat(j)[p - 1];
    }
  }

  /** A Toutiao publication saves a draft if and only if one is wanted and the page's footer is horizontal. */
  lemma DraftFollowsTheFooter(job: Job, acknowledgements: nat, t: Trace, r: Outcome, next: nat, p: nat)
    requires Published(job, acknowledgements, t, r, next) && p < |t| && IsCommit(t[p]) && job.platform == Toutiao
    ensures p > 0 && ReadySays(Toutiao, job.draft, t[p - 1]) && FollowsFooter(job.draft, t[p - 1], t[p])
  {
    hide Published;
    hide JobKept;
    hide Flat;
    hide ReadySays;
    hide FollowsFooter;
    CommitInWork(job, acknowledgements, t, r, next, p);
    var sid, j, ok := WorkOf(job, acknowledgements, t, r, next);
    FooterReadiness(sid, job, acknowledgements, j, ok, p - 1);
    assert t[p] == Flat(j)[p - 1] && t[p - 1] == Flat(j)[p - 2];
  }

  /** An accepted job was published, and its success was seen afterwards. */
  lemma AcceptedMeansConfirmed(job: Job, acknowledgements: nat, t: Trace, r: Outcome, next: nat) returns (p: nat, q: nat)
    requires Published(job, acknowledgements, t, r, next) && r.Accepted?
    ensures p < q < |t| && IsCommit(t[p]) && Proves(job.platform, t[q])
  {
    hide Published;
    hide JobKept;
    hide Flat;
    hide Proves;
    if |t| <= 1 { NoWork(job, acknowledgements, t, r, next); }
    var sid, j, ok := WorkOf(job, acknowledgements, t, r, next);
    var a, b := FinishedWorkWasConfirmed(sid, job, acknowledgements, j);
    p, q := a + 1, b + 1;
  }

  // ------------------------------------------------- two publications of a draft

  function Answered(sid: string, request: Request, reply: Reply): Exchange {
    Exchange(Some(sid), request, reply)
  }

  function Entered(sid: string, f: Field, text: string): Trace {
    [Answered(sid, Find(f, 0), Value(ElementRef("e"))), Answered(sid, Type("e", text), Value(OtherJson))]
  }

  function MarkersUnseen(sid: string): Trace {
    [Answered(sid, Find(Success, 0), NoValue), Answered(sid, Find(Success, 1), NoValue)]
  }

  function MarkerSeen(sid: string): Trace {
    [Answered(sid, Find(Success, 0), Value(ElementRef("m"))), Answered(sid, Visible("m"), Value(Bool(true)))]
  }

  function FooterUsed(sid: string, horizontal: bool): Trace {
    [Answered(sid, Run(ActionState(Toutiao), []), Value(Text(if horizontal then "horizontal_ready" else "vertical_ready"))),
     Answered(sid, Run(Action(Toutiao), [if horizontal then "draft" else "submit"]), Value(Text("clicked")))]
  }

  /** A page whose footer has the given layout and that answers everything else well. */
  function DraftTraces(sid: string, job: Job, horizontal: bool): seq<Trace>
    requires job.file.Some?
  {
    [[Answered(sid, GoTo(Upload(Toutiao)), Value(OtherJson))], Entered(sid, File, job.file.value),
     Entered(sid, Title, job.title), MarkersUnseen(sid), FooterUsed(sid, horizontal), MarkerSeen(sid)]
  }

  /** The journal in which every step of a plan succeeds with its trace. */
  function AllDone(plan: seq<Step>, traces: seq<Trace>): Journal
    requires |plan| == |traces|
  {
    seq(|plan|, i requires 0 <= i < |plan| => Entry(plan[i], traces[i], true))
  }

  /** A draft for Toutiao with a file, a title and nothing else. */
  predicate PlainDraft(job: Job) {
    job.platform == Toutiao && job.draft && job.file.Some? && job.description == "" && job.statement.None?
  }

  lemma PlainPlan(job: Job, acknowledgements: nat)
    requires PlainDraft(job)
    ensures Plan(job, acknowledgements) ==
      [Open(Upload(Toutiao)), Enter(File, job.file.value), Enter(Title, job.title), MarkersAbsent, Footer(true), Acknowledge(acknowledgements)]
  {
  }

  lemma EnteredRan(sid: string, f: Field, text: string)
    ensures Ran(sid, Enter(f, text), Entered(sid, f, text), true)
  {
    var t := Entered(sid, f, text);
    assert t[..1] == [t[0]];
    EnterRan(sid, f, text, t, true);
  }

  lemma MarkersRan(sid: string)
    ensures Ran(sid, MarkersAbsent, MarkersUnseen(sid), true)
  {
    var t := MarkersUnseen(sid);
    assert Checked([], 2, Some(false));
    assert t[1..] == [t[1]] && t[1..][1..] == [];
    assert Checked(t[1..], 1, Some(false));
    assert Checked(t, 0, Some(false));
  }

  lemma SeenRan(sid: string, attempts: nat)
    requires attempts > 0
    ensures Ran(sid, Acknowledge(attempts), MarkerSeen(sid), true)
  {
    var t := MarkerSeen(sid);
    assert Checked(t, 0, Some(true));
    if Checked(t, 0, Some(false)) { CheckedOnce(t, 0, Some(true), Some(false)); }
    assert [t][..0] == [] && Join([t]) == t;
    assert Watched([t], attempts, true);
  }

  lemma FooterRan(sid: string, horizontal: bool)
    ensures Ran(sid, Footer(true), FooterUsed(sid, horizontal), true)
  {
    var t := FooterUsed(sid, horizontal);
    assert t[..1] == [t[0]];
    assert "horizontal_ready" != "vertical_ready" by { assert |"horizontal_ready"| != |"vertical_ready"|; }
  }

  lemma OpenRan(sid: string)
    ensures Ran(sid, Open(Upload(Toutiao)), [Answered(sid, GoTo(Upload(Toutiao)), Value(OtherJson))], true)
  {
  }

  lemma DraftRan(sid: string, job: Job, acknowledgements: nat, horizontal: bool, i: nat)
    requires PlainDraft(job) && acknowledgements > 0 && i < 6
    ensures |Plan(job, acknowledgements)| == 6
    ensures Ran(sid, Plan(job, acknowledgements)[i], DraftTraces(sid, job, horizontal)[i], true)
  {
    PlainPlan(job, acknowledgements);
    hide Plan;
    hide Ran;
    hide Answered;
    hide FooterUsed;
    hide MarkerSeen;
    hide MarkersUnseen;
    hide Entered;
    if i == 0 { OpenRan(sid); }
    else if i == 1 { EnteredRan(sid, File, job.file.value); }
    else if i == 2 { EnteredRan(sid, Title, job.title); }
    else if i == 3 { MarkersRan(sid); }
    else if i == 4 { FooterRan(sid, horizontal); }
    else { SeenRan(sid, acknowledgements); }
  }

  lemma DraftKept(sid: string, job: Job, acknowledgements: nat, horizontal: bool)
    requires PlainDraft(job) && acknowledgements > 0
    ensures |Plan(job, acknowledgements)| == 6
    ensures JobKept(sid, job, acknowledgements, AllDone(Plan(job, acknowledgements), DraftTraces(sid, job, horizontal)), true)
  {
    hide Ran;
    hide Plan;
    hide FooterUsed;
    hide MarkerSeen;
    hide MarkersUnseen;
    hide Entered;
    DraftRan(sid, job, acknowledgements, horizontal, 0);
    var j := AllDone(Plan(job, acknowledgements), DraftTraces(sid, job, horizontal));
    forall i | 0 <= i < |j| ensures Ran(sid, j[i].step, j[i].trace, j[i].ok) {
      DraftRan(sid, job, acknowledgements, horizontal, i);
    }
  }

  /** A finished workflow between the creation and the deletion of its session is a publication. */
  lemma BracketPublishes(sid: string, job: Job, acknowledgements: nat, j: Journal, next: nat) returns (t: Trace)
    requires JobKept(sid, job, acknowledgements, j, true) && !RefusedUpFront(job)
    ensures Published(job, acknowledgements, t, Accepted(next), next)
    ensures |t| == |Flat(j)| + 2 && forall i :: 1 <= i < |t| - 1 ==> t[i] == Flat(j)[i - 1]
  {
    hide JobKept;
    hide Flat;
    var opening := Exchange(None, NewSession, Value(SessionRef(sid)));
    var closing := Exchange(Some(sid), DeleteSession, Value(OtherJson));
    t := [opening] + Flat(j) + [closing];
    assert t[1..|t| - 1] == Flat(j) && t[0] == opening && t[|t| - 1] == closing;
    assert SessionOf(t[0].reply) == Some(sid);
  }

  lemma FooterCommits(sid: string, horizontal: bool)
    ensures var t := FooterUsed(sid, horizontal);
      |t| == 2 && IsCommit(t[1]) && t[1].request == Run(Action(Toutiao), [if horizontal then "draft" else "submit"])
  {
  }

  /**
   Both ends of a draft: the page that shows a horizontal footer saves it, the page that
   shows a vertical one publishes it, and the job is accepted either way.
   */
  lemma DraftEndsEitherWay(sid: string, job: Job, acknowledgements: nat, horizontal: bool, next: nat) returns (t: Trace, p: nat)
    requires PlainDraft(job) && acknowledgements > 0
    ensures Published(job, acknowledgements, t, Accepted(next), next)
    ensures p < |t| && IsCommit(t[p])
    ensures t[p].request == Run(Action(Toutiao), [if horizontal then "draft" else "submit"])
  {
    assert !RefusedUpFront(job);
    hide RefusedUpFront;
    DraftKept(sid, job, acknowledgements, horizontal);
    var j := AllDone(Plan(job, acknowledgements), DraftTraces(sid, job, horizontal));
    FooterCommits(sid, horizontal);
    assert j[4].trace == FooterUsed(sid, horizontal);
    hide FooterUsed;
    hide IsCommit;
    hide PlainDraft;
    hide Published;
    hide JobKept;
    hide Flat;
    hide Plan;
    hide DraftTraces;
    hide AllDone;
    t := BracketPublishes(sid, job, acknowledgements, j, next);
    ExchangeAt(j, 4, 1);
    p := 1 + Offset(j, 4) + 1;
  }
}
