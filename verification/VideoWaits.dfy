/** How long a publication waits for the page. */
module VideoWaits {
  import opened Platforms
  import opened Wrappers
  import opened WebDriver
  import opened VideoFlow
  import opened VideoLaws

  /** How often a script is run before its wait is given up; what has to work at once is run once. */
  function Patience(s: Script): nat {
    match s
    case UploadState(p) => if p == Bilibili || p == WechatChannels || p == Douyin then 150 else 30
    case StatementOpen(_) => 1
    case StatementConfirm(_) => 1
    case StatementSelect(p) => if p == WechatChannels then 30 else 1
    case TagSubmit => 1
    case ProductChooser => 1
    case ProductSearch => 1
    case ProductSelect => 1
    case ProductAdd => 1
    case PanelOpen => 1
    case ChannelsEnable => 1
    case Action(_) => 1
    case _ => 30
  }

  /** Replies upon which a wait goes on: the words of scripts that name a state, and no from all others. */
  predicate NotYet(s: Script, reply: Reply) {
    match s
    case UploadState(FanqieVideo) => TruthOf(reply) == Some(false)
    case UploadState(_) => Says(reply, {"pending"})
    case ActionState(FanqieVideo) => Says(reply, {"pending", "disabled"})
    case ActionState(_) => Says(reply, {"pending"})
    case PublishResult => Says(reply, {"pending"})
    case StatementApplied(Xiaohongshu) => Says(reply, {"prompt", "open", "pending"})
    case PanelOpen => false
    case ChannelsEnable => false
    case Action(_) => false
    case _ => TruthOf(reply) == Some(false)
  }

  /** Scripts that belong to steps of another kind: Toutiao's, the save permission, the cover, the declaration, the article's. */
  predicate Apart(s: Script) {
    || s == StatementApplied(Toutiao) || s == StatementSelect(Toutiao) || s == ActionState(Toutiao) || s == Action(Toutiao)
    || s.PermissionState? || s.PermissionAction? || s.PkCoverState? || s.PkCoverClose? || s.CodeMirrorWrite?
    || s.OriginalEntry? || s.OriginalAnyDialog? || s.ProtocolDialog? || s.ProtocolConfirm? || s.ProtocolGone?
    || s.DeclarationDialog? || s.OriginalConfirm? || s.DeclarationGone?
  }

  /** A wait that keeps to this. */
  ghost predicate Patient(step: Step) {
    step.Await? ==>
      && step.attempts == Patience(step.script) && !Apart(step.script)
      && forall reply :: NotYet(step.script, reply) <==> Judge(step.rule, reply) == Again
  }

  ghost predicate AllPatient(plan: seq<Step>) {
    forall i :: 0 <= i < |plan| ==> Patient(plan[i])
  }

  lemma BothPatient(a: seq<Step>, b: seq<Step>)
    requires AllPatient(a) && AllPatient(b)
    ensures AllPatient(a + b)
  {
    hide Patient;
  }

  lemma {:induction false} TagsPatient(tags: seq<string>)
    ensures AllPatient(TagPlan(tags))
  {
    if tags != [] && tags[0] != "" {
      TagsPatient(tags[1..]);
      var head := [Await(TagSubmit, [tags[0]], Truth, 1), Await(TagCommitted, [], Truth, STATEMENT_ATTEMPTS)];
      assert AllPatient(head);
      hide AllPatient;
      BothPatient(head, TagPlan(tags[1..]));
    }
  }

  lemma StatementPatient(job: Job)
    ensures AllPatient(StatementPart(job))
  {
    if job.platform != FanqieVideo && job.statement.Some? {
      var p, text := job.platform, job.statement.value;
      if p != Toutiao && p != WechatChannels {
        var pick, settle := PickPlan(p, text), SettlePlan(p, text);
        PickPatient(p, text);
        SettlePatient(p, text);
        hide AllPatient;
        hide PickPlan;
        hide SettlePlan;
        BothPatient(pick, settle);
      }
    }
  }

  lemma PickPatient(p: Platform, text: string)
    requires p != Toutiao && p != WechatChannels
    ensures AllPatient(PickPlan(p, text))
  {
  }

  lemma SettlePatient(p: Platform, text: string)
    requires p != Toutiao && p != WechatChannels
    ensures AllPatient(SettlePlan(p, text))
  {
  }

  lemma ProductPatient(job: Job)
    ensures AllPatient(ProductPart(job))
  {
    if job.platform == WechatChannels && job.product.Ok? && job.product.value.Some? {
      var id := job.product.value.value;
      ChoosePatient(id);
      AttachPatient(id);
      hide AllPatient;
      BothPatient(ChoosePlan(id), AttachPlan(id));
    }
  }

  lemma ChoosePatient(id: string)
    ensures AllPatient(ChoosePlan(id))
  {
    var plan := ChoosePlan(id);
    assert Patient(plan[0]);
    assert Patient(plan[1]);
    assert Patient(plan[2]);
    assert Patient(plan[3]);
    assert Patient(plan[4]);
    hide Patient;
    assert |plan| == 5;
  }

  lemma AttachPatient(id: string)
    ensures AllPatient(AttachPlan(id))
  {
    var plan := AttachPlan(id);
    assert Patient(plan[0]);
    assert Patient(plan[1]);
    assert Patient(plan[2]);
    assert Patient(plan[3]);
    hide Patient;
    assert |plan| == 4;
  }

  lemma SettingsPatient(job: Job)
    ensures AllPatient(SettingsPlan(job))
  {
    var douyin := if job.platform == Douyin then DouyinPlan() else [];
    var wechat := if job.platform == WechatChannels then WechatPlan() else [];
    var cover := if job.platform == Xiaohongshu then [PkCover] else [];
    assert AllPatient(douyin) && AllPatient(wechat) && AllPatient(cover);
    hide AllPatient;
    hide ProductPart;
    hide StatementPart;
    ProductPatient(job);
    StatementPatient(job);
    BothPatient(ProductPart(job), douyin);
    BothPatient(ProductPart(job) + douyin, StatementPart(job));
    BothPatient(ProductPart(job) + douyin + StatementPart(job), wechat);
    BothPatient(ProductPart(job) + douyin + StatementPart(job) + wechat, cover);
  }

  lemma MetadataPatient(job: Job)
    ensures AllPatient(MetadataPlan(job))
  {
    TagsPatient(job.tags);
    assert AllPatient([Enter(Title, job.title)]) && AllPatient(ShortPart(job)) && AllPatient(TextPart(job)) && AllPatient(TagPart(job));
    if job.platform == Kuaishou {
      assert MetadataPlan(job) == [Enter(Title, job.title)];
    } else {
      hide AllPatient;
      hide ShortPart;
      hide TextPart;
      hide TagPart;
      BothPatient(ShortPart(job), TextPart(job));
      BothPatient(ShortPart(job) + TextPart(job), TagPart(job));
      BothPatient([Enter(Title, job.title)], ShortPart(job) + TextPart(job) + TagPart(job));
    }
  }

  lemma ChannelsPatient()
    ensures AllPatient(ChannelsPlan())
  {
    var plan := ChannelsPlan();
    assert Patient(plan[0]);
    assert Patient(plan[1]);
    assert Patient(plan[2]);
    assert Patient(plan[3]);
    assert Patient(plan[4]);
    hide Patient;
    assert |plan| == 5;
  }

  lemma OneClickPatient()
    ensures AllPatient(OneClickPlan())
  {
    var plan := OneClickPlan();
    assert Patient(plan[0]);
    assert Patient(plan[1]);
    assert Patient(plan[2]);
    hide Patient;
    assert |plan| == 3;
  }

  lemma ClosingPatient(p: Platform, draft: bool, acknowledgements: nat)
    ensures AllPatient(ClosingPlan(p, draft, acknowledgements))
  {
    if p == FanqieVideo {
      ChannelsPatient();
      OneClickPatient();
      hide AllPatient;
      BothPatient(ChannelsPlan(), OneClickPlan());
    } else {
      assert AllPatient(ActionPlan(p, draft)) && AllPatient([MarkersAbsent]) && AllPatient([Acknowledge(acknowledgements)]);
      hide AllPatient;
      hide ActionPlan;
      BothPatient([MarkersAbsent], ActionPlan(p, draft));
      BothPatient([MarkersAbsent] + ActionPlan(p, draft), [Acknowledge(acknowledgements)]);
    }
  }

  lemma PlanPatient(job: Job, acknowledgements: nat)
    requires job.file.Some?
    ensures AllPatient(Plan(job, acknowledgements))
  {
    var upload := UploadPlan(job.platform, job.file.value);
    assert AllPatient(upload);
    hide AllPatient;
    hide UploadPlan;
    hide MetadataPlan;
    hide SettingsPlan;
    hide ClosingPlan;
    MetadataPatient(job);
    SettingsPatient(job);
    ClosingPatient(job.platform, job.draft, acknowledgements);
    BothPatient(upload, MetadataPlan(job));
    BothPatient(upload + MetadataPlan(job), SettingsPlan(job));
    BothPatient(upload + MetadataPlan(job) + SettingsPlan(job), ClosingPlan(job.platform, job.draft, acknowledgements));
  }

  /** Only waits run the scripts that are not apart. */
  lemma {:induction false} OthersApart(sid: string, step: Step, t: Trace, ok: bool, i: nat)
    requires Ran(sid, step, t, ok) && i < |t| && !step.Await?
    ensures t[i].request.Run? ==> Apart(t[i].request.script)
  {
    if step.Enter? {
      SearchApart(t, step.field, (e: string) => Type(e, step.text), i);
    } else if step.Press? {
      SearchApart(t, step.field, (e: string) => Click(e), i);
    } else if step.WriteBody? {
      SearchApart(t, Content, (e: string) => Run(CodeMirrorWrite, [e, step.text]), i);
    } else if step.Footer? {
      if i < |t| - 1 { assert t[i] == t[..|t| - 1][i]; }
    } else if step.Original? {
      AsksApart(Offered, t, ok, i);
    } else if step.SavePermission? {
      var looks :| t == Join(looks) && PermittedBy(looks, ok);
      LooksApart(looks);
    } else if step.ToutiaoStatement? || step.PkCover? {
      QuestionApart(sid, step, t, ok, i);
    } else if step.MarkersAbsent? {
      var seen :| Checked(t, 0, seen);
      CheckedIsShort(t, 0, seen);
    } else if step.Acknowledge? {
      var passes :| t == Join(passes) && Watched(passes, step.attempts, ok);
      WatchedLaw(passes, step.attempts, ok);
    }
  }

  lemma SearchApart(t: Trace, f: Field, use: string -> Request, i: nat)
    requires SearchedThen(t, f, use) && i < |t|
    requires forall e :: use(e).Run? ==> use(e).script == CodeMirrorWrite
    ensures t[i].request.Run? ==> Apart(t[i].request.script)
  {
    if !t[|t| - 1].request.Find? && i < |t| - 1 {
      assert t[i] == t[..|t| - 1][i];
    }
  }

  lemma QuestionApart(sid: string, step: Step, t: Trace, ok: bool, i: nat)
    requires Ran(sid, step, t, ok) && i < |t| && (step.ToutiaoStatement? || step.PkCover?)
    ensures t[i].request.Run? && Apart(t[i].request.script)
  {
    if i >= 2 { assert t[i] == t[2..][i - 2]; }
  }

  lemma {:induction false} AsksApart(s: Stage, t: Trace, ok: bool, i: nat)
    requires Declaring(s, t, ok) && i < |t|
    ensures t[i].request.Run? && Apart(t[i].request.script)
    decreases |t|
  {
    var n :| 0 < n <= |t| && DeclaringPart(s, t, n, ok);
    var next := After(s, TruthOf(t[n - 1].reply));
    if i < n {
      assert t[i] == t[..n][i];
    } else {
      AsksApart(next.stage, t[n..], ok, i - n);
    }
  }

  lemma {:induction false} LooksApart(looks: seq<Trace>)
    requires forall i :: 0 <= i < |looks| ==> IsLook(looks[i])
    ensures forall i :: 0 <= i < |Join(looks)| ==> Join(looks)[i].request.Run? && Apart(Join(looks)[i].request.script)
  {
    if looks != [] { LooksApart(looks[..|looks| - 1]); }
  }

  /** The exchange at `i` was not followed by the same request, nor was it the last of as many as there may be. */
  predicate GivesUp(t: Trace, i: nat, n: nat) {
    i < |t| && !(i + 1 < |t| && t[i + 1].request == t[i].request)
    && !(n <= i + 1 && forall k :: i + 1 - n <= k <= i ==> t[k].request == t[i].request)
  }

  lemma {:induction false} WaitInStep(sid: string, step: Step, t: Trace, ok: bool, i: nat)
    requires Ran(sid, step, t, ok) && step.Await? && Patient(step) && i < |t| && NotYet(t[i].request.script, t[i].reply)
    ensures t[i].request == Run(step.script, step.args)
    ensures i + 1 < |t| || |t| == Patience(step.script)
    ensures forall k :: 0 <= k < |t| ==> t[k].request == t[i].request
  {
  }

  lemma {:induction false} WaitInJournal(sid: string, plan: seq<Step>, j: Journal, ok: bool, p: nat)
    requires AllPatient(plan) && Kept(sid, plan, j, ok) && p < |Flat(j)|
    requires Flat(j)[p].request.Run? && !Apart(Flat(j)[p].request.script) && NotYet(Flat(j)[p].request.script, Flat(j)[p].reply)
    ensures !GivesUp(Flat(j), p, Patience(Flat(j)[p].request.script))
  {
    hide Flat;
    hide Ran;
    hide Apart;
    hide NotYet;
    hide Patience;
    hide Patient;
    var k := EntryOf(j, p);
    var from, t := Offset(j, k), j[k].trace;
    assert j[k].step == plan[k];
    if !plan[k].Await? { OthersApart(sid, plan[k], t, j[k].ok, p - from); }
    WaitInStep(sid, plan[k], t, j[k].ok, p - from);
    EntryAt(j, k);
    var whole := Flat(j);
    assert whole[from..from + |t|] == t;
    assert forall m :: from <= m < from + |t| ==> whole[m] == t[m - from];
  }

  /**
   A wait is only given up upon a reply that settles it or makes no sense, or after as many tries as
   it has: a reply that says not yet is followed by the same request, or was the last of them.
   */
  lemma WaitsArePatient(job: Job, acknowledgements: nat, t: Trace, r: Outcome, next: nat, i: nat)
    requires Published(job, acknowledgements, t, r, next) && i < |t|
    requires t[i].request.Run? && !Apart(t[i].request.script) && NotYet(t[i].request.script, t[i].reply)
    ensures !GivesUp(t, i, Patience(t[i].request.script))
  {
    hide Published;
    hide Kept;
    hide Flat;
    hide Plan;
    hide Apart;
    hide NotYet;
    hide AllPatient;
    if |t| <= 1 { NoWork(job, acknowledgements, t, r, next); }
    var sid, j, ok := WorkOf(job, acknowledgements, t, r, next);
    PlanPatient(job, acknowledgements);
    var work := Flat(j);
    assert t[i] == work[i - 1];
    WaitInJournal(sid, Plan(job, acknowledgements), j, ok, i - 1);
    InWhole(t, work, i - 1, Patience(t[i].request.script));
  }

  lemma InWhole(t: Trace, work: Trace, p: nat, n: nat)
    requires |t| == |work| + 2 && forall i :: 1 <= i < |t| - 1 ==> t[i] == work[i - 1]
    requires p < |work| && !GivesUp(work, p, n)
    ensures !GivesUp(t, p + 1, n)
  {
    assert t[p + 1] == work[p];
    if p + 1 < |work| { assert t[p + 2] == work[p + 1]; }
    if n <= p + 1 && forall k :: p + 1 - n <= k <= p ==> work[k].request == work[p].request {
      forall k | p + 2 - n <= k <= p + 1 ensures t[k].request == t[p + 1].request {
        assert t[k] == work[k - 1];
      }
    }
  }
}
