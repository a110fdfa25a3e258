/** What a publication has told the page by the time it commits, and what it commits. */
module VideoContent {
  import opened Platforms
  import opened Wrappers
  import opened WebDriver
  import opened VideoFlow
  import opened VideoLaws
  import opened Evidence

  // -------------------------------------------------------------- the commit

  /** The step that may commit: a button on four platforms, elsewhere the footer or a script. */
  lemma CommitStep(job: Job, acknowledgements: nat)
    requires job.file.Some?
    ensures CommitIndex(job) < |Plan(job, acknowledgements)|
    ensures var step := Plan(job, acknowledgements)[CommitIndex(job)];
      match job.platform
      case Toutiao => step == Footer(job.draft)
      case Baijiahao => step == Await(Action(Baijiahao), [if job.draft then "draft" else "publish"], CLICKED, 1)
      case Kuaishou => step == Await(Action(Kuaishou), [], CLICKED, 1)
      case FanqieVideo => step == Await(Action(FanqieVideo), [], CLICKED, 1)
      case _ => step == Press(if job.draft then DraftButton else Submit)
  {
    hide FrontPlan;
    PlanParts(job, acknowledgements);
  }

  lemma PressTrace(sid: string, f: Field, t: Trace, ok: bool)
    requires Ran(sid, Press(f), t, ok) && t != [] && IsCommit(t[|t| - 1])
    ensures ClicksOn(t, |t| - 1, f)
  {
    UsesFound(t, f, (e: string) => Click(e));
  }

  lemma ScriptTrace(sid: string, s: Script, args: seq<string>, t: Trace, ok: bool)
    requires Ran(sid, Await(s, args, CLICKED, 1), t, ok) && t != []
    ensures t[|t| - 1].request == Run(s, args)
  {
  }

  lemma ClicksOnInWhole(whole: Trace, from: nat, t: Trace, q: nat, f: Field)
    requires from + |t| <= |whole| && whole[from..from + |t|] == t && ClicksOn(t, q, f)
    ensures ClicksOn(whole, from + q, f)
  {
    assert whole[from + q] == t[q] && whole[from + q - 1] == t[q - 1];
  }

  lemma {:induction false} CommitInJournal(sid: string, job: Job, acknowledgements: nat, j: Journal, ok: bool, p: nat)
    requires JobKept(sid, job, acknowledgements, j, ok) && p < |Flat(j)| && IsCommit(Flat(j)[p])
    ensures job.platform in {Douyin, WechatChannels, Bilibili, Xiaohongshu} ==>
      ClicksOn(Flat(j), p, if job.draft then DraftButton else Submit)
    ensures job.platform == Baijiahao ==>
      Flat(j)[p].request == Run(Action(Baijiahao), [if job.draft then "draft" else "publish"])
    ensures job.platform == Kuaishou || job.platform == FanqieVideo ==> Flat(j)[p].request == Run(Action(job.platform), [])
  {
    hide Flat;
    hide Ran;
    hide Extends;
    hide Plan;
    hide CommitIndex;
    hide IsCommit;
    hide ClicksOn;
    var at, plan := CommitIndex(job), Plan(job, acknowledgements);
    OneStepCommits(job, acknowledgements);
    CommitStep(job, acknowledgements);
    CommitPlace(sid, plan, at, j, ok, p);
    EntryAt(j, at);
    var t := j[at].trace;
    if plan[at].Press? {
      PressTrace(sid, plan[at].field, t, j[at].ok);
      ClicksOnInWhole(Flat(j), Offset(j, at), t, |t| - 1, plan[at].field);
    } else if plan[at].Await? {
      ScriptTrace(sid, plan[at].script, plan[at].args, t, j[at].ok);
    }
  }

  /**
   What is committed is what the job asks for. Where a button does it, the element clicked is the
   one just found for the draft button if the job is a draft, and for the submit button otherwise;
   Baijiahao's script is told which of the two; Kuaishou and Fanqie have one action, and no drafts.
   */
  lemma CommitIsTheJobs(job: Job, acknowledgements: nat, t: Trace, r: Outcome, next: nat, p: nat)
    requires Published(job, acknowledgements, t, r, next) && p < |t| && IsCommit(t[p])
    ensures job.platform in {Douyin, WechatChannels, Bilibili, Xiaohongshu} ==>
      ClicksOn(t, p, if job.draft then DraftButton else Submit)
    ensures job.platform == Baijiahao ==> t[p].request == Run(Action(Baijiahao), [if job.draft then "draft" else "publish"])
    ensures job.platform == Toutiao ==>
      p > 0 && t[p].request == Run(Action(Toutiao), [if job.draft && Says(t[p - 1].reply, {"horizontal_ready"}) then "draft" else "submit"])
    ensures job.platform == Kuaishou || job.platform == FanqieVideo ==> !job.draft && t[p].request == Run(Action(job.platform), [])
  {
    NoDraftsThere(job, acknowledgements, t, r, next);
    hide Published;
    hide IsCommit;
    hide ClicksOn;
    if job.platform == Toutiao {
      ToutiaoCommit(job, acknowledgements, t, r, next, p);
    } else {
      OtherCommit(job, acknowledgements, t, r, next, p);
    }
  }

  lemma NoDraftsThere(job: Job, acknowledgements: nat, t: Trace, r: Outcome, next: nat)
    requires Published(job, acknowledgements, t, r, next) && t != []
    ensures job.draft ==> job.platform != Kuaishou && job.platform != FanqieVideo
  {
    hide JobKept;
  }

  lemma OtherCommit(job: Job, acknowledgements: nat, t: Trace, r: Outcome, next: nat, p: nat)
    requires Published(job, acknowledgements, t, r, next) && p < |t| && IsCommit(t[p])
    ensures job.platform in {Douyin, WechatChannels, Bilibili, Xiaohongshu} ==>
      ClicksOn(t, p, if job.draft then DraftButton else Submit)
    ensures job.platform == Baijiahao ==> t[p].request == Run(Action(Baijiahao), [if job.draft then "draft" else "publish"])
    ensures job.platform == Kuaishou || job.platform == FanqieVideo ==> t[p].request == Run(Action(job.platform), [])
  {
    hide Published;
    hide JobKept;
    hide Flat;
    hide IsCommit;
    hide ClicksOn;
    CommitInWork(job, acknowledgements, t, r, next, p);
    var sid, j, ok := WorkOf(job, acknowledgements, t, r, next);
    var work := Flat(j);
    assert t[p] == work[p - 1];
    CommitInJournal(sid, job, acknowledgements, j, ok, p - 1);
    if job.platform in {Douyin, WechatChannels, Bilibili, Xiaohongshu} {
      assert t[1..1 + |work|] == work;
      ClicksOnInWhole(t, 1, work, p - 1, if job.draft then DraftButton else Submit);
    }
  }

  lemma ToutiaoCommit(job: Job, acknowledgements: nat, t: Trace, r: Outcome, next: nat, p: nat)
    requires Published(job, acknowledgements, t, r, next) && p < |t| && IsCommit(t[p]) && job.platform == Toutiao
    ensures p > 0 &&
      t[p].request == Run(Action(Toutiao), [if job.draft && Says(t[p - 1].reply, {"horizontal_ready"}) then "draft" else "submit"])
  {
    hide Published;
    DraftFollowsTheFooter(job, acknowledgements, t, r, next, p);
    var ready := t[p - 1];
    assert Says(ready.reply, {"horizontal_ready"}) || Says(ready.reply, {"vertical_ready"});
  }

  // ------------------------------------------------------------- the content

  /** `signs` are one pair for each tag. */
  ghost predicate PairsOf(tags: seq<string>, signs: seq<Sign>) {
    && |signs| == 2 * |tags|
    && forall k :: 0 <= k < |tags| ==> signs[2 * k] == Told(TagSubmit, [tags[k]]) && signs[2 * k + 1] == Told(TagCommitted, [])
  }

  lemma OneMorePair(tags: seq<string>, rest: seq<Sign>, signs: seq<Sign>)
    requires tags != [] && PairsOf(tags[1..], rest) && signs == [Told(TagSubmit, [tags[0]]), Told(TagCommitted, [])] + rest
    ensures PairsOf(tags, signs)
  {
    forall k | 0 <= k < |tags|
      ensures signs[2 * k] == Told(TagSubmit, [tags[k]]) && signs[2 * k + 1] == Told(TagCommitted, [])
    {
      if k > 0 {
        assert signs[2 * k] == rest[2 * (k - 1)] && signs[2 * k + 1] == rest[2 * (k - 1) + 1];
        assert tags[k] == tags[1..][k - 1];
      }
    }
  }

  /** A tag plan without blank tags is one pair of steps for each tag. */
  lemma {:induction false} TagSigns(tags: seq<string>)
    requires "" !in tags
    ensures PairsOf(tags, Signs(TagPlan(tags)))
  {
    if tags != [] {
      TagSigns(tags[1..]);
      var head := [Await(TagSubmit, [tags[0]], Truth, 1), Await(TagCommitted, [], Truth, STATEMENT_ATTEMPTS)];
      assert TagPlan(tags) == head + TagPlan(tags[1..]);
      hide TagPlan;
      hide PairsOf;
      SignsAppend(head, TagPlan(tags[1..]));
      assert Signs(head) == [Told(TagSubmit, [tags[0]]), Told(TagCommitted, [])];
      OneMorePair(tags, Signs(TagPlan(tags[1..])), Signs(TagPlan(tags)));
    }
  }

  lemma {:induction false} BlankTagRefuses(tags: seq<string>) returns (i: nat)
    requires "" in tags
    ensures i < |TagPlan(tags)| && TagPlan(tags)[i] == Refuse
  {
    if tags[0] == "" {
      i := 0;
    } else {
      assert "" in tags[1..];
      var rest := BlankTagRefuses(tags[1..]);
      i := rest + 2;
    }
  }

  /** The parts of what comes before the closing phase. */
  lemma FrontIs(job: Job)
    requires job.file.Some?
    ensures FrontPlan(job) ==
      [Open(Upload(job.platform)), Enter(File, job.file.value)]
      + (if job.platform == Bilibili then [Await(UploadState(Bilibili), [], READY, UPLOAD_ATTEMPTS)] else [])
      + [Enter(Title, job.title)]
      + ((if job.platform == Kuaishou then [] else ShortPart(job))
      + ((if job.platform == Kuaishou then [] else TextPart(job))
      + (TagPart(job)
      + (ProductPart(job)
      + ((if job.platform == Douyin then DouyinPlan() else [])
      + (StatementPart(job)
      + ((if job.platform == WechatChannels then WechatPlan() else [])
      + (if job.platform == Xiaohongshu then [PkCover] else []))))))))
  {
    hide ShortPart;
    hide TextPart;
    hide ProductPart;
    hide StatementPart;
    hide DouyinPlan;
    hide WechatPlan;
  }

  ghost predicate AllSigned(plan: seq<Step>) {
    forall i :: 0 <= i < |plan| ==> SignOf(plan[i]) != Other
  }

  lemma BothSigned(a: seq<Step>, b: seq<Step>)
    requires AllSigned(a) && AllSigned(b)
    ensures AllSigned(a + b)
  {
  }

  lemma SettingsSigned(job: Job)
    ensures AllSigned(SettingsPlan(job))
  {
    var douyin := if job.platform == Douyin then DouyinPlan() else [];
    var wechat := if job.platform == WechatChannels then WechatPlan() else [];
    var cover := if job.platform == Xiaohongshu then [PkCover] else [];
    assert AllSigned(ProductPart(job)) && AllSigned(StatementPart(job)) && AllSigned(douyin) && AllSigned(wechat) && AllSigned(cover);
    hide AllSigned;
    hide ProductPart;
    hide StatementPart;
    BothSigned(ProductPart(job), douyin);
    BothSigned(ProductPart(job) + douyin, StatementPart(job));
    BothSigned(ProductPart(job) + douyin + StatementPart(job), wechat);
    BothSigned(ProductPart(job) + douyin + StatementPart(job) + wechat, cover);
  }

  lemma MetadataSigned(job: Job)
    requires job.platform == Bilibili ==> "" !in job.tags
    ensures AllSigned(MetadataPlan(job))
  {
    TagsHaveSigns(job);
    assert AllSigned([Enter(Title, job.title)]) && AllSigned(ShortPart(job)) && AllSigned(TextPart(job));
    hide AllSigned;
    hide ShortPart;
    hide TextPart;
    hide TagPart;
    BothSigned(ShortPart(job), TextPart(job));
    BothSigned(ShortPart(job) + TextPart(job), TagPart(job));
    BothSigned([Enter(Title, job.title)], ShortPart(job) + TextPart(job) + TagPart(job));
    assert job.platform == Kuaishou ==> MetadataPlan(job) == [Enter(Title, job.title)];
  }

  lemma FrontHasSigns(job: Job)
    requires job.file.Some? && (job.platform == Bilibili ==> "" !in job.tags)
    ensures AllSigned(FrontPlan(job))
  {
    var upload := UploadPlan(job.platform, job.file.value);
    assert AllSigned(upload);
    MetadataSigned(job);
    SettingsSigned(job);
    hide AllSigned;
    hide UploadPlan;
    hide MetadataPlan;
    hide SettingsPlan;
    BothSigned(upload, MetadataPlan(job));
    BothSigned(upload + MetadataPlan(job), SettingsPlan(job));
  }

  lemma TagsHaveSigns(job: Job)
    requires job.platform == Bilibili ==> "" !in job.tags
    ensures AllSigned(TagPart(job))
  {
    if job.platform == Bilibili {
      TagSigns(job.tags);
      var signs := Signs(TagPlan(job.tags));
      forall i | 0 <= i < |TagPart(job)| ensures SignOf(TagPart(job)[i]) != Other {
        var k := i / 2;
        assert i == 2 * k || i == 2 * k + 1;
        assert signs[i] == SignOf(TagPart(job)[i]);
      }
    }
  }

  lemma RefusalPlace(job: Job, acknowledgements: nat) returns (m: nat)
    requires job.file.Some? && job.platform == Bilibili && "" in job.tags
    ensures m < CommitIndex(job) && m < |Plan(job, acknowledgements)| && Plan(job, acknowledgements)[m] == Refuse
  {
    var i := BlankTagRefuses(job.tags);
    hide TagPlan;
    hide FrontPlan;
    hide ClosingPlan;
    hide ActionPlan;
    BlankTagPlace(job, i);
    m := 4 + (if job.description != "" then 1 else 0) + i;
    assert CommitIndex(job) >= |FrontPlan(job)|;
    hide CommitIndex;
    PlanParts(job, acknowledgements);
    hide Plan;
    assert Plan(job, acknowledgements)[m] == FrontPlan(job)[m];
  }

  /** A blank tag stops the workflow before it commits. */
  lemma {:induction false} NoBlankTag(sid: string, job: Job, acknowledgements: nat, j: Journal, ok: bool, p: nat)
    requires JobKept(sid, job, acknowledgements, j, ok) && p < |Flat(j)| && IsCommit(Flat(j)[p])
    ensures job.platform == Bilibili ==> "" !in job.tags
  {
    hide Flat;
    hide IsCommit;
    hide Plan;
    hide CommitIndex;
    if job.platform == Bilibili && "" in job.tags {
      var m := RefusalPlace(job, acknowledgements);
      OneStepCommits(job, acknowledgements);
      BeforeCommit(sid, Plan(job, acknowledgements), CommitIndex(job), j, ok, p, m);
      assert false;
    }
  }

  lemma BlankTagPlace(job: Job, i: nat)
    requires job.file.Some? && job.platform == Bilibili && i < |TagPlan(job.tags)| && TagPlan(job.tags)[i] == Refuse
    ensures var m := 4 + (if job.description != "" then 1 else 0) + i;
      m < |FrontPlan(job)| && FrontPlan(job)[m] == Refuse
  {
    hide TagPlan;
    hide ProductPart;
    hide StatementPart;
    FrontIs(job);
    hide FrontPlan;
  }

  lemma {:induction false} FrontShownInJournal(sid: string, job: Job, acknowledgements: nat, j: Journal, ok: bool, p: nat)
    requires JobKept(sid, job, acknowledgements, j, ok) && p < |Flat(j)| && IsCommit(Flat(j)[p])
    ensures job.platform == Bilibili ==> "" !in job.tags
    ensures InOrder(Flat(j), p, Signs(FrontPlan(job)))
  {
    NoBlankTag(sid, job, acknowledgements, j, ok, p);
    FrontHasSigns(job);
    hide Flat;
    hide Ran;
    hide Extends;
    hide FrontPlan;
    hide IsCommit;
    hide InOrder;
    var plan, at, n := Plan(job, acknowledgements), CommitIndex(job), |FrontPlan(job)|;
    PlanParts(job, acknowledgements);
    OneStepCommits(job, acknowledgements);
    hide Plan;
    assert n <= at;
    CommitPlace(sid, plan, at, j, ok, p);
    assert plan[0..n] == FrontPlan(job);
    PartShows(sid, plan, j, ok, 0, n);
    OffsetsGrow(j, n, at);
    LaterToo(Flat(j), Offset(j, n), p, Signs(FrontPlan(job)));
  }

  /** Before a publication commits, everything before its closing phase has left its sign, in order. */
  lemma FrontShown(job: Job, acknowledgements: nat, t: Trace, r: Outcome, next: nat, p: nat)
    requires Published(job, acknowledgements, t, r, next) && p < |t| && IsCommit(t[p])
    ensures job.file.Some? && (job.platform == Bilibili ==> "" !in job.tags)
    ensures InOrder(t, p, Signs(FrontPlan(job)))
  {
    hide Published;
    hide Kept;
    hide Flat;
    hide IsCommit;
    hide InOrder;
    hide FrontPlan;
    CommitInWork(job, acknowledgements, t, r, next, p);
    var sid, j, ok := WorkOf(job, acknowledgements, t, r, next);
    var work := Flat(j);
    assert t[p] == work[p - 1];
    FrontShownInJournal(sid, job, acknowledgements, j, ok, p - 1);
    assert t[1..|work| + 1] == work;
    InOrderInWhole(t, work, p - 1, Signs(FrontPlan(job)));
  }

  /** The part `b` of what is shown before `p`. */
  lemma PartShown(t: Trace, p: nat, job: Job, a: seq<Step>, b: seq<Step>, c: seq<Step>)
    requires job.file.Some? && InOrder(t, p, Signs(FrontPlan(job))) && FrontPlan(job) == a + b + c
    ensures InOrder(t, p, Signs(b)) && InOrder(t, p, Signs(a) + Signs(c))
  {
    hide InOrder;
    hide SignOf;
    SignsAppend(a, b);
    SignsAppend(a + b, c);
    Drop(t, p, Signs(a), Signs(b), Signs(c));
  }

  /** What a job has entered, field by field. */
  function Entries(job: Job): seq<Step>
    requires job.file.Some?
  {
    [Enter(Title, job.title)]
    + (if job.platform == Kuaishou then [] else ShortPart(job)) + (if job.platform == Kuaishou then [] else TextPart(job))
  }

  /** What follows the entries, up to the closing phase. */
  function Behind(job: Job): seq<Step> {
    TagPart(job)
    + (ProductPart(job)
    + ((if job.platform == Douyin then DouyinPlan() else [])
    + (StatementPart(job)
    + ((if job.platform == WechatChannels then WechatPlan() else [])
    + (if job.platform == Xiaohongshu then [PkCover] else [])))))
  }

  lemma Regroup(head: seq<Step>, title: seq<Step>, short: seq<Step>, text: seq<Step>, back: seq<Step>)
    ensures head + title + (short + (text + back)) == head + (title + short + text + back)
  {
  }

  lemma EntriesPlace(job: Job)
    requires job.file.Some?
    ensures var head, wait := [Open(Upload(job.platform)), Enter(File, job.file.value)],
        if job.platform == Bilibili then [Await(UploadState(Bilibili), [], READY, UPLOAD_ATTEMPTS)] else [];
      FrontPlan(job) == head + wait + (Entries(job) + Behind(job))
  {
    FrontIs(job);
    var short := if job.platform == Kuaishou then [] else ShortPart(job);
    var text := if job.platform == Kuaishou then [] else TextPart(job);
    var wait := if job.platform == Bilibili then [Await(UploadState(Bilibili), [], READY, UPLOAD_ATTEMPTS)] else [];
    assert FrontPlan(job) == [Open(Upload(job.platform)), Enter(File, job.file.value)] + wait + [Enter(Title, job.title)] + (short + (text + Behind(job)));
    assert Entries(job) == [Enter(Title, job.title)] + short + text;
    hide Behind;
    hide Entries;
    hide FrontPlan;
    hide ShortPart;
    hide TextPart;
    Regroup([Open(Upload(job.platform)), Enter(File, job.file.value)] + wait, [Enter(Title, job.title)], short, text, Behind(job));
  }

  lemma EntriesSigns(job: Job)
    requires job.file.Some?
    ensures Signs(Entries(job)) ==
      [Typed(Title, job.title)]
      + (if job.platform == WechatChannels && job.shortTitle.Some? then [Typed(ShortTitle, job.shortTitle.value)] else [])
      + (if job.platform != Kuaishou && job.description != "" then [Typed(Description, job.description)] else [])
  {
  }

  /**
   Before a publication commits it has opened the platform's upload page and entered the job's
   file, then its title, its short title (WeChat Channels) and its description (not Kuaishou), each
   in the element just found for that field, and in this order; Bilibili's upload was ready before
   the title.
   */
  lemma CommitFollowsContent(job: Job, acknowledgements: nat, t: Trace, r: Outcome, next: nat, p: nat)
    requires Published(job, acknowledgements, t, r, next) && p < |t| && IsCommit(t[p])
    ensures job.file.Some?
    ensures InOrder(t, p,
      [Went(Upload(job.platform)), Typed(File, job.file.value), Typed(Title, job.title)]
      + (if job.platform == WechatChannels && job.shortTitle.Some? then [Typed(ShortTitle, job.shortTitle.value)] else [])
      + (if job.platform != Kuaishou && job.description != "" then [Typed(Description, job.description)] else []))
    ensures job.platform == Bilibili ==>
      InOrder(t, p, [Typed(File, job.file.value), Said(UploadState(Bilibili), [], {"ready"}), Typed(Title, job.title)])
  {
    hide Published;
    hide InOrder;
    hide IsCommit;
    FrontShown(job, acknowledgements, t, r, next, p);
    hide FrontPlan;
    EntriesPlace(job);
    var back := Behind(job);
    hide Behind;
    var head := [Open(Upload(job.platform)), Enter(File, job.file.value)];
    var wait := if job.platform == Bilibili then [Await(UploadState(Bilibili), [], READY, UPLOAD_ATTEMPTS)] else [];
    ContentShown(t, p, job, head, wait, back);
    EntriesSigns(job);
    var short := if job.platform == WechatChannels && job.shortTitle.Some? then [Typed(ShortTitle, job.shortTitle.value)] else [];
    var text := if job.platform != Kuaishou && job.description != "" then [Typed(Description, job.description)] else [];
    hide Entries;
    assert [Went(Upload(job.platform)), Typed(File, job.file.value)] + ([Typed(Title, job.title)] + short + text)
        == [Went(Upload(job.platform)), Typed(File, job.file.value), Typed(Title, job.title)] + short + text;
    if job.platform == Bilibili { UploadShown(t, p, job, back); }
  }

  lemma ContentShown(t: Trace, p: nat, job: Job, head: seq<Step>, wait: seq<Step>, back: seq<Step>)
    requires job.file.Some? && head == [Open(Upload(job.platform)), Enter(File, job.file.value)]
    requires InOrder(t, p, Signs(FrontPlan(job))) && FrontPlan(job) == head + wait + (Entries(job) + back)
    ensures InOrder(t, p, [Went(Upload(job.platform)), Typed(File, job.file.value)] + Signs(Entries(job)))
  {
    hide InOrder;
    hide FrontPlan;
    hide Entries;
    PartShown(t, p, job, head, wait, Entries(job) + back);
    SignsAppend(Entries(job), back);
    var kept := Signs(head) + Signs(Entries(job));
    assert Signs(head) == [Went(Upload(job.platform)), Typed(File, job.file.value)];
    assert Signs(head) + Signs(Entries(job) + back) == kept + Signs(back) + [];
    Drop(t, p, kept, Signs(back), []);
    assert kept + [] == kept;
  }

  lemma UploadShown(t: Trace, p: nat, job: Job, back: seq<Step>)
    requires job.file.Some? && job.platform == Bilibili
    requires InOrder(t, p, Signs(FrontPlan(job)))
    requires FrontPlan(job) == [Open(Upload(job.platform)), Enter(File, job.file.value)]
      + [Await(UploadState(Bilibili), [], READY, UPLOAD_ATTEMPTS)] + (Entries(job) + back)
    ensures InOrder(t, p, [Typed(File, job.file.value), Said(UploadState(Bilibili), [], {"ready"}), Typed(Title, job.title)])
  {
    hide InOrder;
    hide FrontPlan;
    var a, b := [Open(Upload(job.platform))],
      [Enter(File, job.file.value), Await(UploadState(Bilibili), [], READY, UPLOAD_ATTEMPTS), Enter(Title, job.title)];
    var c := Entries(job)[1..] + back;
    assert FrontPlan(job) == a + b + c;
    PartShown(t, p, job, a, b, c);
    assert Signs(b) == [Typed(File, job.file.value), Said(UploadState(Bilibili), [], {"ready"}), Typed(Title, job.title)];
  }

  /** Any later part is shown: tags, product, statement and what the platform needs besides. */
  lemma LaterParts(t: Trace, p: nat, job: Job)
    requires job.file.Some? && InOrder(t, p, Signs(FrontPlan(job)))
    ensures InOrder(t, p, Signs(TagPart(job))) && InOrder(t, p, Signs(ProductPart(job))) && InOrder(t, p, Signs(StatementPart(job)))
    ensures job.platform == Douyin ==> InOrder(t, p, Signs(DouyinPlan()))
    ensures job.platform == WechatChannels ==> InOrder(t, p, Signs(WechatPlan()))
    ensures job.platform == Xiaohongshu ==> InOrder(t, p, Signs([PkCover]))
  {
    var head := FrontSplits(job);
    var douyin := if job.platform == Douyin then DouyinPlan() else [];
    var wechat := if job.platform == WechatChannels then WechatPlan() else [];
    var cover := if job.platform == Xiaohongshu then [PkCover] else [];
    assert Behind(job) == TagPart(job) + (ProductPart(job) + (douyin + (StatementPart(job) + (wechat + cover))));
    hide InOrder;
    hide FrontPlan;
    hide Entries;
    hide TagPart;
    hide ProductPart;
    hide StatementPart;
    hide DouyinPlan;
    hide WechatPlan;
    hide Signs;
    hide Behind;
    SixParts(t, p, job, head + Entries(job), TagPart(job), ProductPart(job), douyin, StatementPart(job), wechat, cover);
  }

  lemma FrontSplits(job: Job) returns (head: seq<Step>)
    requires job.file.Some?
    ensures FrontPlan(job) == head + Entries(job) + Behind(job) == head + (Entries(job) + Behind(job))
  {
    hide FrontPlan;
    hide Entries;
    hide Behind;
    EntriesPlace(job);
    head := [Open(Upload(job.platform)), Enter(File, job.file.value)]
      + if job.platform == Bilibili then [Await(UploadState(Bilibili), [], READY, UPLOAD_ATTEMPTS)] else [];
  }

  lemma SixParts(t: Trace, p: nat, job: Job, head: seq<Step>, a: seq<Step>, b: seq<Step>, c: seq<Step>, d: seq<Step>, e: seq<Step>, f: seq<Step>)
    requires job.file.Some? && InOrder(t, p, Signs(FrontPlan(job)))
    requires FrontPlan(job) == head + (a + (b + (c + (d + (e + f)))))
    ensures InOrder(t, p, Signs(a)) && InOrder(t, p, Signs(b)) && InOrder(t, p, Signs(c))
    ensures InOrder(t, p, Signs(d)) && InOrder(t, p, Signs(e)) && InOrder(t, p, Signs(f))
  {
    hide InOrder;
    hide FrontPlan;
    hide Signs;
    PartShown(t, p, job, head, a, b + (c + (d + (e + f))));
    PartShown(t, p, job, head + a, b, c + (d + (e + f)));
    PartShown(t, p, job, head + a + b, c, d + (e + f));
    PartShown(t, p, job, head + a + b + c, d, e + f);
    PartShown(t, p, job, head + a + b + c + d, e, f);
    assert head + (a + (b + (c + (d + (e + f))))) == head + a + b + c + d + e + f + [];
    PartShown(t, p, job, head + a + b + c + d + e, f, []);
  }

  /** Bilibili's tags are each submitted and seen committed, one after the other; none of them is blank. */
  lemma CommitFollowsTags(job: Job, acknowledgements: nat, t: Trace, r: Outcome, next: nat, p: nat, k: nat)
    requires Published(job, acknowledgements, t, r, next) && p < |t| && IsCommit(t[p])
    requires job.platform == Bilibili && k < |job.tags|
    ensures job.tags[k] != "" && InOrder(t, p, [Told(TagSubmit, [job.tags[k]]), Told(TagCommitted, [])])
    ensures k + 1 < |job.tags| ==> InOrder(t, p, [Told(TagSubmit, [job.tags[k]]), Told(TagCommitted, []), Told(TagSubmit, [job.tags[k + 1]])])
  {
    hide Published;
    hide InOrder;
    hide IsCommit;
    FrontShown(job, acknowledgements, t, r, next, p);
    LaterParts(t, p, job);
    assert job.tags[k] in job.tags;
    TagsShown(t, p, job.tags, k);
  }

  lemma TagSignsAt(tags: seq<string>, k: nat)
    requires "" !in tags && k < |tags|
    ensures |Signs(TagPlan(tags))| == 2 * |tags|
    ensures Signs(TagPlan(tags))[2 * k] == Told(TagSubmit, [tags[k]])
    ensures Signs(TagPlan(tags))[2 * k + 1] == Told(TagCommitted, [])
  {
    TagSigns(tags);
  }

  lemma TwoShown(t: Trace, p: nat, signs: seq<Sign>, m: nat, a: Sign, b: Sign)
    requires m + 2 <= |signs| && InOrder(t, p, signs) && signs[m] == a && signs[m + 1] == b
    ensures InOrder(t, p, [a, b])
    ensures m + 2 < |signs| ==> InOrder(t, p, [a, b, signs[m + 2]])
  {
    hide InOrder;
    Middle(t, p, signs, m, m + 2);
    assert signs[m..m + 2] == [a, b];
    if m + 2 < |signs| {
      Middle(t, p, signs, m, m + 3);
      assert signs[m..m + 3] == [a, b, signs[m + 2]];
    }
  }

  lemma {:induction false} TagsShown(t: Trace, p: nat, tags: seq<string>, k: nat)
    requires "" !in tags && k < |tags| && InOrder(t, p, Signs(TagPlan(tags)))
    ensures InOrder(t, p, [Told(TagSubmit, [tags[k]]), Told(TagCommitted, [])])
    ensures k + 1 < |tags| ==> InOrder(t, p, [Told(TagSubmit, [tags[k]]), Told(TagCommitted, []), Told(TagSubmit, [tags[k + 1]])])
  {
    hide InOrder;
    hide TagPlan;
    hide Signs;
    TagSignsAt(tags, k);
    if k + 1 < |tags| { TagSignsAt(tags, k + 1); }
    TwoShown(t, p, Signs(TagPlan(tags)), 2 * k, Told(TagSubmit, [tags[k]]), Told(TagCommitted, []));
  }

  lemma Middle(t: Trace, p: nat, signs: seq<Sign>, m: nat, n: nat)
    requires m <= n <= |signs| && InOrder(t, p, signs)
    ensures InOrder(t, p, signs[m..n])
  {
    hide InOrder;
    assert signs == signs[..m] + signs[m..n] + signs[n..];
    Drop(t, p, signs[..m], signs[m..n], signs[n..]);
  }

  /** A product for WeChat Channels is found in its dialog by its identifier, selected, added and seen attached. */
  lemma CommitFollowsProduct(job: Job, acknowledgements: nat, t: Trace, r: Outcome, next: nat, p: nat)
    requires Published(job, acknowledgements, t, r, next) && p < |t| && IsCommit(t[p])
    requires job.platform == WechatChannels
    ensures job.product.Ok?
    ensures job.product.value.Some? ==>
      var id := job.product.value.value;
      InOrder(t, p,
        [Told(ProductTypeReady, []), Told(ProductChooser, []), Told(ProductDialog, []), Told(ProductSearch, [id]),
         Told(ProductRow, [id]), Told(ProductSelect, [id]), Told(ProductAddReady, []), Told(ProductAdd, []), Told(ProductAttached, [])])
  {
    ProductKnown(job, acknowledgements, t, r, next);
    hide Published;
    hide InOrder;
    hide IsCommit;
    FrontShown(job, acknowledgements, t, r, next, p);
    LaterParts(t, p, job);
    hide FrontPlan;
    if job.product.value.Some? { ProductSigns(job); }
    hide Signs;
    hide ProductPart;
  }

  lemma ProductKnown(job: Job, acknowledgements: nat, t: Trace, r: Outcome, next: nat)
    requires Published(job, acknowledgements, t, r, next) && t != [] && job.platform == WechatChannels
    ensures job.product.Ok?
  {
    hide JobKept;
  }

  lemma ProductSigns(job: Job)
    requires job.platform == WechatChannels && job.product.Ok? && job.product.value.Some?
    ensures var id := job.product.value.value;
      Signs(ProductPart(job)) ==
        [Told(ProductTypeReady, []), Told(ProductChooser, []), Told(ProductDialog, []), Told(ProductSearch, [id]),
         Told(ProductRow, [id]), Told(ProductSelect, [id]), Told(ProductAddReady, []), Told(ProductAdd, []), Told(ProductAttached, [])]
  {
    var id := job.product.value.value;
    SignsAppend(ChoosePlan(id), AttachPlan(id));
    assert Signs(ChoosePlan(id)) == [Told(ProductTypeReady, []), Told(ProductChooser, []), Told(ProductDialog, []), Told(ProductSearch, [id]), Told(ProductRow, [id])];
    var attach := Signs(AttachPlan(id));
    assert |attach| == 4 && attach[0] == Told(ProductSelect, [id]) && attach[1] == Told(ProductAddReady, []);
    assert attach[2] == Told(ProductAdd, []) && attach[3] == Told(ProductAttached, []);
    assert Signs(AttachPlan(id)) == [Told(ProductSelect, [id]), Told(ProductAddReady, []), Told(ProductAdd, []), Told(ProductAttached, [])];
    hide Signs;
    hide ChoosePlan;
    hide AttachPlan;
  }

  lemma StatementSigns(job: Job)
    requires job.platform != FanqieVideo && job.statement.Some?
    ensures var p, text := job.platform, job.statement.value;
      var pick := [Told(StatementOpen(p), []), Told(StatementShown(p), [text]), Told(StatementSelect(p), [text])];
      Signs(StatementPart(job)) ==
        match p
        case Toutiao => [SourceMarked(text)]
        case WechatChannels => [Told(StatementOpen(p), []), Told(StatementSelect(p), [text])]
        case Douyin => pick + [Told(StatementConfirm(p), [text]), Told(StatementGone(p), [text])]
        case Baijiahao => pick + [Told(StatementConfirm(p), [text]), Told(StatementGone(p), [text])]
        case Bilibili => pick + [Told(StatementGone(p), [text])]
        case Xiaohongshu => pick + [Said(StatementApplied(p), [text], {"description", "placeholder"})]
        case _ => pick + [Told(StatementApplied(p), [text])]
  {
  }

  /** The job's own statement is chosen as its platform demands, step by step, and seen to have taken effect. */
  lemma CommitFollowsStatement(job: Job, acknowledgements: nat, t: Trace, r: Outcome, next: nat, p: nat)
    requires Published(job, acknowledgements, t, r, next) && p < |t| && IsCommit(t[p])
    requires job.platform != FanqieVideo && job.statement.Some?
    ensures var pl, text := job.platform, job.statement.value;
      var pick := [Told(StatementOpen(pl), []), Told(StatementShown(pl), [text]), Told(StatementSelect(pl), [text])];
      InOrder(t, p,
        match pl
        case Toutiao => [SourceMarked(text)]
        case WechatChannels => [Told(StatementOpen(pl), []), Told(StatementSelect(pl), [text])]
        case Douyin => pick + [Told(StatementConfirm(pl), [text]), Told(StatementGone(pl), [text])]
        case Baijiahao => pick + [Told(StatementConfirm(pl), [text]), Told(StatementGone(pl), [text])]
        case Bilibili => pick + [Told(StatementGone(pl), [text])]
        case Xiaohongshu => pick + [Said(StatementApplied(pl), [text], {"description", "placeholder"})]
        case _ => pick + [Told(StatementApplied(pl), [text])])
  {
    hide Published;
    hide InOrder;
    hide IsCommit;
    FrontShown(job, acknowledgements, t, r, next, p);
    LaterParts(t, p, job);
    hide FrontPlan;
    StatementSigns(job);
    hide StatementPart;
    hide Signs;
  }

  /**
   Besides, Douyin's preview was ready and its permission given, WeChat's declaration had ended well
   and its upload was ready, Xiaohongshu's cover option was off.
   */
  lemma CommitFollowsPreparation(job: Job, acknowledgements: nat, t: Trace, r: Outcome, next: nat, p: nat)
    requires Published(job, acknowledgements, t, r, next) && p < |t| && IsCommit(t[p])
    ensures job.platform == Douyin ==> InOrder(t, p, [Said(UploadState(Douyin), [], {"ready"}), Permission])
    ensures job.platform == WechatChannels ==> InOrder(t, p, [Declared, Said(UploadState(WechatChannels), [], {"ready"})])
    ensures job.platform == Xiaohongshu ==> InOrder(t, p, [CoverClear])
  {
    hide Published;
    hide InOrder;
    hide IsCommit;
    FrontShown(job, acknowledgements, t, r, next, p);
    LaterParts(t, p, job);
    hide FrontPlan;
    assert Signs(DouyinPlan()) == [Said(UploadState(Douyin), [], {"ready"}), Permission];
    assert Signs(WechatPlan()) == [Declared, Said(UploadState(WechatChannels), [], {"ready"})];
    assert Signs([PkCover]) == [CoverClear];
  }

  // ------------------------------------------------------------- the order

  /** Keeps one landmark of a part. */
  lemma Shrink(t: Trace, p: nat, front: seq<Sign>, part: seq<Sign>, m: nat, n: nat, back: seq<Sign>)
    requires m <= n <= |part| && InOrder(t, p, front + part + back)
    ensures InOrder(t, p, front + part[m..n] + back)
  {
    hide InOrder;
    var a, b, c := part[..m], part[m..n], part[n..];
    assert front + part + back == front + a + (b + c + back);
    Drop(t, p, front, a, b + c + back);
    assert front + (b + c + back) == (front + b) + c + back;
    Drop(t, p, front + b, c, back);
  }

  lemma SignsOfSix(a: seq<Step>, b: seq<Step>, c: seq<Step>, d: seq<Step>, e: seq<Step>, f: seq<Step>)
    ensures Signs(a + (b + (c + (d + (e + f))))) == Signs(a) + (Signs(b) + (Signs(c) + (Signs(d) + (Signs(e) + Signs(f)))))
  {
    hide SignOf;
    SignsAppend(e, f);
    SignsAppend(d, e + f);
    SignsAppend(c, d + (e + f));
    SignsAppend(b, c + (d + (e + f)));
    SignsAppend(a, b + (c + (d + (e + f))));
  }

  /** The signs of the settings, part by part and in order. */
  lemma SettingsShown(t: Trace, p: nat, job: Job)
    requires job.file.Some? && InOrder(t, p, Signs(FrontPlan(job)))
    ensures InOrder(t, p, [Typed(Title, job.title)]
      + (Signs(ProductPart(job))
      + (Signs(if job.platform == Douyin then DouyinPlan() else [])
      + (Signs(StatementPart(job))
      + (Signs(if job.platform == WechatChannels then WechatPlan() else [])
      + Signs(if job.platform == Xiaohongshu then [PkCover] else []))))))
  {
    var head := FrontSplits(job);
    var title, more := [Enter(Title, job.title)], Entries(job)[1..];
    assert Entries(job) == title + more;
    assert Behind(job) == TagPart(job) + BehindTags(job);
    hide Entries;
    hide Behind;
    hide FrontPlan;
    hide BehindTags;
    hide TagPart;
    SettingsSigns(job);
    assert Signs(title) == [Typed(Title, job.title)];
    hide Signs;
    TitleShown(t, p, job, head, title, more, TagPart(job), BehindTags(job));
  }

  lemma TitleShown(t: Trace, p: nat, job: Job, head: seq<Step>, title: seq<Step>, more: seq<Step>, tags: seq<Step>, settings: seq<Step>)
    requires job.file.Some? && InOrder(t, p, Signs(FrontPlan(job)))
    requires FrontPlan(job) == head + (title + more + (tags + settings))
    ensures InOrder(t, p, Signs(title) + Signs(settings))
  {
    hide InOrder;
    hide FrontPlan;
    assert FrontPlan(job) == head + (title + more + tags + settings) + [];
    PartShown(t, p, job, head, title + more + tags + settings, []);
    TitleAndSettings(t, p, title, more, tags, settings);
  }

  lemma TitleAndSettings(t: Trace, p: nat, title: seq<Step>, more: seq<Step>, tags: seq<Step>, settings: seq<Step>)
    requires InOrder(t, p, Signs(title + more + tags + settings))
    ensures InOrder(t, p, Signs(title) + Signs(settings))
  {
    hide InOrder;
    hide SignOf;
    SignsAppend(title + more + tags, settings);
    SignsAppend(title + more, tags);
    SignsAppend(title, more);
    assert Signs(title) + Signs(more) + Signs(tags) + Signs(settings) == Signs(title) + (Signs(more) + Signs(tags)) + Signs(settings);
    Drop(t, p, Signs(title), Signs(more) + Signs(tags), Signs(settings));
  }

  function BehindTags(job: Job): seq<Step> {
    ProductPart(job)
    + ((if job.platform == Douyin then DouyinPlan() else [])
    + (StatementPart(job)
    + ((if job.platform == WechatChannels then WechatPlan() else [])
    + (if job.platform == Xiaohongshu then [PkCover] else []))))
  }

  lemma SettingsSigns(job: Job)
    ensures Signs(BehindTags(job)) ==
      Signs(ProductPart(job))
      + (Signs(if job.platform == Douyin then DouyinPlan() else [])
      + (Signs(StatementPart(job))
      + (Signs(if job.platform == WechatChannels then WechatPlan() else [])
      + Signs(if job.platform == Xiaohongshu then [PkCover] else []))))
  {
    var d := if job.platform == Douyin then DouyinPlan() else [];
    var w := if job.platform == WechatChannels then WechatPlan() else [];
    var c := if job.platform == Xiaohongshu then [PkCover] else [];
    hide ProductPart;
    hide StatementPart;
    hide DouyinPlan;
    hide WechatPlan;
    hide SignOf;
    SignsAppend(w, c);
    SignsAppend(StatementPart(job), w + c);
    SignsAppend(d, StatementPart(job) + (w + c));
    SignsAppend(ProductPart(job), d + (StatementPart(job) + (w + c)));
  }

  /** Where a statement has been chosen. */
  function Chosen(job: Job): seq<Sign> {
    if job.platform == FanqieVideo || job.statement.None? then []
    else if job.platform == Toutiao then [SourceMarked(job.statement.value)]
    else [Told(StatementSelect(job.platform), [job.statement.value])]
  }

  lemma ChosenPlace(job: Job) returns (m: nat, n: nat)
    ensures m <= n <= |StatementPart(job)| && Signs(StatementPart(job))[m..n] == Chosen(job)
  {
    if job.platform != FanqieVideo && job.statement.Some? {
      StatementSigns(job);
      m := if job.platform == Toutiao then 0 else if job.platform == WechatChannels then 1 else 2;
      n := m + 1;
      hide StatementPart;
      hide Signs;
    } else {
      m, n := 0, 0;
    }
  }

  lemma AttachedPlace(job: Job) returns (m: nat, n: nat)
    ensures m <= n <= |ProductPart(job)|
    ensures Signs(ProductPart(job))[m..n] ==
      if job.platform == WechatChannels && job.product.Ok? && job.product.value.Some? then [Told(ProductAttached, [])] else []
  {
    if job.platform == WechatChannels && job.product.Ok? && job.product.value.Some? {
      ProductSigns(job);
      m, n := 8, 9;
      hide ProductPart;
      hide Signs;
    } else {
      m, n := 0, 0;
    }
  }

  lemma EdgeSigns(job: Job)
    ensures var douyin := Signs(if job.platform == Douyin then DouyinPlan() else []);
      var x := if job.platform == Douyin then 1 else 0;
      x <= |douyin| && douyin[x..] == if job.platform == Douyin then [Permission] else []
    ensures var wechat := Signs(if job.platform == WechatChannels then WechatPlan() else []);
      var y := if job.platform == WechatChannels then 1 else 0;
      y <= |wechat| && wechat[..y] == if job.platform == WechatChannels then [Declared] else []
    ensures Signs(if job.platform == Xiaohongshu then [PkCover] else []) == if job.platform == Xiaohongshu then [CoverClear] else []
  {
  }

  /**
   The order of what comes before a commit: title, product attached, Douyin's permission, statement
   chosen, WeChat's declaration ended, Xiaohongshu's cover cleared, each if it applies.
   */
  lemma CommitFollowsInOrder(job: Job, acknowledgements: nat, t: Trace, r: Outcome, next: nat, p: nat)
    requires Published(job, acknowledgements, t, r, next) && p < |t| && IsCommit(t[p])
    ensures InOrder(t, p, [Typed(Title, job.title)]
      + (if job.platform == WechatChannels && job.product.Ok? && job.product.value.Some? then [Told(ProductAttached, [])] else [])
      + (if job.platform == Douyin then [Permission] else [])
      + (if job.platform == FanqieVideo || job.statement.None? then []
         else if job.platform == Toutiao then [SourceMarked(job.statement.value)]
         else [Told(StatementSelect(job.platform), [job.statement.value])])
      + (if job.platform == WechatChannels then [Declared] else [])
      + (if job.platform == Xiaohongshu then [CoverClear] else []))
  {
    hide Published;
    hide InOrder;
    hide IsCommit;
    FrontShown(job, acknowledgements, t, r, next, p);
    SettingsShown(t, p, job);
    hide FrontPlan;
    var i, k := AttachedPlace(job);
    var m, n := ChosenPlace(job);
    var douyin := Signs(if job.platform == Douyin then DouyinPlan() else []);
    var wechat := Signs(if job.platform == WechatChannels then WechatPlan() else []);
    var cover := Signs(if job.platform == Xiaohongshu then [PkCover] else []);
    EdgeSigns(job);
    hide Signs;
    hide StatementPart;
    hide ProductPart;
    hide DouyinPlan;
    hide WechatPlan;
    FiveShrink(t, p, [Typed(Title, job.title)], Signs(ProductPart(job)), i, k, douyin, if job.platform == Douyin then 1 else 0,
               Signs(StatementPart(job)), m, n, wechat, if job.platform == WechatChannels then 1 else 0, cover);
  }

  lemma FiveShrink(t: Trace, p: nat, title: seq<Sign>, a: seq<Sign>, i: nat, k: nat, b: seq<Sign>, x: nat, c: seq<Sign>, m: nat, n: nat,
                   d: seq<Sign>, y: nat, e: seq<Sign>)
    requires i <= k <= |a| && x <= |b| && m <= n <= |c| && y <= |d|
    requires InOrder(t, p, title + (a + (b + (c + (d + e)))))
    ensures InOrder(t, p, title + a[i..k] + b[x..] + c[m..n] + d[..y] + e)
  {
    hide InOrder;
    assert title + (a + (b + (c + (d + e)))) == title + a + (b + (c + (d + e)));
    Shrink(t, p, title, a, i, k, b + (c + (d + e)));
    var f := title + a[i..k];
    assert f + (b + (c + (d + e))) == f + b + (c + (d + e));
    Shrink(t, p, f, b, x, |b|, c + (d + e));
    assert b[x..|b|] == b[x..];
    f := f + b[x..];
    assert f + (c + (d + e)) == f + c + (d + e);
    Shrink(t, p, f, c, m, n, d + e);
    f := f + c[m..n];
    assert f + (d + e) == f + d + e;
    Shrink(t, p, f, d, 0, y, e);
    assert d[0..y] == d[..y];
  }

  // ------------------------------------------------------------------ Fanqie

  lemma {:induction false} ChannelsInJournal(sid: string, job: Job, acknowledgements: nat, j: Journal, ok: bool, p: nat)
    requires JobKept(sid, job, acknowledgements, j, ok) && p < |Flat(j)| && IsCommit(Flat(j)[p])
    requires job.platform == FanqieVideo
    ensures InOrder(Flat(j), p,
      [Told(UploadState(FanqieVideo), []), Said(PanelOpen, [], {"open", "opened"}), Told(PanelVisible, []),
       Said(ChannelsEnable, [], {"selected", "clicked"}), Told(ChannelsSelected, []), Said(ActionState(FanqieVideo), [], {"ready"})])
  {
    hide Flat;
    hide Ran;
    hide Extends;
    hide FrontPlan;
    hide IsCommit;
    hide InOrder;
    hide CommitIndex;
    hide Plan;
    var plan, at, n := Plan(job, acknowledgements), CommitIndex(job), |FrontPlan(job)|;
    OneStepCommits(job, acknowledgements);
    ChannelSteps(job, acknowledgements);
    CommitPlace(sid, plan, at, j, ok, p);
    hide SignOf;
    PartShows(sid, plan, j, ok, n, at);
    LaterToo(Flat(j), Offset(j, at), p, Signs(plan[n..at]));
  }

  lemma ChannelSteps(job: Job, acknowledgements: nat)
    requires job.file.Some? && job.platform == FanqieVideo
    ensures var plan, at, n := Plan(job, acknowledgements), CommitIndex(job), |FrontPlan(job)|;
      && n <= at <= |plan| && (forall i :: n <= i < at ==> SignOf(plan[i]) != Other)
      && Signs(plan[n..at]) ==
        [Told(UploadState(FanqieVideo), []), Said(PanelOpen, [], {"open", "opened"}), Told(PanelVisible, []),
         Said(ChannelsEnable, [], {"selected", "clicked"}), Told(ChannelsSelected, []), Said(ActionState(FanqieVideo), [], {"ready"})]
  {
    var closing := ClosingPlan(FanqieVideo, job.draft, acknowledgements);
    var steps := ChannelsPlan() + [OneClickPlan()[0]];
    assert closing[..6] == steps;
    assert CommitIndex(job) == |FrontPlan(job)| + 6;
    hide FrontPlan;
    PlanParts(job, acknowledgements);
    assert Plan(job, acknowledgements)[|FrontPlan(job)|..CommitIndex(job)] == closing[..6];
    hide Plan;
    hide ClosingPlan;
    hide CommitIndex;
    ChannelSigns(steps);
    forall i | |FrontPlan(job)| <= i < CommitIndex(job) ensures SignOf(Plan(job, acknowledgements)[i]) != Other {
      assert Plan(job, acknowledgements)[i] == steps[i - |FrontPlan(job)|];
    }
  }

  lemma ChannelSigns(steps: seq<Step>)
    requires steps == ChannelsPlan() + [OneClickPlan()[0]]
    ensures Signs(steps) ==
      [Told(UploadState(FanqieVideo), []), Said(PanelOpen, [], {"open", "opened"}), Told(PanelVisible, []),
       Said(ChannelsEnable, [], {"selected", "clicked"}), Told(ChannelsSelected, []), Said(ActionState(FanqieVideo), [], {"ready"})]
    ensures forall i :: 0 <= i < |steps| ==> SignOf(steps[i]) != Other
  {
  }

  /** Fanqie's file is uploaded and its channels are selected in the opened panel before the one action. */
  lemma CommitFollowsChannels(job: Job, acknowledgements: nat, t: Trace, r: Outcome, next: nat, p: nat)
    requires Published(job, acknowledgements, t, r, next) && p < |t| && IsCommit(t[p]) && job.platform == FanqieVideo
    ensures InOrder(t, p,
      [Told(UploadState(FanqieVideo), []), Said(PanelOpen, [], {"open", "opened"}), Told(PanelVisible, []),
       Said(ChannelsEnable, [], {"selected", "clicked"}), Told(ChannelsSelected, []), Said(ActionState(FanqieVideo), [], {"ready"})])
  {
    hide Published;
    hide Kept;
    hide Flat;
    hide IsCommit;
    hide InOrder;
    CommitInWork(job, acknowledgements, t, r, next, p);
    var sid, j, ok := WorkOf(job, acknowledgements, t, r, next);
    var work := Flat(j);
    assert t[p] == work[p - 1];
    ChannelsInJournal(sid, job, acknowledgements, j, ok, p - 1);
    assert t[1..|work| + 1] == work;
    InOrderInWhole(t, work, p - 1,
      [Told(UploadState(FanqieVideo), []), Said(PanelOpen, [], {"open", "opened"}), Told(PanelVisible, []),
       Said(ChannelsEnable, [], {"selected", "clicked"}), Told(ChannelsSelected, []), Said(ActionState(FanqieVideo), [], {"ready"})]);
  }

  // ------------------------------------------------------ refusals and typing

  /** Which jobs are turned away, and that nothing is asked of the browser for them. */
  lemma RefusalsMean(job: Job, acknowledgements: nat, t: Trace, r: Outcome, next: nat)
    requires Published(job, acknowledgements, t, r, next)
    ensures r == Refused <==>
      || job.file.None?
      || (job.platform == WechatChannels && job.product.Err?)
      || (job.draft && (job.platform == FanqieVideo || job.platform == Kuaishou))
    ensures r == Refused <==> t == []
  {
    hide JobKept;
  }

  /** What a job may have typed, and into which field. */
  predicate JobsText(job: Job, f: Field, text: string) {
    || (f == File && job.file == Some(text))
    || (f == Title && job.title == text)
    || (f == ShortTitle && job.platform == WechatChannels && job.shortTitle == Some(text))
    || (f == Description && job.platform != Kuaishou && job.description == text && text != "")
  }

  predicate EntersTheJobs(plan: seq<Step>, job: Job) {
    forall i :: 0 <= i < |plan| ==> !plan[i].WriteBody? && (plan[i].Enter? ==> JobsText(job, plan[i].field, plan[i].text))
  }

  lemma BothEnter(a: seq<Step>, b: seq<Step>, job: Job)
    requires EntersTheJobs(a, job) && EntersTheJobs(b, job)
    ensures EntersTheJobs(a + b, job)
  {
  }

  lemma {:induction false} TagsEnterNothing(tags: seq<string>, job: Job)
    ensures EntersTheJobs(TagPlan(tags), job)
  {
    if tags != [] && tags[0] != "" {
      TagsEnterNothing(tags[1..], job);
      BothEnter([Await(TagSubmit, [tags[0]], Truth, 1), Await(TagCommitted, [], Truth, STATEMENT_ATTEMPTS)], TagPlan(tags[1..]), job);
    }
  }

  lemma PlanEntersTheJobs(job: Job, acknowledgements: nat)
    requires job.file.Some?
    ensures EntersTheJobs(Plan(job, acknowledgements), job)
  {
    var upload, settings := UploadPlan(job.platform, job.file.value), SettingsPlan(job);
    var closing := ClosingPlan(job.platform, job.draft, acknowledgements);
    assert EntersTheJobs(upload, job);
    MetadataEnters(job);
    SettingsEnter(job);
    ClosingEnters(job, acknowledgements);
    hide EntersTheJobs;
    hide UploadPlan;
    hide MetadataPlan;
    hide SettingsPlan;
    hide ClosingPlan;
    BothEnter(upload, MetadataPlan(job), job);
    BothEnter(upload + MetadataPlan(job), settings, job);
    BothEnter(upload + MetadataPlan(job) + settings, closing, job);
  }

  lemma ClosingEnters(job: Job, acknowledgements: nat)
    ensures EntersTheJobs(ClosingPlan(job.platform, job.draft, acknowledgements), job)
  {
    assert EntersTheJobs(ActionPlan(job.platform, job.draft), job);
    hide ActionPlan;
  }

  lemma MetadataEnters(job: Job)
    ensures EntersTheJobs(MetadataPlan(job), job)
  {
    TagsEnterNothing(job.tags, job);
    assert EntersTheJobs([], job) && EntersTheJobs([Enter(Title, job.title)], job) && EntersTheJobs(ShortPart(job), job);
    assert EntersTheJobs(TagPart(job), job);
    if job.platform == Kuaishou {
      assert MetadataPlan(job) == [Enter(Title, job.title)];
    } else {
      assert EntersTheJobs(TextPart(job), job);
      hide EntersTheJobs;
      hide ShortPart;
      hide TextPart;
      hide TagPart;
      BothEnter(ShortPart(job), TextPart(job), job);
      BothEnter(ShortPart(job) + TextPart(job), TagPart(job), job);
      BothEnter([Enter(Title, job.title)], ShortPart(job) + TextPart(job) + TagPart(job), job);
    }
  }

  lemma SettingsEnter(job: Job)
    ensures EntersTheJobs(SettingsPlan(job), job)
  {
    var douyin := if job.platform == Douyin then DouyinPlan() else [];
    var wechat := if job.platform == WechatChannels then WechatPlan() else [];
    var cover := if job.platform == Xiaohongshu then [PkCover] else [];
    assert EntersTheJobs(ProductPart(job), job) && EntersTheJobs(StatementPart(job), job) && EntersTheJobs(douyin, job);
    assert EntersTheJobs(wechat, job) && EntersTheJobs(cover, job);
    hide EntersTheJobs;
    hide ProductPart;
    hide StatementPart;
    BothEnter(ProductPart(job), douyin, job);
    BothEnter(ProductPart(job) + douyin, StatementPart(job), job);
    BothEnter(ProductPart(job) + douyin + StatementPart(job), wechat, job);
    BothEnter(ProductPart(job) + douyin + StatementPart(job) + wechat, cover, job);
  }

  /** Only entering types, and then only the step's own text. */
  lemma {:induction false} TypingStep(sid: string, step: Step, t: Trace, ok: bool, i: nat)
    requires Ran(sid, step, t, ok) && i < |t| && t[i].request.Type?
    ensures step.Enter? && TypesInto(t, i, step.field, step.text)
  {
    if step.Enter? {
      if t[|t| - 1].request.Find? {
        assert false;
      } else {
        UsesFound(t, step.field, (e: string) => Type(e, step.text));
        var search := t[..|t| - 1];
        assert forall k :: 0 <= k < |search| ==> t[k] == search[k];
      }
    } else {
      TypesNothing(sid, step, t, ok, i);
    }
  }

  lemma {:induction false} TypesNothing(sid: string, step: Step, t: Trace, ok: bool, i: nat)
    requires Ran(sid, step, t, ok) && i < |t| && !step.Enter?
    ensures !t[i].request.Type?
  {
    if step.Press? || step.WriteBody? {
      SearchTypesNothing(t, if step.WriteBody? then Content else step.field,
                         if step.WriteBody? then ((e: string) => Run(CodeMirrorWrite, [e, step.text])) else ((e: string) => Click(e)), i);
    } else if step.SavePermission? {
      var looks :| t == Join(looks) && PermittedBy(looks, ok);
      LooksAreShort(looks);
    } else if step.ToutiaoStatement? || step.PkCover? {
      assert i >= 2 ==> t[i] == t[2..][i - 2];
    } else if step.Original? {
      DeclaringLaw(Offered, t, ok);
    } else if step.MarkersAbsent? {
      var seen :| Checked(t, 0, seen);
      CheckedIsShort(t, 0, seen);
    } else if step.Acknowledge? {
      var passes :| t == Join(passes) && Watched(passes, step.attempts, ok);
      WatchedLaw(passes, step.attempts, ok);
    } else if step.Footer? {
      assert i < |t| - 1 ==> t[i] == t[..|t| - 1][i];
    }
  }

  lemma SearchTypesNothing(t: Trace, f: Field, use: string -> Request, i: nat)
    requires SearchedThen(t, f, use) && i < |t| && forall e :: !use(e).Type?
    ensures !t[i].request.Type?
  {
    if !t[|t| - 1].request.Find? {
      assert i < |t| - 1 ==> t[i] == t[..|t| - 1][i];
    }
  }

  /** Whatever a publication types is a text of its job, in the element just found for the field it belongs to. */
  lemma {:induction false} TypesOnlyTheJobs(job: Job, acknowledgements: nat, t: Trace, r: Outcome, next: nat, i: nat)
    requires Published(job, acknowledgements, t, r, next) && i < |t| && t[i].request.Type?
    ensures
      || (job.file.Some? && TypesInto(t, i, File, job.file.value))
      || TypesInto(t, i, Title, job.title)
      || (job.platform == WechatChannels && job.shortTitle.Some? && TypesInto(t, i, ShortTitle, job.shortTitle.value))
      || (job.platform != Kuaishou && job.description != "" && TypesInto(t, i, Description, job.description))
  {
    hide Published;
    hide Flat;
    hide Ran;
    hide Plan;
    hide EntersTheJobs;
    hide TypesInto;
    if |t| <= 1 {
      NoWork(job, acknowledgements, t, r, next);
      assert false;
    }
    var sid, j, ok := WorkOf(job, acknowledgements, t, r, next);
    var f := TypedInJournal(sid, Plan(job, acknowledgements), j, ok, i - 1, job, acknowledgements);
    assert t[1..|Flat(j)| + 1] == Flat(j);
    TypesIntoInWhole(t, 1, Flat(j), i - 1, f, t[i].request.text);
  }

  lemma TypesIntoInWhole(whole: Trace, from: nat, t: Trace, q: nat, f: Field, text: string)
    requires from + |t| <= |whole| && whole[from..from + |t|] == t && TypesInto(t, q, f, text)
    ensures TypesInto(whole, from + q, f, text)
  {
    assert whole[from + q] == t[q] && whole[from + q - 1] == t[q - 1];
  }

  lemma {:induction false} TypedInJournal(sid: string, plan: seq<Step>, j: Journal, ok: bool, p: nat, job: Job, acknowledgements: nat) returns (f: Field)
    requires job.file.Some? && plan == Plan(job, acknowledgements) && Kept(sid, plan, j, ok)
    requires p < |Flat(j)| && Flat(j)[p].request.Type?
    ensures JobsText(job, f, Flat(j)[p].request.text) && TypesInto(Flat(j), p, f, Flat(j)[p].request.text)
  {
    hide Flat;
    hide Ran;
    hide Plan;
    hide TypesInto;
    PlanEntersTheJobs(job, acknowledgements);
    var k := EntryOf(j, p);
    var from := Offset(j, k);
    assert j[k].step == plan[k];
    TypingStep(sid, plan[k], j[k].trace, j[k].ok, p - from);
    EntryAt(j, k);
    f := plan[k].field;
    TypesIntoInWhole(Flat(j), from, j[k].trace, p - from, f, plan[k].text);
    assert Flat(j)[p].request.text == plan[k].text by { TypedText(Flat(j), p, f, plan[k].text); }
  }

  lemma TypedText(t: Trace, q: nat, f: Field, text: string)
    requires TypesInto(t, q, f, text)
    ensures t[q].request.text == text
  {
  }
}
