/** Publication of an article, and what its error says about how far it got. */
module ArticleFlow {
  import opened Wrappers
  import opened WebDriver
  import opened VideoLaws
  import opened Evidence
  import VideoFlow
  import VideoContent

  /** `body` is what validation made of the request, with the checks and the file read it includes. */
  datatype Article = Article(
    title: string,
    body: Result<string, ()>,
    cover: Option<string>,
    category: Option<string>,
    tags: Option<string>,
    summary: Option<string>)

  /** The caller may retry elsewhere only when the browser was not touched. */
  datatype Outcome = Accepted(job: nat) | Failure(automationAttempted: bool)

  function Detail(f: Field, text: Option<string>): seq<Step> {
    if text.Some? then [Enter(f, text.value)] else []
  }

  function WritingPlan(a: Article): seq<Step>
    requires a.body.Ok?
  {
    [Open(Editor), Enter(Title, a.title), WriteBody(a.body.value)]
    + Detail(Cover, a.cover) + Detail(Category, a.category) + Detail(Tags, a.tags) + Detail(Summary, a.summary)
  }

  /** The publish panel is opened, then confirmed. */
  function ConfirmPlan(acknowledgements: nat): seq<Step> {
    [MarkersAbsent, Press(Panel), Press(Confirm), Acknowledge(acknowledgements)]
  }

  function Plan(a: Article, acknowledgements: nat): seq<Step>
    requires a.body.Ok?
  {
    WritingPlan(a) + ConfirmPlan(acknowledgements)
  }

  method InputDetail(b: Browser, sid: string, f: Field, text: Option<string>) returns (ok: bool)
    requires b.Valid(sid)
    modifies b`trace, b`journal
    ensures b.Valid(sid) && Extends(old(b.journal), b.journal, Detail(f, text), ok)
  {
    hide Ran;
    hide Extends;
    ok := true;
    VideoFlow.ExtendsNothing(b.journal);
    if text.Some? {
      ok := b.Input(sid, f, text.value);
    }
  }

  method WriteText(b: Browser, sid: string, a: Article) returns (ok: bool)
    requires b.Valid(sid) && a.body.Ok?
    modifies b`trace, b`journal
    ensures b.Valid(sid) && Extends(old(b.journal), b.journal, [Open(Editor), Enter(Title, a.title), WriteBody(a.body.value)], ok)
  {
    hide Ran;
    ok := b.Navigate(sid, Editor);
    if ok {
      ok := b.Input(sid, Title, a.title);
      if ok {
        ok := b.WriteCodeMirror(sid, a.body.value);
      }
    }
  }

  method WriteArticle(b: Browser, sid: string, a: Article) returns (ok: bool)
    requires b.Valid(sid) && a.body.Ok?
    modifies b`trace, b`journal
    ensures b.Valid(sid) && Extends(old(b.journal), b.journal, WritingPlan(a), ok)
  {
    hide Ran;
    hide Extends;
    hide Detail;
    ghost var j0 := b.journal;
    ghost var done := [Open(Editor), Enter(Title, a.title), WriteBody(a.body.value)];
    ghost var cover, category := Detail(Cover, a.cover), Detail(Category, a.category);
    ghost var tags, summary := Detail(Tags, a.tags), Detail(Summary, a.summary);
    VideoFlow.Regrouped(done, cover, category, tags, summary);
    ok := WriteText(b, sid, a);
    if !ok { ExtendsPart(j0, b.journal, done, cover + category + tags + summary); return; }
    ghost var j := b.journal;
    ok := InputDetail(b, sid, Cover, a.cover);
    VideoFlow.Then(j0, j, b.journal, done, cover, category + tags + summary, ok);
    if !ok { return; }
    j, done := b.journal, done + cover;
    ok := InputDetail(b, sid, Category, a.category);
    VideoFlow.Then(j0, j, b.journal, done, category, tags + summary, ok);
    if !ok { return; }
    j, done := b.journal, done + category;
    ok := InputDetail(b, sid, Tags, a.tags);
    VideoFlow.Then(j0, j, b.journal, done, tags, summary, ok);
    if !ok { return; }
    j, done := b.journal, done + tags;
    ok := InputDetail(b, sid, Summary, a.summary);
    ExtendsThen(j0, j, b.journal, done, summary, ok);
  }

  method ConfirmArticle(b: Browser, sid: string, acknowledgements: nat) returns (ok: bool)
    requires b.Valid(sid)
    modifies b`trace, b`journal
    ensures b.Valid(sid) && Extends(old(b.journal), b.journal, ConfirmPlan(acknowledgements), ok)
  {
    hide Extends;
    hide Reached;
    hide Ran;
    ghost var j0, j, plan := b.journal, b.journal, ConfirmPlan(acknowledgements);
    Start(j0, plan);
    ok := VideoFlow.CheckMarkersAbsent(b, sid);
    Advance(j0, j, b.journal, plan, 0, ok);
    if !ok { return; }
    j := b.journal;
    ok := b.ClickOn(sid, Panel);
    Advance(j0, j, b.journal, plan, 1, ok);
    if !ok { return; }
    j := b.journal;
    ok := b.ClickOn(sid, Confirm);
    Advance(j0, j, b.journal, plan, 2, ok);
    if !ok { return; }
    j := b.journal;
    ok := VideoFlow.WaitForSuccess(b, sid, acknowledgements);
    Advance(j0, j, b.journal, plan, 3, ok);
    if ok { Finish(j0, b.journal, plan); }
  }

  /** The trace of one call: no request at all for an invalid article, else one session around the work. */
  ghost predicate Published(a: Article, acknowledgements: nat, t: Trace, r: Outcome, next: nat) {
    if a.body.Err? then t == [] && r == Failure(false)
    else
      && t != [] && t[0].session == None && t[0].request == NewSession
      && match SessionOf(t[0].reply)
         case None => |t| == 1 && r == Failure(true)
         case Some(sid) =>
           && |t| >= 2
           && t[|t| - 1].session == Some(sid) && t[|t| - 1].request == DeleteSession
           && exists j, ok :: Kept(sid, Plan(a, acknowledgements), j, ok) && t[1..|t| - 1] == Flat(j)
                && r == if ok && t[|t| - 1].reply.Value? then Accepted(next) else Failure(true)
  }

  /** Publishes one article; the error admits to automation exactly when a request went out, be it only the one for a session. */
  method PublishArticle(b: Browser, a: Article, acknowledgements: nat) returns (r: Outcome)
    modifies b
    ensures old(b.trace) <= b.trace
    ensures Published(a, acknowledgements, b.trace[|old(b.trace)|..], r, old(b.nextJob))
    ensures r.Failure? ==> (r.automationAttempted <==> |b.trace| > |old(b.trace)|)
    ensures b.nextJob == old(b.nextJob) + if r.Accepted? then 1 else 0
  {
    hide WritingPlan;
    hide ConfirmPlan;
    hide Extends;
    hide Ran;
    if a.body.Err? { return Failure(false); }
    ghost var before := b.trace;
    var session := b.Session();
    if session.None? { return Failure(true); }
    ghost var opening := b.trace[|before|];
    assert b.trace == before + [opening];
    var sid := session.value;
    var ok := WriteArticle(b, sid, a);
    if !ok {
      ExtendsPart([], b.journal, WritingPlan(a), ConfirmPlan(acknowledgements));
    } else {
      ghost var j := b.journal;
      ok := ConfirmArticle(b, sid, acknowledgements);
      ExtendsThen([], j, b.journal, WritingPlan(a), ConfirmPlan(acknowledgements), ok);
    }
    ghost var work := Flat(b.journal);
    var deleted := b.DeleteSession(sid);
    WorkSlice(before, opening, work, b.trace[|b.trace| - 1], b.trace);
    assert Kept(sid, Plan(a, acknowledgements), b.journal, ok);
    if !ok || !deleted { return Failure(true); }
    var number := b.nextJob;
    b.nextJob := b.nextJob + 1;
    return Accepted(number);
  }

  // -------------------------------------------------------------------- laws

  lemma WorkOf(a: Article, acknowledgements: nat, t: Trace, r: Outcome, next: nat) returns (sid: string, j: Journal, ok: bool)
    requires Published(a, acknowledgements, t, r, next) && |t| > 1
    ensures a.body.Ok? && Kept(sid, Plan(a, acknowledgements), j, ok)
    ensures t[0].request == NewSession && SessionOf(t[0].reply) == Some(sid)
    ensures t[|t| - 1].request == DeleteSession && t[|t| - 1].session == Some(sid)
    ensures |Flat(j)| == |t| - 2 && forall i :: 1 <= i < |t| - 1 ==> t[i] == Flat(j)[i - 1]
    ensures r.Accepted? ==> ok
  {
    hide Kept;
    hide Flat;
    sid := SessionOf(t[0].reply).value;
    j, ok :| Kept(sid, Plan(a, acknowledgements), j, ok) && t[1..|t| - 1] == Flat(j)
             && r == if ok && t[|t| - 1].reply.Value? then Accepted(next) else Failure(true);
  }

  lemma NoWork(a: Article, acknowledgements: nat, t: Trace, r: Outcome, next: nat)
    requires Published(a, acknowledgements, t, r, next) && |t| <= 1
    ensures r.Failure? && (t != [] ==> t[0].request == NewSession)
  {
    hide Kept;
  }

  /** One session per article, deleted by the last request and used by all others. */
  lemma SessionIsBracketed(a: Article, acknowledgements: nat, t: Trace, r: Outcome, next: nat)
    requires Published(a, acknowledgements, t, r, next)
    ensures forall i :: 0 <= i < |t| ==> (t[i].request.NewSession? <==> i == 0)
    ensures |t| > 1 ==>
      && (forall i :: 0 <= i < |t| ==> (t[i].request.DeleteSession? <==> i == |t| - 1))
      && forall i :: 1 <= i < |t| ==> t[i].session == SessionOf(t[0].reply)
  {
    hide Published;
    hide Flat;
    hide Kept;
    hide Plan;
    if |t| <= 1 {
      NoWork(a, acknowledgements, t, r, next);
    } else {
      var sid, j, ok := WorkOf(a, acknowledgements, t, r, next);
      WorkStaysInSession(sid, Plan(a, acknowledgements), j, ok);
    }
  }

  /** The panel and the confirmation are the only steps that click, at `at` and right after. */
  ghost predicate ClicksAt(plan: seq<Step>, at: nat) {
    && at + 2 < |plan| && plan[at] == Press(Panel) && plan[at + 1] == Press(Confirm)
    && forall i :: 0 <= i < |plan| ==> (MayCommit(plan[i]) <==> i == at || i == at + 1)
  }

  lemma PlanClicks(a: Article, acknowledgements: nat)
    requires a.body.Ok?
    ensures ClicksAt(Plan(a, acknowledgements), |WritingPlan(a)| + 1)
    ensures Plan(a, acknowledgements)[|WritingPlan(a)|] == MarkersAbsent
    ensures var plan := Plan(a, acknowledgements); plan[|plan| - 1] == Acknowledge(acknowledgements)
  {
    assert forall i :: 0 <= i < |WritingPlan(a)| ==> !MayCommit(WritingPlan(a)[i]);
    hide WritingPlan;
  }

  /** A click ends the step it belongs to, and every earlier step has succeeded before it. */
  lemma ClickPlace(sid: string, plan: seq<Step>, at: nat, j: Journal, ok: bool, p: nat) returns (k: nat)
    requires Kept(sid, plan, j, ok) && ClicksAt(plan, at) && p < |Flat(j)| && IsCommit(Flat(j)[p])
    ensures (k == at || k == at + 1) && k < |j| && j[k].trace != [] && p == Offset(j, k) + |j[k].trace| - 1
  {
    hide Ran;
    hide IsCommit;
    hide MayCommit;
    hide Flat;
    k := EntryOf(j, p);
    StepLaw(sid, j[k].step, j[k].trace, j[k].ok);
    assert j[k].step == plan[k];
    var i := p - Offset(j, k);
    assert j[k].trace[i] == Flat(j)[p];
    assert !(i < |j[k].trace| - 1);
  }

  /** At most two clicks are ever made. */
  lemma AtMostTwoClicks(a: Article, acknowledgements: nat, t: Trace, r: Outcome, next: nat, p: nat, q: nat, s: nat)
    requires Published(a, acknowledgements, t, r, next) && p < q < s < |t|
    requires IsCommit(t[p]) && IsCommit(t[q])
    ensures !IsCommit(t[s])
  {
    hide Published;
    hide Flat;
    hide Kept;
    hide Plan;
    var sid, j, ok := WorkOf(a, acknowledgements, t, r, next);
    PlanClicks(a, acknowledgements);
    if IsCommit(t[s]) {
      var at, plan := |WritingPlan(a)| + 1, Plan(a, acknowledgements);
      hide ClicksAt;
      hide WritingPlan;
      var k := ClickPlace(sid, plan, at, j, ok, p - 1);
      var l := ClickPlace(sid, plan, at, j, ok, q - 1);
      var m := ClickPlace(sid, plan, at, j, ok, s - 1);
    }
  }

  /** The first click comes after a complete check that no success marker was in sight. */
  lemma MarkersCheckedBeforeClicks(a: Article, acknowledgements: nat, t: Trace, r: Outcome, next: nat, p: nat)
    requires Published(a, acknowledgements, t, r, next) && p < |t| && IsCommit(t[p])
    ensures exists x, y :: 0 <= x <= y <= p && Checked(t[x..y], 0, Some(false))
  {
    hide Published;
    hide Flat;
    hide Checked;
    hide Plan;
    hide Kept;
    if |t| <= 1 { NoWork(a, acknowledgements, t, r, next); }
    var sid, j, ok := WorkOf(a, acknowledgements, t, r, next);
    PlanClicks(a, acknowledgements);
    hide ClicksAt;
    hide WritingPlan;
    var m := |WritingPlan(a)|;
    var k := ClickPlace(sid, Plan(a, acknowledgements), m + 1, j, ok, p - 1);
    hide WritingPlan;
    PassBefore(sid, Plan(a, acknowledgements), j, ok, m, k);
    assert t[Offset(j, m) + 1..Offset(j, m + 1) + 1] == Flat(j)[Offset(j, m)..Offset(j, m + 1)];
  }

  lemma {:induction false} PassBefore(sid: string, plan: seq<Step>, j: Journal, ok: bool, m: nat, k: nat)
    requires Kept(sid, plan, j, ok) && m < k < |j| && plan[m] == MarkersAbsent && j[k].trace != []
    ensures Offset(j, m) <= Offset(j, m + 1) <= Offset(j, k) + |j[k].trace| - 1 < |Flat(j)|
    ensures Checked(Flat(j)[Offset(j, m)..Offset(j, m + 1)], 0, Some(false))
  {
    hide Flat;
    hide Checked;
    assert j[m].ok && j[m].step == plan[m];
    MarkerLaw(sid, MarkersAbsent, j[m].trace, true);
    hide Ran;
    EntryAt(j, m);
    EntryAt(j, k);
    OffsetsGrow(j, m + 1, k);
  }

  lemma PressClicks(sid: string, f: Field, t: Trace)
    requires Ran(sid, Press(f), t, true)
    ensures t != [] && ClicksOn(t, |t| - 1, f)
  {
    UsesFound(t, f, (e: string) => Click(e));
  }

  lemma ClickInWork(sid: string, plan: seq<Step>, j: Journal, k: nat, f: Field) returns (p: nat)
    requires Kept(sid, plan, j, true) && k < |plan| && plan[k] == Press(f)
    ensures j[k].trace != [] && p == Offset(j, k) + |j[k].trace| - 1 && ClicksOn(Flat(j), p, f)
  {
    hide Flat;
    hide Ran;
    StepRan(sid, plan, j, true, k);
    PressClicks(sid, f, j[k].trace);
    ExchangeAt(j, k, |j[k].trace| - 1);
    ExchangeAt(j, k, |j[k].trace| - 2);
    p := Offset(j, k) + |j[k].trace| - 1;
  }

  lemma Confirmed(sid: string, plan: seq<Step>, at: nat, j: Journal, acknowledgements: nat) returns (o: nat, p: nat, q: nat)
    requires Kept(sid, plan, j, true) && ClicksAt(plan, at) && plan[|plan| - 1] == Acknowledge(acknowledgements)
    ensures o < p < q < |Flat(j)| && ClicksOn(Flat(j), o, Panel) && ClicksOn(Flat(j), p, Confirm) && SeesMarker(Flat(j)[q])
  {
    hide Flat;
    hide SeesMarker;
    hide Ran;
    hide ClicksOn;
    var end := |plan| - 1;
    o := ClickInWork(sid, plan, j, at, Panel);
    p := ClickInWork(sid, plan, j, at + 1, Confirm);
    StepRan(sid, plan, j, true, end);
    MarkerLaw(sid, plan[end], j[end].trace, true);
    LaterStep(sid, plan, j, at, at + 1);
    LaterStep(sid, plan, j, at + 1, end);
    q := Offset(j, end) + |j[end].trace| - 1;
  }

  /** An accepted article had its panel opened, then its confirmation clicked, and its success marker was seen afterwards. */
  lemma AcceptedMeansConfirmed(a: Article, acknowledgements: nat, t: Trace, r: Outcome, next: nat) returns (o: nat, p: nat, q: nat)
    requires Published(a, acknowledgements, t, r, next) && r.Accepted?
    ensures o < p < q < |t| && ClicksOn(t, o, Panel) && ClicksOn(t, p, Confirm) && SeesMarker(t[q])
  {
    hide Published;
    hide Flat;
    hide Plan;
    hide Kept;
    hide SeesMarker;
    if |t| <= 1 { NoWork(a, acknowledgements, t, r, next); }
    var sid, j, ok := WorkOf(a, acknowledgements, t, r, next);
    PlanClicks(a, acknowledgements);
    o, p, q := Confirmed(sid, Plan(a, acknowledgements), |WritingPlan(a)| + 1, j, acknowledgements);
    o, p, q := o + 1, p + 1, q + 1;
  }

  // -------------------------------------------------------------- the content

  lemma WritingSigns(a: Article)
    requires a.body.Ok?
    ensures Signs(WritingPlan(a)) ==
      [Went(Editor), Typed(Title, a.title), Written(a.body.value)]
      + (if a.cover.Some? then [Typed(Cover, a.cover.value)] else [])
      + (if a.category.Some? then [Typed(Category, a.category.value)] else [])
      + (if a.tags.Some? then [Typed(Tags, a.tags.value)] else [])
      + (if a.summary.Some? then [Typed(Summary, a.summary.value)] else [])
    ensures forall i :: 0 <= i < |WritingPlan(a)| ==> SignOf(WritingPlan(a)[i]) != Other
  {
    var head := [Open(Editor), Enter(Title, a.title), WriteBody(a.body.value)];
    var cover, category, tags, summary := Detail(Cover, a.cover), Detail(Category, a.category), Detail(Tags, a.tags), Detail(Summary, a.summary);
    assert Signs(head) == [Went(Editor), Typed(Title, a.title), Written(a.body.value)];
    DetailSigns(Cover, a.cover);
    DetailSigns(Category, a.category);
    DetailSigns(Tags, a.tags);
    DetailSigns(Summary, a.summary);
    assert forall i :: 0 <= i < |head| ==> SignOf(head[i]) != Other;
    hide SignOf;
    hide Detail;
    SignsAppend(head, cover);
    SignsAppend(head + cover, category);
    SignsAppend(head + cover + category, tags);
    SignsAppend(head + cover + category + tags, summary);
  }

  lemma DetailSigns(f: Field, text: Option<string>)
    ensures Signs(Detail(f, text)) == if text.Some? then [Typed(f, text.value)] else []
    ensures forall i :: 0 <= i < |Detail(f, text)| ==> SignOf(Detail(f, text)[i]) != Other
  {
  }

  lemma {:induction false} WrittenInJournal(sid: string, a: Article, acknowledgements: nat, j: Journal, ok: bool, p: nat)
    requires a.body.Ok? && Kept(sid, Plan(a, acknowledgements), j, ok) && p < |Flat(j)| && IsCommit(Flat(j)[p])
    ensures InOrder(Flat(j), p, Signs(WritingPlan(a)))
  {
    hide Flat;
    hide Ran;
    hide Extends;
    hide IsCommit;
    hide InOrder;
    var plan, n := Plan(a, acknowledgements), |WritingPlan(a)|;
    PlanClicks(a, acknowledgements);
    WritingSigns(a);
    assert plan[0..n] == WritingPlan(a);
    assert forall i :: 0 <= i < n ==> plan[i] == WritingPlan(a)[i];
    hide WritingPlan;
    hide Plan;
    hide ClicksAt;
    var k := ClickPlace(sid, plan, n + 1, j, ok, p);
    hide SignOf;
    hide Signs;
    PartShows(sid, plan, j, ok, 0, n);
    OffsetsGrow(j, n, k);
    LaterToo(Flat(j), Offset(j, n), p, Signs(plan[0..n]));
  }

  /** Before any click the editor was opened and title, body and every detail given were entered, each in its own field, in order. */
  lemma ContentBeforeClicks(a: Article, acknowledgements: nat, t: Trace, r: Outcome, next: nat, p: nat)
    requires Published(a, acknowledgements, t, r, next) && p < |t| && IsCommit(t[p])
    ensures a.body.Ok?
    ensures InOrder(t, p,
      [Went(Editor), Typed(Title, a.title), Written(a.body.value)]
      + (if a.cover.Some? then [Typed(Cover, a.cover.value)] else [])
      + (if a.category.Some? then [Typed(Category, a.category.value)] else [])
      + (if a.tags.Some? then [Typed(Tags, a.tags.value)] else [])
      + (if a.summary.Some? then [Typed(Summary, a.summary.value)] else []))
  {
    hide Published;
    hide Flat;
    hide Kept;
    hide Plan;
    hide InOrder;
    if |t| <= 1 { NoWork(a, acknowledgements, t, r, next); }
    var sid, j, ok := WorkOf(a, acknowledgements, t, r, next);
    var work := Flat(j);
    assert t[p] == work[p - 1];
    WrittenInJournal(sid, a, acknowledgements, j, ok, p - 1);
    assert t[1..|work| + 1] == work;
    InOrderInWhole(t, work, p - 1, Signs(WritingPlan(a)));
    WritingSigns(a);
    hide WritingPlan;
    hide Signs;
  }

  lemma {:induction false} ClickInJournal(sid: string, a: Article, acknowledgements: nat, j: Journal, ok: bool, p: nat)
    requires a.body.Ok? && Kept(sid, Plan(a, acknowledgements), j, ok) && p < |Flat(j)| && IsCommit(Flat(j)[p])
    ensures ClicksOn(Flat(j), p, Panel) || ClicksOn(Flat(j), p, Confirm)
    ensures ClicksOn(Flat(j), p, Confirm) ==> InOrder(Flat(j), p, [Clicked(Panel)])
  {
    hide Flat;
    hide Ran;
    hide IsCommit;
    hide ClicksOn;
    hide Plan;
    hide InOrder;
    var plan, at := Plan(a, acknowledgements), |WritingPlan(a)| + 1;
    PlanClicks(a, acknowledgements);
    hide WritingPlan;
    var k := ClickPlace(sid, plan, at, j, ok, p);
    EntryAt(j, k);
    assert j[k].step == plan[k];
    var t := j[k].trace;
    assert Flat(j)[p] == t[|t| - 1];
    VideoContent.PressTrace(sid, plan[k].field, t, j[k].ok);
    VideoContent.ClicksOnInWhole(Flat(j), Offset(j, k), t, |t| - 1, plan[k].field);
    if k == at + 1 {
      assert Signs(plan[at..k]) == [Clicked(Panel)];
      PartShows(sid, plan, j, ok, at, k);
      LaterToo(Flat(j), Offset(j, k), p, [Clicked(Panel)]);
    } else {
      OneField(Flat(j), p);
    }
  }

  lemma OneField(t: Trace, p: nat)
    requires ClicksOn(t, p, Panel)
    ensures !ClicksOn(t, p, Confirm)
  {
  }

  /** A click is on the panel's button, or on the confirmation once the panel's had succeeded. */
  lemma ClicksAre(a: Article, acknowledgements: nat, t: Trace, r: Outcome, next: nat, p: nat)
    requires Published(a, acknowledgements, t, r, next) && p < |t| && IsCommit(t[p])
    ensures ClicksOn(t, p, Panel) || ClicksOn(t, p, Confirm)
    ensures ClicksOn(t, p, Confirm) ==> InOrder(t, p, [Clicked(Panel)])
  {
    hide Published;
    hide Flat;
    hide Kept;
    hide Plan;
    hide InOrder;
    hide ClicksOn;
    if |t| <= 1 { NoWork(a, acknowledgements, t, r, next); }
    var sid, j, ok := WorkOf(a, acknowledgements, t, r, next);
    var work := Flat(j);
    assert t[p] == work[p - 1];
    ClickInJournal(sid, a, acknowledgements, j, ok, p - 1);
    assert t[1..1 + |work|] == work;
    if ClicksOn(work, p - 1, Confirm) {
      VideoContent.ClicksOnInWhole(t, 1, work, p - 1, Confirm);
      assert t[1..|work| + 1] == work;
      InOrderInWhole(t, work, p - 1, [Clicked(Panel)]);
    } else {
      VideoContent.ClicksOnInWhole(t, 1, work, p - 1, Panel);
      OneField(t, p);
    }
  }
}
