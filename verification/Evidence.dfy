/**
 What a step that succeeded has left in the trace. A workflow's content laws are stated
 on these signs, request by request, and not on the plan the workflow follows.
 */
module Evidence {
  import opened Platforms
  import opened Wrappers
  import opened WebDriver
  import opened VideoLaws

  datatype Sign =
    | Went(page: Page)
    | Typed(field: Field, text: string)
    | Clicked(field: Field)
    | Written(text: string)
    | Told(script: Script, args: seq<string>)
    | Said(script: Script, args: seq<string>, words: set<string>)
    | Permission
    | SourceMarked(text: string)
    | CoverClear
    | Declared
    | Other

  /** The element a request uses is the one the exchange before it found for this field. */
  predicate Found(t: Trace, q: nat, f: Field, element: string) {
    0 < q < |t| && t[q - 1].request.Find? && t[q - 1].request.field == f && ElementOf(t[q - 1].reply) == Some(element)
  }

  /** A click on the element just found for a field. */
  predicate ClicksOn(t: Trace, q: nat, f: Field) {
    q < |t| && t[q].request.Click? && Found(t, q, f, t[q].request.element)
  }

  /** Text typed into the element just found for a field. */
  predicate TypesInto(t: Trace, q: nat, f: Field, text: string) {
    q < |t| && t[q].request.Type? && t[q].request.text == text && Found(t, q, f, t[q].request.element)
  }

  /** The body written into the element just found for the content. */
  predicate Writes(t: Trace, q: nat, text: string) {
    && q < |t| && t[q].request.Run? && t[q].request.script == CodeMirrorWrite
    && |t[q].request.args| == 2 && t[q].request.args[1] == text && Found(t, q, Content, t[q].request.args[0])
  }

  predicate SaysTrue(x: Exchange, s: Script, args: seq<string>) {
    x.request == Run(s, args) && TruthOf(x.reply) == Some(true)
  }

  predicate SaysFalse(x: Exchange, s: Script) {
    Asks(x, s) && TruthOf(x.reply) == Some(false)
  }

  /** The optional declaration ends well when it was not offered, no dialog came up or followed, or its dialog went away. */
  predicate EndsDeclaration(x: Exchange) {
    SaysFalse(x, OriginalEntry) || SaysFalse(x, OriginalAnyDialog) || SaysFalse(x, DeclarationDialog) || SaysTrue(x, DeclarationGone, [])
  }

  /** The exchange at `q` is the sign that something has been done. */
  predicate Shows(t: Trace, q: nat, sign: Sign) {
    && q < |t|
    && var x := t[q];
       match sign
       case Went(page) => x.request == GoTo(page) && x.reply.Value?
       case Typed(f, text) => TypesInto(t, q, f, text) && x.reply.Value?
       case Clicked(f) => ClicksOn(t, q, f) && x.reply.Value?
       case Written(text) => Writes(t, q, text) && TruthOf(x.reply) == Some(true)
       case Told(s, args) => SaysTrue(x, s, args)
       case Said(s, args, words) => x.request == Run(s, args) && Says(x.reply, words)
       case Permission =>
         || (Asks(x, PermissionState) && Says(x.reply, {"selected"}))
         || (Asks(x, PermissionAction) && Says(x.reply, {"selected", "clicked"}))
       case SourceMarked(text) =>
         SaysTrue(x, StatementApplied(Toutiao), [text])
         || (x.request == Run(StatementSelect(Toutiao), [text]) && Says(x.reply, {"selected"}))
       case CoverClear => Asks(x, PkCoverState) && Says(x.reply, {"absent", "unchecked"})
       case Declared => EndsDeclaration(x)
       case Other => true
  }

  /** Signs of all these things, in this order, before `p`. */
  ghost predicate InOrder(t: Trace, p: nat, signs: seq<Sign>) {
    exists places: seq<nat> :: Places(t, p, signs, places)
  }

  predicate Places(t: Trace, p: nat, signs: seq<Sign>, places: seq<nat>) {
    && |places| == |signs|
    && (forall i :: 0 <= i < |signs| ==> places[i] < p && Shows(t, places[i], signs[i]))
    && forall i, k :: 0 <= i < k < |signs| ==> places[i] < places[k]
  }

  /** Leaving signs out keeps the others in order. */
  lemma Drop(t: Trace, p: nat, a: seq<Sign>, b: seq<Sign>, c: seq<Sign>)
    requires InOrder(t, p, a + b + c)
    ensures InOrder(t, p, a + c) && InOrder(t, p, b)
  {
    hide Shows;
    var places :| Places(t, p, a + b + c, places);
    var m, n := |a|, |a| + |b|;
    assert Places(t, p, a + c, places[..m] + places[n..]) by {
      var less := places[..m] + places[n..];
      forall i | 0 <= i < |a + c| ensures less[i] < p && Shows(t, less[i], (a + c)[i]) {
        var k := if i < m then i else i + |b|;
        assert less[i] == places[k] && (a + c)[i] == (a + b + c)[k];
      }
      forall i, k | 0 <= i < k < |a + c| ensures less[i] < less[k] {
        assert less[i] == places[if i < m then i else i + |b|] && less[k] == places[if k < m then k else k + |b|];
      }
    }
    assert Places(t, p, b, places[m..n]) by {
      forall i | 0 <= i < |b| ensures places[m..n][i] < p && Shows(t, places[m..n][i], b[i]) {
        assert b[i] == (a + b + c)[m + i] && places[m..n][i] == places[m + i];
      }
    }
  }

  // ------------------------------------------------------------------- steps

  function SignOf(step: Step): Sign {
    match step
    case Open(page) => Went(page)
    case Enter(f, text) => Typed(f, text)
    case Press(f) => Clicked(f)
    case WriteBody(text) => Written(text)
    case Await(s, args, Truth, _) => Told(s, args)
    case Await(s, args, Words(done, _), _) => Said(s, args, done)
    case SavePermission => Permission
    case ToutiaoStatement(text) => SourceMarked(text)
    case PkCover => CoverClear
    case Original => Declared
    case _ => Other
  }

  function Signs(plan: seq<Step>): (signs: seq<Sign>)
    ensures |signs| == |plan| && forall i :: 0 <= i < |plan| ==> signs[i] == SignOf(plan[i])
  {
    seq(|plan|, i requires 0 <= i < |plan| => SignOf(plan[i]))
  }

  lemma SignsAppend(a: seq<Step>, b: seq<Step>)
    ensures Signs(a + b) == Signs(a) + Signs(b)
  {
  }

  /** The answers a declaration that ends well ends with. */
  lemma {:induction false} DeclaringEnds(s: Stage, t: Trace, ok: bool)
    requires Declaring(s, t, ok)
    ensures t != [] && (ok ==> EndsDeclaration(t[|t| - 1]))
    ensures !ok ==>
      var last := t[|t| - 1];
      !SaysFalse(last, OriginalEntry) && !SaysFalse(last, OriginalAnyDialog) && !SaysTrue(last, DeclarationGone, [])
    decreases |t|
  {
    var n :| 0 < n <= |t| && DeclaringPart(s, t, n, ok);
    var next := After(s, TruthOf(t[n - 1].reply));
    assert t[..n][n - 1] == t[n - 1];
    if next.On? { DeclaringEnds(next.stage, t[n..], ok); }
  }

  /** A dialog is only confirmed after it was reported to be up. */
  ghost predicate ConsentsToSeen(t: Trace, confirm: Script, dialog: Script) {
    forall i :: 0 <= i < |t| && Asks(t[i], confirm) ==> exists k :: 0 <= k < i && SaysTrue(t[k], dialog, [])
  }

  lemma SeenThrough(t: Trace, n: nat, confirm: Script, dialog: Script)
    requires n <= |t| && forall i :: 0 <= i < n ==> !Asks(t[i], confirm)
    requires ConsentsToSeen(t[n..], confirm, dialog) || exists k :: 0 <= k < n && SaysTrue(t[k], dialog, [])
    ensures ConsentsToSeen(t, confirm, dialog)
  {
    hide SaysTrue;
    forall i | 0 <= i < |t| && Asks(t[i], confirm) ensures exists k :: 0 <= k < i && SaysTrue(t[k], dialog, []) {
      if !exists k :: 0 <= k < n && SaysTrue(t[k], dialog, []) {
        assert t[i] == t[n..][i - n];
        var k :| 0 <= k < i - n && SaysTrue(t[n..][k], dialog, []);
        assert t[n + k] == t[n..][k];
      }
    }
  }

  /** The declaration confirms neither the protocol nor itself unseen. */
  lemma {:induction false} DeclaringConsents(s: Stage, t: Trace, ok: bool)
    requires Declaring(s, t, ok)
    ensures s.Offered? || s.AnyDialog? || s.Protocol? ==> ConsentsToSeen(t, ProtocolConfirm, ProtocolDialog)
    ensures !s.AcceptDeclaration? ==> ConsentsToSeen(t, OriginalConfirm, DeclarationDialog)
    ensures !(s.Offered? || s.AnyDialog? || s.Protocol? || s.AcceptProtocol?) ==>
      forall i :: 0 <= i < |t| ==> !Asks(t[i], ProtocolConfirm)
    decreases |t|
  {
    var n :| 0 < n <= |t| && DeclaringPart(s, t, n, ok);
    var next := After(s, TruthOf(t[n - 1].reply));
    PartAsks(s, t, n, ok);
    if next.On? {
      DeclaringConsents(next.stage, t[n..], ok);
      assert forall i :: n <= i < |t| ==> t[i] == t[n..][i - n];
    } else {
      assert t[n..] == [];
    }
    hide Declaring;
    hide DeclaringPart;
    if s.Offered? || s.AnyDialog? || s.Protocol? { SeenThrough(t, n, ProtocolConfirm, ProtocolDialog); }
    if !s.AcceptDeclaration? { SeenThrough(t, n, OriginalConfirm, DeclarationDialog); }
  }

  lemma PartAsks(s: Stage, t: Trace, n: nat, ok: bool)
    requires 0 < n <= |t| && DeclaringPart(s, t, n, ok)
    ensures forall i :: 0 <= i < n ==> Asks(t[i], StageScript(s))
    ensures TruthOf(t[n - 1].reply) == Some(true) ==> SaysTrue(t[n - 1], StageScript(s), [])
  {
    assert forall i :: 0 <= i < n ==> t[i] == t[..n][i];
  }

  lemma UsesFound(t: Trace, f: Field, use: string -> Request)
    requires SearchedThen(t, f, use) && t != [] && !t[|t| - 1].request.Find?
    ensures |t| >= 2 && ElementOf(t[|t| - 2].reply).Some?
    ensures Found(t, |t| - 1, f, ElementOf(t[|t| - 2].reply).value)
    ensures t[|t| - 1].request == use(ElementOf(t[|t| - 2].reply).value)
  {
    var search := t[..|t| - 1];
    assert search[|search| - 1] == t[|t| - 2];
  }

  lemma BranchShows(sid: string, step: Step, t: Trace)
    requires Ran(sid, step, t, true)
    requires step.SavePermission? || step.ToutiaoStatement? || step.PkCover? || step.Original?
    ensures t != [] && Shows(t, |t| - 1, SignOf(step))
  {
    if step.SavePermission? {
      var looks :| t == Join(looks) && PermittedBy(looks, true);
      var last := looks[|looks| - 1];
      assert t == Join(looks[..|looks| - 1]) + last && t[|t| - 1] == last[|last| - 1];
    } else if step.Original? {
      DeclaringEnds(Offered, t, true);
    } else if |t| > 2 {
      assert t[|t| - 1] == t[2..][|t[2..]| - 1];
    }
  }

  /** A step that succeeded ends with its sign. */
  lemma StepShows(sid: string, step: Step, t: Trace)
    requires Ran(sid, step, t, true)
    ensures SignOf(step) != Other ==> t != [] && Shows(t, |t| - 1, SignOf(step))
  {
    if step.Enter? {
      UsesFound(t, step.field, (e: string) => Type(e, step.text));
    } else if step.Press? {
      UsesFound(t, step.field, (e: string) => Click(e));
    } else if step.WriteBody? {
      UsesFound(t, Content, (e: string) => Run(CodeMirrorWrite, [e, step.text]));
    } else if step.SavePermission? || step.ToutiaoStatement? || step.PkCover? || step.Original? {
      BranchShows(sid, step, t);
    }
  }

  // ---------------------------------------------------------------- journals

  /** A sign seen in one step's trace is seen in the whole. */
  lemma ShowsInWhole(whole: Trace, from: nat, t: Trace, q: nat, sign: Sign)
    requires from + |t| <= |whole| && whole[from..from + |t|] == t && Shows(t, q, sign)
    ensures Shows(whole, from + q, sign)
  {
    assert whole[from + q] == t[q];
    if q > 0 { assert whole[from + q - 1] == t[q - 1]; }
  }

  /** Entry `m` of a journal that got further ends with its sign. */
  lemma {:induction false} EntryShows(sid: string, plan: seq<Step>, j: Journal, ok: bool, m: nat)
    requires Kept(sid, plan, j, ok) && m < |j| && (ok || m < |j| - 1) && SignOf(plan[m]) != Other
    ensures j[m].trace != [] && Offset(j, m + 1) == Offset(j, m) + |j[m].trace| <= |Flat(j)|
    ensures Shows(Flat(j), Offset(j, m + 1) - 1, SignOf(plan[m]))
  {
    hide Flat;
    hide SignOf;
    hide Shows;
    StepRan(sid, plan, j, ok, m);
    StepShows(sid, plan[m], j[m].trace);
    hide Ran;
    EntryAt(j, m);
    ShowsInWhole(Flat(j), Offset(j, m), j[m].trace, |j[m].trace| - 1, SignOf(plan[m]));
  }

  lemma OneMoreSign(t: Trace, p: nat, signs: seq<Sign>, q: nat, sign: Sign)
    requires InOrder(t, p, signs) && p <= q && Shows(t, q, sign)
    ensures InOrder(t, q + 1, signs + [sign])
  {
    hide Shows;
    var places :| Places(t, p, signs, places);
    assert Places(t, q + 1, signs + [sign], places + [q]);
  }

  /** Before step `k` runs, the signs of the steps from `m` on are there, in order. */
  lemma {:induction false} PartShows(sid: string, plan: seq<Step>, j: Journal, ok: bool, m: nat, k: nat)
    requires Kept(sid, plan, j, ok) && m <= k < |j|
    requires forall i :: m <= i < k ==> SignOf(plan[i]) != Other
    ensures InOrder(Flat(j), Offset(j, k), Signs(plan[m..k]))
    decreases k
  {
    hide Flat;
    hide Shows;
    hide SignOf;
    hide Ran;
    if m == k {
      assert Places(Flat(j), Offset(j, k), [], []);
    } else {
      PartShows(sid, plan, j, ok, m, k - 1);
      EntryShows(sid, plan, j, ok, k - 1);
      OneMoreSign(Flat(j), Offset(j, k - 1), Signs(plan[m..k - 1]), Offset(j, k) - 1, SignOf(plan[k - 1]));
      assert Signs(plan[m..k]) == Signs(plan[m..k - 1]) + [SignOf(plan[k - 1])];
    }
  }

  /** What lies in the midst of a publication lies in it one place on. */
  lemma InOrderInWhole(t: Trace, work: Trace, p: nat, signs: seq<Sign>)
    requires |work| + 1 <= |t| && t[1..|work| + 1] == work && InOrder(work, p, signs)
    ensures InOrder(t, p + 1, signs)
  {
    hide Shows;
    var places :| Places(work, p, signs, places);
    var moved := seq(|places|, i requires 0 <= i < |places| => places[i] + 1);
    forall i | 0 <= i < |signs| ensures moved[i] < p + 1 && Shows(t, moved[i], signs[i]) {
      assert places[i] < |work| by { ShownIsThere(work, places[i], signs[i]); }
      ShowsInWhole(t, 1, work, places[i], signs[i]);
    }
    assert Places(t, p + 1, signs, moved);
  }

  lemma ShownIsThere(t: Trace, q: nat, sign: Sign)
    requires Shows(t, q, sign)
    ensures q < |t|
  {
  }

  lemma LaterToo(t: Trace, p: nat, p': nat, signs: seq<Sign>)
    requires InOrder(t, p, signs) && p <= p'
    ensures InOrder(t, p', signs)
  {
    hide Shows;
    var places :| Places(t, p, signs, places);
    assert Places(t, p', signs, places);
  }
}
