/**
 Normalisation of the upstream publication request: options and statements from
 several places are merged into one override per platform.
 */
module Upstream {
  import opened Platforms
  import opened Wrappers

  datatype Account = Account(phone: Option<string>, partition: Option<string>)

  datatype WechatLink = WechatLink(kind: Option<string>, value: Option<string>)

  /** One platform option as it comes in. */
  datatype Item = Item(
    name: string,
    phone: Option<string>,
    partition: Option<string>,
    title: Option<string>,
    shortTitle: Option<string>,
    tags: Option<seq<string>>,
    statement: Option<string>,
    link: Option<WechatLink>)

  datatype Targets = Name(name: string) | Names(names: seq<string>) | Target(item: Item) | Targets(items: seq<Item>)

  /** Options by platform name, in key order, or as a plain list. */
  datatype Options = Keyed(entries: seq<(string, Item)>) | Listed(items: seq<Item>)

  datatype Dto = Dto(
    platform: Option<Targets>,
    platforms: Option<Targets>,
    options: Option<Options>,
    statements: seq<(string, string)>,
    statement: Option<string>,
    phone: Option<string>,
    partition: Option<string>)

  datatype Override = Override(
    platform: Platform,
    title: Option<string>,
    shortTitle: Option<string>,
    tags: Option<seq<string>>,
    statement: Option<string>,
    account: Option<Account>,
    link: Option<WechatLink>)

  datatype Error = UnknownPlatform | MissingTargets | DuplicateTargets | DuplicateOverrides | OverrideOutsideTargets

  /** How platform names and their aliases are read. */
  type Parser = string -> Option<Platform>

  function Named(name: string): Item { Item(name, None, None, None, None, None, None, None) }

  function OfTargets(t: Option<Targets>): seq<Item> {
    match t
    case None => []
    case Some(Name(name)) => [Named(name)]
    case Some(Names(names)) => seq(|names|, i requires 0 <= i < |names| => Named(names[i]))
    case Some(Target(item)) => [item]
    case Some(Targets(items)) => items
  }

  /** An option listed under a key takes the key as its platform unless it names one itself. */
  function OfOptions(o: Option<Options>): seq<Item> {
    match o
    case None => []
    case Some(Listed(items)) => items
    case Some(Keyed(entries)) =>
      seq(|entries|, i requires 0 <= i < |entries| =>
        if entries[i].1.name == "" then entries[i].1.(name := entries[i].0) else entries[i].1)
  }

  /** All options in order of precedence, weakest first. */
  function Items(dto: Dto): seq<Item> {
    OfTargets(dto.platform) + OfTargets(dto.platforms) + OfOptions(dto.options)
  }

  function OrElse<T>(a: Option<T>, b: Option<T>): Option<T> { if a.Some? then a else b }

  function FromItem(dto: Dto, p: Platform, item: Item): Override {
    Override(p, item.title, item.shortTitle, item.tags, item.statement,
             Some(Account(OrElse(item.phone, dto.phone), OrElse(item.partition, dto.partition))), item.link)
  }

  function Bare(p: Platform, statement: Option<string>): Override {
    Override(p, None, None, None, statement, None, None)
  }

  // ---------------------------------------------------- reference definition

  function TitleOf(o: Override): Option<string> { o.title }
  function ShortTitleOf(o: Override): Option<string> { o.shortTitle }
  function TagsOf(o: Override): Option<seq<string>> { o.tags }
  function StatementOf(o: Override): Option<string> { o.statement }
  function AccountOf(o: Override): Option<Account> { o.account }
  function LinkOf(o: Override): Option<WechatLink> { o.link }

  /** The last value present among the overrides of `p` from index `from` on. */
  function LastFrom<T>(all: seq<Override>, p: Platform, field: Override -> Option<T>, from: nat): Option<T> {
    if |all| <= from then None
    else
      var last := all[|all| - 1];
      if last.platform == p && field(last).Some? then field(last) else LastFrom(all[..|all| - 1], p, field, from)
  }

  /** The first override of `p`, or the length if there is none. */
  function FirstAt(all: seq<Override>, p: Platform): (i: nat)
    ensures i <= |all| && (i < |all| ==> all[i].platform == p)
    ensures forall j :: 0 <= j < i ==> all[j].platform != p
  {
    if all == [] then 0
    else if all[0].platform == p then 0
    else
      var i := FirstAt(all[1..], p);
      assert forall j :: 1 <= j < |all| ==> all[j] == all[1..][j - 1];
      1 + i
  }

  /** The last per-platform statement for `p`. */
  function EntryFor(parse: Parser, statements: seq<(string, string)>, p: Platform): Option<string> {
    if statements == [] then None
    else
      var last := statements[|statements| - 1];
      if parse(last.0) == Some(p) then Some(last.1) else EntryFor(parse, statements[..|statements| - 1], p)
  }

  /**
   Which statement a platform gets: one from an option after its first wins, then the
   per-platform statements, then its first option, then the common default.
   */
  function StatementLaw(parse: Parser, dto: Dto, base: seq<Override>, p: Platform): Option<string> {
    var first := FirstAt(base, p);
    OrElse(LastFrom(base, p, StatementOf, first + 1),
    OrElse(EntryFor(parse, dto.statements, p),
    OrElse(if first < |base| then base[first].statement else None, dto.statement)))
  }

  predicate Mentioned(parse: Parser, dto: Dto, base: seq<Override>, p: Platform) {
    FirstAt(base, p) < |base| || EntryFor(parse, dto.statements, p).Some?
  }

  /** The override the law gives platform `p`. */
  function LawFor(parse: Parser, dto: Dto, base: seq<Override>, p: Platform): Override {
    Override(p,
             LastFrom(base, p, TitleOf, 0),
             LastFrom(base, p, ShortTitleOf, 0),
             LastFrom(base, p, TagsOf, 0),
             StatementLaw(parse, dto, base, p),
             LastFrom(base, p, AccountOf, 0),
             LastFrom(base, p, LinkOf, 0))
  }

  ghost predicate AllNamesParse(parse: Parser, dto: Dto) {
    && (forall i :: 0 <= i < |Items(dto)| ==> parse(Items(dto)[i].name).Some?)
    && (forall i :: 0 <= i < |dto.statements| ==> parse(dto.statements[i].0).Some?)
  }

  /** The options turned into overrides one by one. */
  ghost function Base(parse: Parser, dto: Dto): (base: seq<Override>)
    requires AllNamesParse(parse, dto)
    ensures |base| == |Items(dto)|
  {
    seq(|Items(dto)|, i requires 0 <= i < |Items(dto)| => FromItem(dto, parse(Items(dto)[i].name).value, Items(dto)[i]))
  }

  ghost predicate StrictlySorted(all: seq<Override>) {
    forall i, j :: 0 <= i < j < |all| ==> Rank(all[i].platform) < Rank(all[j].platform)
  }

  // -------------------------------------------------- per-platform statements

  /** The options' overrides, each platform's first one patched. */
  ghost predicate FrontPatched(parse: Parser, base: seq<Override>, merged: seq<Override>, entries: seq<(string, string)>)
    requires |base| <= |merged|
  {
    forall j :: 0 <= j < |base| ==>
      var entry := EntryFor(parse, entries, base[j].platform);
      merged[j] == if FirstAt(base, base[j].platform) == j && entry.Some? then base[j].(statement := entry) else base[j]
  }

  /** One bare override for each platform that has a statement but no options. */
  ghost predicate BackAppended(parse: Parser, base: seq<Override>, merged: seq<Override>, entries: seq<(string, string)>) {
    && (forall j :: |base| <= j < |merged| ==>
          var p := merged[j].platform;
          merged[j] == Bare(p, EntryFor(parse, entries, p)) && merged[j].statement.Some? && FirstAt(base, p) == |base|)
    && (forall i, j :: |base| <= i < j < |merged| ==> merged[i].platform != merged[j].platform)
    && (forall p :: EntryFor(parse, entries, p).Some? && FirstAt(base, p) == |base| ==> FirstAt(merged, p) < |merged|)
  }

  /** `merged` is `base` after the statements in `entries`. */
  ghost predicate Patched(parse: Parser, base: seq<Override>, merged: seq<Override>, entries: seq<(string, string)>) {
    |base| <= |merged| && FrontPatched(parse, base, merged, entries) && BackAppended(parse, base, merged, entries)
  }

  lemma FirstUnique(all: seq<Override>, p: Platform, i: nat)
    requires i < |all| && all[i].platform == p && forall j :: 0 <= j < i ==> all[j].platform != p
    ensures FirstAt(all, p) == i
  {
    var k := FirstAt(all, p);
    assert !(k < i) && !(k > i);
  }

  lemma PatchedFirst(parse: Parser, base: seq<Override>, merged: seq<Override>, entries: seq<(string, string)>, p: Platform)
    requires Patched(parse, base, merged, entries)
    ensures FirstAt(base, p) < |base| ==> FirstAt(merged, p) == FirstAt(base, p)
    ensures FirstAt(base, p) == |base| ==> FirstAt(merged, p) >= |base|
  {
    var first := FirstAt(base, p);
    assert forall j :: 0 <= j < |base| ==> merged[j].platform == base[j].platform;
    if first < |base| { FirstUnique(merged, p, first); }
  }

  lemma EntryAppend(parse: Parser, entries: seq<(string, string)>, e: (string, string), p: Platform)
    ensures EntryFor(parse, entries + [e], p) == if parse(e.0) == Some(p) then Some(e.1) else EntryFor(parse, entries, p)
  {
    assert (entries + [e])[..|entries|] == entries;
  }

  /** One more per-platform statement keeps the shape. */
  lemma {:induction false} PatchFirst(parse: Parser, base: seq<Override>, merged: seq<Override>, entries: seq<(string, string)>,
                                      e: (string, string), p: Platform, i: nat)
    requires Patched(parse, base, merged, entries) && parse(e.0) == Some(p)
    requires i == FirstAt(merged, p) < |merged|
    ensures Patched(parse, base, merged[i := merged[i].(statement := Some(e.1))], entries + [e])
  {
    var merged' := merged[i := merged[i].(statement := Some(e.1))];
    forall q
      ensures EntryFor(parse, entries + [e], q) == if q == p then Some(e.1) else EntryFor(parse, entries, q)
      ensures FirstAt(merged', q) == FirstAt(merged, q)
    {
      EntryAppend(parse, entries, e, q);
      SamePlaces(merged, merged', q);
    }
    PatchedFirst(parse, base, merged, entries, p);
    hide EntryFor;
    hide FirstAt;
    hide FrontPatched;
    hide BackAppended;
    PatchFirstFront(parse, base, merged, merged', entries, e, p, i);
    PatchFirstBack(parse, base, merged, merged', entries, e, p, i);
  }

  lemma {:induction false} PatchFirstFront(parse: Parser, base: seq<Override>, merged: seq<Override>, merged': seq<Override>,
                                           entries: seq<(string, string)>, e: (string, string), p: Platform, i: nat)
    requires |base| <= |merged| && FrontPatched(parse, base, merged, entries)
    requires i == FirstAt(merged, p) < |merged| && merged' == merged[i := merged[i].(statement := Some(e.1))]
    requires forall q :: EntryFor(parse, entries + [e], q) == if q == p then Some(e.1) else EntryFor(parse, entries, q)
    requires FirstAt(base, p) < |base| ==> i == FirstAt(base, p)
    requires FirstAt(base, p) == |base| ==> i >= |base|
    ensures FrontPatched(parse, base, merged', entries + [e])
  {
    hide EntryFor;
  }

  lemma {:induction false} PatchFirstBack(parse: Parser, base: seq<Override>, merged: seq<Override>, merged': seq<Override>,
                                          entries: seq<(string, string)>, e: (string, string), p: Platform, i: nat)
    requires |base| <= |merged| && BackAppended(parse, base, merged, entries)
    requires i == FirstAt(merged, p) < |merged| && merged' == merged[i := merged[i].(statement := Some(e.1))]
    requires forall q :: EntryFor(parse, entries + [e], q) == if q == p then Some(e.1) else EntryFor(parse, entries, q)
    requires forall q :: FirstAt(merged', q) == FirstAt(merged, q)
    requires FirstAt(base, p) == |base| ==> i >= |base|
    requires FirstAt(base, p) < |base| ==> i == FirstAt(base, p)
    ensures BackAppended(parse, base, merged', entries + [e])
  {
    hide EntryFor;
    hide FirstAt;
  }

  lemma SamePlaces(a: seq<Override>, b: seq<Override>, p: Platform)
    requires |a| == |b| && forall j :: 0 <= j < |a| ==> a[j].platform == b[j].platform
    ensures FirstAt(a, p) == FirstAt(b, p)
  {
    if FirstAt(a, p) < |a| { FirstUnique(b, p, FirstAt(a, p)); }
  }

  lemma FirstAppend(all: seq<Override>, o: Override, p: Platform)
    ensures FirstAt(all + [o], p) == if FirstAt(all, p) < |all| || o.platform != p then
              (if FirstAt(all, p) < |all| then FirstAt(all, p) else |all| + 1) else |all|
  {
    var i := FirstAt(all, p);
    if i < |all| {
      FirstUnique(all + [o], p, i);
    } else if o.platform == p {
      FirstUnique(all + [o], p, |all|);
    } else {
      var k := FirstAt(all + [o], p);
      assert forall j :: 0 <= j <= |all| ==> (all + [o])[j].platform != p;
    }
  }

  lemma {:induction false} PatchNew(parse: Parser, base: seq<Override>, merged: seq<Override>, entries: seq<(string, string)>,
                                    e: (string, string), p: Platform)
    requires Patched(parse, base, merged, entries) && parse(e.0) == Some(p) && FirstAt(merged, p) == |merged|
    ensures Patched(parse, base, merged + [Bare(p, Some(e.1))], entries + [e])
  {
    var o := Bare(p, Some(e.1));
    forall q ensures EntryFor(parse, entries + [e], q) == if q == p then Some(e.1) else EntryFor(parse, entries, q) {
      EntryAppend(parse, entries, e, q);
    }
    hide EntryFor;
    PatchedFirst(parse, base, merged, entries, p);
    forall j | 0 <= j < |merged| ensures merged[j].platform != p { }
    forall j | 0 <= j < |base| ensures base[j].platform != p {
      assert merged[j].platform == base[j].platform;
    }
    forall q | EntryFor(parse, entries + [e], q).Some? && FirstAt(base, q) == |base|
      ensures FirstAt(merged + [o], q) < |merged + [o]|
    {
      FirstAppend(merged, o, q);
    }
  }

  // -------------------------------------------------------------- the merge

  /** Later present fields replace earlier ones. */
  function Merge(current: Override, next: Override): Override {
    Override(current.platform,
             OrElse(next.title, current.title), OrElse(next.shortTitle, current.shortTitle), OrElse(next.tags, current.tags),
             OrElse(next.statement, current.statement), OrElse(next.account, current.account), OrElse(next.link, current.link))
  }

  /** What merging a list leaves for one platform. */
  function Merged(all: seq<Override>, p: Platform): Override {
    Override(p,
             LastFrom(all, p, TitleOf, 0),
             LastFrom(all, p, ShortTitleOf, 0),
             LastFrom(all, p, TagsOf, 0),
             LastFrom(all, p, StatementOf, 0),
             LastFrom(all, p, AccountOf, 0),
             LastFrom(all, p, LinkOf, 0))
  }

  lemma MergedAppend(all: seq<Override>, o: Override, p: Platform)
    ensures Merged(all + [o], p) == if o.platform == p then Merge(Merged(all, p), o) else Merged(all, p)
  {
    assert (all + [o])[..|all|] == all;
  }

  lemma {:induction false} NothingMerged<T>(all: seq<Override>, p: Platform, field: Override -> Option<T>)
    requires forall j :: 0 <= j < |all| ==> all[j].platform != p
    ensures LastFrom(all, p, field, 0) == None
  {
    if all != [] { NothingMerged(all[..|all| - 1], p, field); }
  }

  /** What the statements may have done to one entry. */
  lemma PatchedAt(parse: Parser, base: seq<Override>, merged: seq<Override>, entries: seq<(string, string)>, j: nat)
    requires Patched(parse, base, merged, entries) && j < |merged|
    ensures j < |base| ==>
      && merged[j] == base[j].(statement := merged[j].statement)
      && (FirstAt(base, base[j].platform) != j ==> merged[j] == base[j])
    ensures j >= |base| ==>
      && merged[j] == Bare(merged[j].platform, merged[j].statement) && FirstAt(base, merged[j].platform) == |base|
  {
    hide FirstAt;
    hide EntryFor;
  }

  /** Fields the per-platform statements do not touch keep their last present value. */
  lemma {:induction false} PatchKeepsField<T>(parse: Parser, base: seq<Override>, merged: seq<Override>, entries: seq<(string, string)>,
                                              p: Platform, field: Override -> Option<T>, m: nat)
    requires Patched(parse, base, merged, entries) && m <= |merged|
    requires forall o: Override, s :: field(o.(statement := s)) == field(o)
    requires forall q, s :: field(Bare(q, s)) == None
    ensures LastFrom(merged[..m], p, field, 0) == LastFrom(base[..if m < |base| then m else |base|], p, field, 0)
    decreases m
  {
    hide Patched;
    if m > 0 {
      PatchKeepsField(parse, base, merged, entries, p, field, m - 1);
      PatchedAt(parse, base, merged, entries, m - 1);
      assert merged[..m][..m - 1] == merged[..m - 1];
      if m <= |base| {
        assert base[..m][..m - 1] == base[..m - 1];
        assert field(base[m - 1].(statement := merged[m - 1].statement)) == field(base[m - 1]);
      } else {
        assert field(Bare(merged[m - 1].platform, merged[m - 1].statement)) == None;
      }
    }
  }

  /** Among the options, what the statement law says before its default. */
  function Unsettled(parse: Parser, entries: seq<(string, string)>, base: seq<Override>, p: Platform): Option<string> {
    var first := FirstAt(base, p);
    OrElse(LastFrom(base, p, StatementOf, first + 1),
    OrElse(EntryFor(parse, entries, p), if first < |base| then base[first].statement else None))
  }

  lemma {:induction false} NothingFrom<T>(all: seq<Override>, p: Platform, field: Override -> Option<T>, from: nat, m: nat)
    requires m <= |all| && forall j :: from <= j < m ==> all[j].platform != p
    ensures LastFrom(all[..m], p, field, from) == None
    decreases m
  {
    if m > from {
      NothingFrom(all, p, field, from, m - 1);
      assert all[..m][..m - 1] == all[..m - 1];
    }
  }

  lemma {:induction false} LastFromSplit<T>(all: seq<Override>, p: Platform, field: Override -> Option<T>, from: nat, m: nat)
    requires from < m <= |all| && FirstAt(all, p) == from
    ensures LastFrom(all[..m], p, field, 0) == OrElse(LastFrom(all[..m], p, field, from + 1), field(all[from]))
    decreases m
  {
    assert all[..m][..m - 1] == all[..m - 1];
    if m == from + 1 {
      NothingFrom(all, p, field, 0, from);
    } else {
      LastFromSplit(all, p, field, from, m - 1);
    }
  }

  /** Behind the first override of a platform the statements change nothing. */
  lemma {:induction false} LaterUntouched(parse: Parser, base: seq<Override>, merged: seq<Override>, entries: seq<(string, string)>,
                                          p: Platform, m: nat)
    requires Patched(parse, base, merged, entries) && FirstAt(base, p) < |base| && m <= |merged|
    ensures LastFrom(merged[..m], p, StatementOf, FirstAt(base, p) + 1)
         == LastFrom(base[..if m < |base| then m else |base|], p, StatementOf, FirstAt(base, p) + 1)
    decreases m
  {
    hide Patched;
    hide FirstAt;
    if m > FirstAt(base, p) + 1 {
      LaterUntouched(parse, base, merged, entries, p, m - 1);
      PatchedAt(parse, base, merged, entries, m - 1);
      assert merged[..m][..m - 1] == merged[..m - 1];
      if m <= |base| {
        assert base[..m][..m - 1] == base[..m - 1];
      }
    }
  }

  lemma PatchedStatement(parse: Parser, base: seq<Override>, merged: seq<Override>, entries: seq<(string, string)>, p: Platform)
    requires Patched(parse, base, merged, entries)
    ensures LastFrom(merged, p, StatementOf, 0) == Unsettled(parse, entries, base, p)
  {
    if FirstAt(base, p) < |base| {
      OptionStatement(parse, base, merged, entries, p);
    } else {
      EntryStatement(parse, base, merged, entries, p);
    }
  }

  lemma OptionStatement(parse: Parser, base: seq<Override>, merged: seq<Override>, entries: seq<(string, string)>, p: Platform)
    requires Patched(parse, base, merged, entries) && FirstAt(base, p) < |base|
    ensures LastFrom(merged, p, StatementOf, 0) == Unsettled(parse, entries, base, p)
  {
    var first := FirstAt(base, p);
    PatchedFirst(parse, base, merged, entries, p);
    assert merged[..|merged|] == merged && base[..|base|] == base;
    var entry := EntryFor(parse, entries, p);
    assert merged[first] == if entry.Some? then base[first].(statement := entry) else base[first];
    LaterUntouched(parse, base, merged, entries, p, |merged|);
    hide Patched;
    hide LastFrom;
    hide EntryFor;
    hide FirstAt;
    LastFromSplit(merged, p, StatementOf, first, |merged|);
  }

  lemma EntryStatement(parse: Parser, base: seq<Override>, merged: seq<Override>, entries: seq<(string, string)>, p: Platform)
    requires Patched(parse, base, merged, entries) && FirstAt(base, p) == |base|
    ensures LastFrom(merged, p, StatementOf, 0) == EntryFor(parse, entries, p) == Unsettled(parse, entries, base, p)
  {
    hide LastFrom;
    hide EntryFor;
    hide FirstAt;
    hide Patched;
    PatchedFirst(parse, base, merged, entries, p);
    OnlyAppended(parse, base, merged, entries, p);
    assert merged[..|merged|] == merged;
    var k := FirstAt(merged, p);
    if k < |merged| {
      LastFromSplit(merged, p, StatementOf, k, |merged|);
      NothingFrom(merged, p, StatementOf, k + 1, |merged|);
    } else {
      NothingMerged(merged, p, StatementOf);
    }
    NothingBehind(base, p, StatementOf);
  }

  /** A platform without options has the one entry appended for it, or none. */
  lemma OnlyAppended(parse: Parser, base: seq<Override>, merged: seq<Override>, entries: seq<(string, string)>, p: Platform)
    requires Patched(parse, base, merged, entries) && FirstAt(base, p) == |base| <= FirstAt(merged, p)
    ensures var k := FirstAt(merged, p);
      && (k < |merged| ==> merged[k].statement == EntryFor(parse, entries, p))
      && (k == |merged| ==> EntryFor(parse, entries, p).None?)
      && forall j :: k < j < |merged| ==> merged[j].platform != p
  {
    hide EntryFor;
  }

  lemma NothingBehind<T>(all: seq<Override>, p: Platform, field: Override -> Option<T>)
    ensures LastFrom(all, p, field, |all| + 1) == None
  {
  }

  /** Merging the patched list gives every platform what the laws say, but for the default statement. */
  lemma MergedIsLaw(parse: Parser, dto: Dto, base: seq<Override>, merged: seq<Override>, p: Platform)
    requires Patched(parse, base, merged, dto.statements)
    ensures var o := Merged(merged, p);
      LawFor(parse, dto, base, p) == if o.statement.Some? then o else o.(statement := dto.statement)
  {
    var m := |merged|;
    assert merged[..m] == merged && base[..|base|] == base;
    PatchKeepsField(parse, base, merged, dto.statements, p, TitleOf, m);
    PatchKeepsField(parse, base, merged, dto.statements, p, ShortTitleOf, m);
    PatchKeepsField(parse, base, merged, dto.statements, p, TagsOf, m);
    PatchKeepsField(parse, base, merged, dto.statements, p, AccountOf, m);
    PatchKeepsField(parse, base, merged, dto.statements, p, LinkOf, m);
    PatchedStatement(parse, base, merged, dto.statements, p);
  }

  // ---------------------------------------------------------- normalisation

  /** Reads every name; the first that is no platform ends the normalisation. */
  method ReadOptions(parse: Parser, dto: Dto) returns (r: Result<seq<Override>, Error>)
    ensures r.Ok? <==> forall i :: 0 <= i < |Items(dto)| ==> parse(Items(dto)[i].name).Some?
    ensures r.Ok? ==> |r.value| == |Items(dto)| && forall i :: 0 <= i < |r.value| ==>
      r.value[i] == FromItem(dto, parse(Items(dto)[i].name).value, Items(dto)[i])
    ensures r.Err? ==> r.error == UnknownPlatform
  {
    var items := Items(dto);
    var overrides := [];
    for i := 0 to |items|
      invariant |overrides| == i
      invariant forall j :: 0 <= j < i ==>
        parse(items[j].name).Some? && overrides[j] == FromItem(dto, parse(items[j].name).value, items[j])
    {
      var p := parse(items[i].name);
      if p.None? { return Err(UnknownPlatform); }
      overrides := overrides + [FromItem(dto, p.value, items[i])];
    }
    return Ok(overrides);
  }

  /** Puts each per-platform statement into the first override of its platform, or appends one. */
  method ApplyStatements(parse: Parser, base: seq<Override>, statements: seq<(string, string)>) returns (r: Result<seq<Override>, Error>)
    ensures r.Ok? <==> forall i :: 0 <= i < |statements| ==> parse(statements[i].0).Some?
    ensures r.Ok? ==> Patched(parse, base, r.value, statements)
    ensures r.Err? ==> r.error == UnknownPlatform
  {
    hide Patched;
    var overrides := base;
    NothingPatched(parse, base);
    assert statements[..0] == [];
    for i := 0 to |statements|
      invariant Patched(parse, base, overrides, statements[..i])
      invariant forall j :: 0 <= j < i ==> parse(statements[j].0).Some?
    {
      var (name, statement) := statements[i];
      var p := parse(name);
      if p.None? { return Err(UnknownPlatform); }
      assert statements[..i + 1] == statements[..i] + [statements[i]];
      var at := FirstAt(overrides, p.value);
      if at < |overrides| {
        PatchFirst(parse, base, overrides, statements[..i], statements[i], p.value, at);
        overrides := overrides[at := overrides[at].(statement := Some(statement))];
      } else {
        PatchNew(parse, base, overrides, statements[..i], statements[i], p.value);
        overrides := overrides + [Bare(p.value, Some(statement))];
      }
    }
    assert statements[..|statements|] == statements;
    return Ok(overrides);
  }

  lemma NothingPatched(parse: Parser, base: seq<Override>)
    ensures Patched(parse, base, base, [])
  {
  }

  /** Folds the overrides into a map by platform. */
  method MergeAll(overrides: seq<Override>) returns (normalized: map<Platform, Override>)
    ensures forall p :: p in normalized <==> FirstAt(overrides, p) < |overrides|
    ensures forall p :: p in normalized ==> normalized[p] == Merged(overrides, p)
  {
    hide Merged;
    hide FirstAt;
    normalized := map[];
    for i := 0 to |overrides|
      invariant forall p :: p in normalized <==> FirstAt(overrides[..i], p) < i
      invariant forall p :: p in normalized ==> normalized[p] == Merged(overrides[..i], p)
    {
      var o := overrides[i];
      assert overrides[..i + 1] == overrides[..i] + [o];
      forall p
        ensures FirstAt(overrides[..i + 1], p) < i + 1 <==> FirstAt(overrides[..i], p) < i || o.platform == p
        ensures Merged(overrides[..i + 1], p)
             == if o.platform == p then Merge(Merged(overrides[..i], p), o) else Merged(overrides[..i], p)
      {
        FirstAppend(overrides[..i], o, p);
        MergedAppend(overrides[..i], o, p);
      }
      if o.platform in normalized {
        normalized := normalized[o.platform := Merge(normalized[o.platform], o)];
      } else {
        FirstMerge(overrides[..i], o);
        normalized := normalized[o.platform := o];
      }
    }
    assert overrides[..|overrides|] == overrides;
  }

  /** The first override of a platform enters the map as it is. */
  lemma FirstMerge(all: seq<Override>, o: Override)
    ensures FirstAt(all, o.platform) >= |all| ==> Merge(Merged(all, o.platform), o) == o
  {
    var p := o.platform;
    if FirstAt(all, p) >= |all| {
      NothingMerged(all, p, TitleOf);
      NothingMerged(all, p, ShortTitleOf);
      NothingMerged(all, p, TagsOf);
      NothingMerged(all, p, StatementOf);
      NothingMerged(all, p, AccountOf);
      NothingMerged(all, p, LinkOf);
    }
  }

  /** The map's values in platform order. */
  method InOrder(normalized: map<Platform, Override>) returns (all: seq<Override>)
    requires forall p :: p in normalized ==> normalized[p].platform == p
    ensures StrictlySorted(all)
    ensures forall i :: 0 <= i < |all| ==> all[i].platform in normalized && all[i] == normalized[all[i].platform]
    ensures forall p :: p in normalized ==> exists i :: 0 <= i < |all| && all[i].platform == p
  {
    all := [];
    for r := 0 to |ALL|
      invariant forall i :: 0 <= i < |all| ==>
        Rank(all[i].platform) < r && all[i].platform in normalized && all[i] == normalized[all[i].platform]
      invariant StrictlySorted(all)
      invariant forall p :: p in normalized && Rank(p) < r ==> exists i :: 0 <= i < |all| && all[i].platform == p
    {
      ghost var before := all;
      if ALL[r] in normalized {
        all := all + [normalized[ALL[r]]];
        assert all[|before|].platform == ALL[r];
      }
      RankOfAll(r);
      forall p | p in normalized && Rank(p) < r + 1 ensures exists i :: 0 <= i < |all| && all[i].platform == p {
        if Rank(p) < r {
          var i :| 0 <= i < |before| && before[i].platform == p;
          assert all[i].platform == p;
        } else {
          assert p == ALL[r];
        }
      }
    }
  }

  lemma RankOfAll(r: nat)
    requires r < |ALL|
    ensures Rank(ALL[r]) == r
  {
  }

  /** The default statement fills the gaps. */
  method FillDefault(all: seq<Override>, statement: Option<string>) returns (filled: seq<Override>)
    ensures |filled| == |all|
    ensures forall i :: 0 <= i < |all| ==>
      filled[i] == if all[i].statement.Some? then all[i] else all[i].(statement := statement)
  {
    filled := all;
    if statement.None? { return; }
    for i := 0 to |all|
      invariant |filled| == |all|
      invariant forall j :: 0 <= j < |all| ==>
        filled[j] == if j >= i || all[j].statement.Some? then all[j] else all[j].(statement := statement)
    {
      if filled[i].statement.None? {
        filled := filled[i := filled[i].(statement := statement)];
      }
    }
  }

  /** The checks on targets and overrides that every request passes before it is accepted. */
  function TargetError(targets: seq<Platform>, overrides: seq<Override>): Option<Error> {
    if targets == [] then Some(MissingTargets)
    else if |(set p | p in targets)| != |targets| then Some(DuplicateTargets)
    else if |(set o | o in overrides :: o.platform)| != |overrides| then Some(DuplicateOverrides)
    else if exists o :: o in overrides && o.platform !in targets then Some(OverrideOutsideTargets)
    else None
  }

  /**
   The whole normalisation. Unknown names are refused; otherwise there is one override for
   each platform mentioned anywhere, in platform order, holding what the laws give it.
   */
  method Normalize(parse: Parser, dto: Dto) returns (r: Result<(seq<Override>, seq<Platform>), Error>)
    ensures !AllNamesParse(parse, dto) ==> r == Err(UnknownPlatform)
    ensures AllNamesParse(parse, dto) ==>
      var base := Base(parse, dto);
      match r
      case Err(e) => e == MissingTargets && forall p :: !Mentioned(parse, dto, base, p)
      case Ok((overrides, targets)) =>
        && StrictlySorted(overrides) && |targets| == |overrides|
        && (forall i :: 0 <= i < |overrides| ==>
              targets[i] == overrides[i].platform && overrides[i] == LawFor(parse, dto, base, overrides[i].platform)
              && Mentioned(parse, dto, base, overrides[i].platform))
        && (forall p :: Mentioned(parse, dto, base, p) ==> p in targets)
        && TargetError(targets, overrides) == None
  {
    hide LawFor;
    hide Patched;
    hide Merged;
    var options := ReadOptions(parse, dto);
    if options.Err? { return Err(options.error); }
    var patched := ApplyStatements(parse, options.value, dto.statements);
    if patched.Err? { return Err(patched.error); }
    assert options.value == Base(parse, dto);
    ghost var base := options.value;
    LawsHold(parse, dto, base, patched.value);
    MergedPlatform(patched.value);
    hide Base;
    hide Mentioned;
    hide AllNamesParse;
    hide StrictlySorted;
    hide TargetError;
    var normalized := MergeAll(patched.value);
    hide FirstAt;
    var all := InOrder(normalized);
    var targets := seq(|all|, i requires 0 <= i < |all| => all[i].platform);
    var overrides := FillDefault(all, dto.statement);
    FilledSorted(all, overrides);
    forall p | Mentioned(parse, dto, base, p) ensures p in targets {
      var i :| 0 <= i < |all| && all[i].platform == p;
      assert targets[i] == p;
    }
    SortedPasses(overrides, targets);
    if targets == [] { return Err(MissingTargets); }
    return Ok((overrides, targets));
  }

  lemma FilledSorted(all: seq<Override>, filled: seq<Override>)
    requires StrictlySorted(all) && |filled| == |all|
    requires forall i :: 0 <= i < |all| ==> filled[i].platform == all[i].platform
    ensures StrictlySorted(filled)
  {
  }

  /** After merging, what is missing of the law is the default statement. */
  lemma LawsHold(parse: Parser, dto: Dto, base: seq<Override>, merged: seq<Override>)
    requires Patched(parse, base, merged, dto.statements)
    ensures forall p ::
      && LawFor(parse, dto, base, p) == (if Merged(merged, p).statement.Some? then Merged(merged, p)
                                         else Merged(merged, p).(statement := dto.statement))
      && (Mentioned(parse, dto, base, p) <==> FirstAt(merged, p) < |merged|)
  {
    hide LawFor;
    hide Patched;
    hide Merged;
    hide Mentioned;
    hide FirstAt;
    forall p
      ensures LawFor(parse, dto, base, p) == (if Merged(merged, p).statement.Some? then Merged(merged, p)
                                              else Merged(merged, p).(statement := dto.statement))
      ensures Mentioned(parse, dto, base, p) <==> FirstAt(merged, p) < |merged|
    {
      MergedIsLaw(parse, dto, base, merged, p);
      MentionedIsMerged(parse, dto, base, merged, p);
    }
  }

  lemma MergedPlatform(all: seq<Override>)
    ensures forall p :: Merged(all, p).platform == p
  {
  }

  lemma MentionedIsMerged(parse: Parser, dto: Dto, base: seq<Override>, merged: seq<Override>, p: Platform)
    requires Patched(parse, base, merged, dto.statements)
    ensures Mentioned(parse, dto, base, p) <==> FirstAt(merged, p) < |merged|
  {
    hide EntryFor;
    PatchedFirst(parse, base, merged, dto.statements, p);
  }

  /** Overrides in strict platform order with matching targets can only fail the checks by being absent. */
  lemma SortedPasses(overrides: seq<Override>, targets: seq<Platform>)
    requires StrictlySorted(overrides) && |targets| == |overrides|
    requires forall i :: 0 <= i < |overrides| ==> targets[i] == overrides[i].platform
    ensures TargetError(targets, overrides) == if targets == [] then Some(MissingTargets) else None
  {
    forall i, j | 0 <= i < j < |targets| ensures targets[i] != targets[j] {
      assert Rank(overrides[i].platform) < Rank(overrides[j].platform);
    }
    DistinctCount(targets);
    SamePlatforms(overrides, targets);
  }

  lemma SamePlatforms(overrides: seq<Override>, targets: seq<Platform>)
    requires |targets| == |overrides| && forall i :: 0 <= i < |overrides| ==> targets[i] == overrides[i].platform
    ensures (set p | p in targets) == (set o | o in overrides :: o.platform)
  {
    forall p | p in targets ensures p in (set o | o in overrides :: o.platform) {
      var i :| 0 <= i < |targets| && targets[i] == p;
      assert overrides[i] in overrides;
    }
  }

  lemma {:induction false} DistinctCount(targets: seq<Platform>)
    requires forall i, j :: 0 <= i < j < |targets| ==> targets[i] != targets[j]
    ensures |(set p | p in targets)| == |targets|
  {
    if targets != [] {
      var front, last := targets[..|targets| - 1], targets[|targets| - 1];
      DistinctCount(front);
      assert (set p | p in targets) == (set p | p in front) + {last};
    }
  }

  // ------------------------------------------------------ sources in words

  /** A platform given by name or as an option, one or many. */
  lemma TargetsRead(t: Targets)
    ensures match t
            case Name(name) => OfTargets(Some(t)) == [Item(name, None, None, None, None, None, None, None)]
            case Names(names) =>
              |OfTargets(Some(t))| == |names|
              && forall i :: 0 <= i < |names| ==> OfTargets(Some(t))[i] == Item(names[i], None, None, None, None, None, None, None)
            case Target(item) => OfTargets(Some(t)) == [item]
            case Targets(items) => OfTargets(Some(t)) == items
  {
  }

  /** An option under a key is read for the platform it names, or for its key if it names none. */
  lemma OptionsRead(entries: seq<(string, Item)>, i: nat)
    requires i < |entries|
    ensures var read := OfOptions(Some(Keyed(entries)));
      |read| == |entries| && read[i] == entries[i].1.(name := if entries[i].1.name != "" then entries[i].1.name else entries[i].0)
  {
  }

  /** `platform` comes before `platforms`, and these before the options. */
  lemma SourcesInOrder(dto: Dto, i: nat)
    ensures var a, b, c := OfTargets(dto.platform), OfTargets(dto.platforms), OfOptions(dto.options);
      && |Items(dto)| == |a| + |b| + |c|
      && (i < |a| ==> Items(dto)[i] == a[i])
      && (i < |b| ==> Items(dto)[|a| + i] == b[i])
      && (i < |c| ==> Items(dto)[|a| + |b| + i] == c[i])
  {
  }

  /** What an option says, and for whom; its account is its own where it gives one, else the common one. */
  lemma BaseMeans(parse: Parser, dto: Dto, i: nat)
    requires AllNamesParse(parse, dto) && i < |Items(dto)|
    ensures var item, o := Items(dto)[i], Base(parse, dto)[i];
      && parse(item.name) == Some(o.platform)
      && o.title == item.title && o.shortTitle == item.shortTitle && o.tags == item.tags
      && o.statement == item.statement && o.link == item.link
      && o.account.Some?
      && o.account.value.phone == (if item.phone.Some? then item.phone else dto.phone)
      && o.account.value.partition == (if item.partition.Some? then item.partition else dto.partition)
  {
  }

  /** The field the law takes is present, and absent in every later option of the platform; none is taken if it is absent in all. */
  lemma {:induction false} LastFromMeans<T>(all: seq<Override>, p: Platform, field: Override -> Option<T>, from: nat)
    ensures var last := LastFrom(all, p, field, from);
      if last.None? then forall i :: from <= i < |all| && all[i].platform == p ==> field(all[i]) == None
      else exists i :: from <= i < |all| && all[i].platform == p && field(all[i]) == last
             && forall j :: i < j < |all| && all[j].platform == p ==> field(all[j]) == None
  {
    if |all| > from {
      var n := |all| - 1;
      if !(all[n].platform == p && field(all[n]).Some?) {
        LastFromMeans(all[..n], p, field, from);
        var last := LastFrom(all[..n], p, field, from);
        if last.Some? {
          var i :| from <= i < n && all[..n][i].platform == p && field(all[..n][i]) == last
            && forall j :: i < j < n && all[..n][j].platform == p ==> field(all[..n][j]) == None;
          assert all[i] == all[..n][i];
          forall j | i < j < |all| && all[j].platform == p ensures field(all[j]) == None {
            if j < n { assert all[j] == all[..n][j]; }
          }
        } else {
          forall i | from <= i < |all| && all[i].platform == p ensures field(all[i]) == None {
            if i < n { assert all[i] == all[..n][i]; }
          }
        }
      }
    }
  }

  /** The per-platform statement taken is the last for that platform. */
  lemma {:induction false} EntryForMeans(parse: Parser, statements: seq<(string, string)>, p: Platform)
    ensures var entry := EntryFor(parse, statements, p);
      if entry.None? then forall i :: 0 <= i < |statements| ==> parse(statements[i].0) != Some(p)
      else exists i :: 0 <= i < |statements| && parse(statements[i].0) == Some(p) && statements[i].1 == entry.value
             && forall j :: i < j < |statements| ==> parse(statements[j].0) != Some(p)
  {
    if statements != [] {
      var n := |statements| - 1;
      if parse(statements[n].0) != Some(p) {
        var front := statements[..n];
        EntryForMeans(parse, front, p);
        var entry := EntryFor(parse, front, p);
        if entry.Some? {
          var i :| 0 <= i < n && parse(front[i].0) == Some(p) && front[i].1 == entry.value
            && forall j :: i < j < n ==> parse(front[j].0) != Some(p);
          assert statements[i] == front[i];
          forall j | i < j < |statements| ensures parse(statements[j].0) != Some(p) {
            if j < n { assert statements[j] == front[j]; }
          }
        } else {
          forall i | 0 <= i < |statements| ensures parse(statements[i].0) != Some(p) {
            if i < n { assert statements[i] == front[i]; }
          }
        }
      }
    }
  }
}
