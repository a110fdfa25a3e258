/**
 The table of live terminal-QR attempts and the critical sections run on it
 while its mutex is held. Both the interleaved system and the whole-call server
 are built from these sections.
 */
module QrTable {
  import opened Platforms
  import opened Wrappers

  type Token = string

  /** `attempt` names the browser session the record owns. */
  datatype Record = Record(platform: Platform, createdAt: nat, attempt: nat)

  type Table = map<Token, Record>

  const MAX_ACTIVE: nat := 4

  predicate Expired(r: Record, now: nat, lifetime: nat) {
    now - r.createdAt >= lifetime
  }

  /** Takes each listed token out of the table, collecting the records found. */
  function RemoveAll(table: Table, tokens: seq<Token>): (Table, seq<Record>) {
    if tokens == [] then (table, [])
    else if tokens[0] in table then
      var (rest, removed) := RemoveAll(table - {tokens[0]}, tokens[1..]);
      (rest, [table[tokens[0]]] + removed)
    else RemoveAll(table, tokens[1..])
  }

  /** `tokens` enumerates the expired entries, in whatever order the map iterates. */
  ghost predicate ListsExpired(table: Table, now: nat, lifetime: nat, tokens: seq<Token>) {
    forall t :: t in tokens <==> t in table && Expired(table[t], now, lifetime)
  }

  function LockedCancel(table: Table, platform: Platform, token: Token): (Table, Option<Record>) {
    if token in table && table[token].platform == platform
    then (table - {token}, Some(table[token]))
    else (table, None)
  }

  function LockedExpiry(table: Table, token: Token, now: nat, lifetime: nat): (Table, Option<Record>) {
    if token in table && Expired(table[token], now, lifetime)
    then (table - {token}, Some(table[token]))
    else (table, None)
  }

  datatype RefreshVerdict = Unknown | TimedOut | CaptureFailed | Captured

  function LockedRefresh(table: Table, platform: Platform, token: Token, now: nat, lifetime: nat, captureOk: bool)
    : (Table, Option<Record>, RefreshVerdict)
  {
    if token !in table || table[token].platform != platform then (table, None, Unknown)
    else if Expired(table[token], now, lifetime) then (table - {token}, Some(table[token]), TimedOut)
    else if captureOk then (table, None, Captured)
    else (table - {token}, Some(table[token]), CaptureFailed)
  }

  /** No session is recorded under two tokens. */
  ghost predicate Injective(table: Table) {
    forall t, u :: t in table && u in table && t != u ==> table[t].attempt != table[u].attempt
  }

  ghost predicate InTable(table: Table, id: nat) {
    exists t :: t in table && table[t].attempt == id
  }

  ghost function TableHas(table: Table, id: nat): nat {
    if InTable(table, id) then 1 else 0
  }

  function CountOf(records: seq<Record>, id: nat): nat {
    if records == [] then 0
    else (if records[0].attempt == id then 1 else 0) + CountOf(records[1..], id)
  }

  /** Taking one record out moves exactly its session out. */
  lemma RemoveOne(table: Table, token: Token, id: nat)
    requires Injective(table) && token in table
    ensures Injective(table - {token})
    ensures |table - {token}| == |table| - 1
    ensures TableHas(table - {token}, id) + (if table[token].attempt == id then 1 else 0) == TableHas(table, id)
  {
    var rest := table - {token};
    assert rest.Keys == table.Keys - {token};
    assert |rest| == |rest.Keys| && |table| == |table.Keys|;
    if InTable(table, id) && table[token].attempt != id {
      var t :| t in table && table[t].attempt == id;
      assert t in rest && rest[t].attempt == id;
    }
  }

  /** Inserting a session nobody recorded yet adds exactly that session. */
  lemma InsertOne(table: Table, token: Token, r: Record, id: nat)
    requires Injective(table) && token !in table && !InTable(table, r.attempt)
    ensures Injective(table[token := r])
    ensures |table[token := r]| == |table| + 1
    ensures TableHas(table[token := r], id) == TableHas(table, id) + (if r.attempt == id then 1 else 0)
  {
    var more := table[token := r];
    assert more.Keys == table.Keys + {token};
    assert |more| == |more.Keys| && |table| == |table.Keys|;
    assert more[token] == r;
    if InTable(table, id) {
      var t :| t in table && table[t].attempt == id;
      assert t in more && more[t].attempt == id;
    }
  }

  lemma {:induction false} RemoveAllLeaves(table: Table, tokens: seq<Token>)
    requires Injective(table)
    ensures var (rest, removed) := RemoveAll(table, tokens);
      && Injective(rest)
      && |rest| + |removed| == |table|
      && (forall t :: t in rest <==> t in table && t !in tokens)
      && (forall t :: t in rest ==> rest[t] == table[t])
    decreases |tokens|
  {
    if tokens != [] {
      var smaller := if tokens[0] in table then table - {tokens[0]} else table;
      if tokens[0] in table { RemoveOne(table, tokens[0], 0); }
      RemoveAllLeaves(smaller, tokens[1..]);
      assert forall t :: t in tokens <==> t == tokens[0] || t in tokens[1..];
    }
  }

  lemma {:induction false} RemoveAllCounts(table: Table, tokens: seq<Token>, id: nat)
    requires Injective(table)
    ensures var (rest, removed) := RemoveAll(table, tokens);
      TableHas(rest, id) + CountOf(removed, id) == TableHas(table, id)
    decreases |tokens|
  {
    hide TableHas;
    hide Injective;
    if tokens == [] {
    } else if tokens[0] in table {
      RemoveOne(table, tokens[0], id);
      RemoveAllCounts(table - {tokens[0]}, tokens[1..], id);
      var removed := RemoveAll(table - {tokens[0]}, tokens[1..]).1;
      assert ([table[tokens[0]]] + removed)[1..] == removed;
    } else {
      RemoveAllCounts(table, tokens[1..], id);
    }
  }

  lemma {:induction false} RemoveAllSources(table: Table, tokens: seq<Token>, i: nat)
    requires i < |RemoveAll(table, tokens).1|
    ensures exists t :: t in tokens && t in table && table[t] == RemoveAll(table, tokens).1[i]
    decreases |tokens|
  {
    if tokens[0] !in table {
      RemoveAllSources(table, tokens[1..], i);
    } else if i > 0 {
      var smaller := table - {tokens[0]};
      RemoveAllSources(smaller, tokens[1..], i - 1);
      var t :| t in tokens[1..] && t in smaller && smaller[t] == RemoveAll(smaller, tokens[1..]).1[i - 1];
      assert t in tokens && table[t] == RemoveAll(table, tokens).1[i];
    } else {
      assert tokens[0] in tokens;
    }
  }

  /** A sweep moves records from the table to the sweeper without losing or copying any. */
  lemma RemoveAllConserves(table: Table, tokens: seq<Token>)
    requires Injective(table)
    ensures var (rest, removed) := RemoveAll(table, tokens);
      && Injective(rest)
      && |rest| + |removed| == |table|
      && (forall t :: t in rest <==> t in table && t !in tokens)
      && (forall t :: t in rest ==> rest[t] == table[t])
      && (forall i :: 0 <= i < |removed| ==> exists t :: t in tokens && t in table && table[t] == removed[i])
      && (forall id :: TableHas(rest, id) + CountOf(removed, id) == TableHas(table, id))
  {
    hide RemoveAll;
    hide Injective;
    hide TableHas;
    hide CountOf;
    RemoveAllLeaves(table, tokens);
    var (rest, removed) := RemoveAll(table, tokens);
    forall i | 0 <= i < |removed| ensures exists t :: t in tokens && t in table && table[t] == removed[i] {
      RemoveAllSources(table, tokens, i);
    }
    forall id: nat ensures TableHas(rest, id) + CountOf(removed, id) == TableHas(table, id) {
      RemoveAllCounts(table, tokens, id);
    }
  }
}
