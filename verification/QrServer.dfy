/**
 The attempt table as an object whose calls run to completion one at a time. The
 interleaved system covers calls that overlap; this class is what the client loop
 talks to.
 */
module QrServer {
  import opened Platforms
  import opened Wrappers
  import opened QrTable
  import QrProtocol

  datatype Response =
    | QrAvailable(platform: Platform, token: Token, png: seq<bv8>)
    | Pending(platform: Platform, token: Token)
    | TimedOut(platform: Platform)
    | Cancelled(platform: Platform)
    | Unavailable(platform: Platform)
    | Rejected(platform: Platform)

  /** The browser's part in one start: which requests succeed and what the screenshots are. */
  datatype Browser = Browser(
    sessionOk: bool,
    navigateOk: bool,
    probe: Option<seq<bv8>>,
    reported: Platform,
    capture: Option<seq<bv8>>)

  /** A screenshot reply passes only if the runner's own check accepts its text. */
  predicate CaptureOk(reply: Option<seq<bv8>>) {
    reply.Some? && QrProtocol.RunnerAccepts(reply.value)
  }

  /** Every browser step of a start goes through. */
  predicate BrowserServes(browser: Browser, platform: Platform) {
    browser.sessionOk && browser.navigateOk && CaptureOk(browser.probe) && browser.reported == platform && CaptureOk(browser.capture)
  }

  /** What other clients and the clock do between two calls. */
  datatype Other =
    | Elapse(ticks: nat)
    | OtherStart(platform: Platform, browser: Browser, spurious: nat)
    | OtherRefresh(platform: Platform, token: Token, capture: Option<seq<bv8>>)
    | OtherCancel(platform: Platform, token: Token, closeOk: bool)
    | Timer(token: Token)

  const TOKEN_LENGTH: nat := 32

  predicate IsAttemptToken(t: Token) {
    |t| == TOKEN_LENGTH && forall k :: 0 <= k < |t| ==> QrProtocol.TokenCharacter(t[k])
  }

  function Swept(table: Table, now: nat, lifetime: nat): Table {
    map t | t in table && !Expired(table[t], now, lifetime) :: table[t]
  }

  /**
   How the table may change over calls of others: sessions known before keep their
   token and record for as long as they stay, and never return once gone.
   */
  ghost predicate Evolves(before: Table, created: nat, after: Table) {
    forall t :: t in after && after[t].attempt < created ==> t in before && before[t] == after[t]
  }

  ghost predicate AccountedFor(closed: seq<nat>, table: Table, created: nat) {
    forall id: nat :: multiset(closed)[id] + TableHas(table, id) == if id < created then 1 else 0
  }

  lemma RepeatedIsToken(c: char)
    requires QrProtocol.TokenCharacter(c)
    ensures IsAttemptToken(seq(TOKEN_LENGTH, _ => c))
  {
  }

  /** With fewer than four records some well-formed token is free. */
  lemma SomeTokenIsFree(table: Table)
    requires |table| < MAX_ACTIVE
    ensures exists t :: IsAttemptToken(t) && t !in table
  {
    var a, b, c, d := seq(TOKEN_LENGTH, _ => 'a'), seq(TOKEN_LENGTH, _ => 'b'), seq(TOKEN_LENGTH, _ => 'c'), seq(TOKEN_LENGTH, _ => 'd');
    RepeatedIsToken('a');
    RepeatedIsToken('b');
    RepeatedIsToken('c');
    RepeatedIsToken('d');
    assert a[0] == 'a' && b[0] == 'b' && c[0] == 'c' && d[0] == 'd';
    if a in table && b in table && c in table && d in table {
      var some := {a, b, c, d};
      assert some <= table.Keys;
      assert |some| == 4;
      SubsetSize(some, table.Keys);
    }
  }

  lemma SubsetSize(a: set<Token>, b: set<Token>)
    requires a <= b
    ensures |a| <= |b|
  {
    if a != {} {
      var t :| t in a;
      SubsetSize(a - {t}, b - {t});
    }
  }

  class Server {
    const lifetime: nat
    var slots: nat
    var table: Table
    var now: nat
    var created: nat
    var closed: seq<nat>

    ghost predicate Valid()
      reads this
    {
      && Injective(table)
      && slots == |table| <= MAX_ACTIVE
      && AccountedFor(closed, table, created)
    }

    constructor (lifetime: nat)
      ensures Valid() && this.lifetime == lifetime && table == map[] && created == 0
    {
      this.lifetime := lifetime;
      slots, table, now, created, closed := 0, map[], 0, 0, [];
    }

    /** Weak exchanges may fail `spurious` times before one goes through. */
    method ReserveSlot(spurious: nat) returns (ok: bool)
      modifies this`slots
      ensures ok <==> old(slots) < 4
      ensures slots == if ok then old(slots) + 1 else old(slots)
    {
      var seen, failures := slots, spurious;
      while true
        invariant seen == slots == old(slots)
        decreases failures
      {
        if seen >= MAX_ACTIVE {
          return false;
        }
        if failures == 0 {
          slots := seen + 1;
          return true;
        }
        failures := failures - 1;
        seen := slots;
      }
    }

    method ReleaseSlot()
      modifies this`slots
      ensures slots == if old(slots) == 0 then 0 else old(slots) - 1
    {
      if slots > 0 {
        slots := slots - 1;
      }
    }

    /** Closes the session of a record just taken out of the table and gives its slot back. */
    method Retire(r: Record, ghost before: Table, ghost token: Token)
      requires Injective(before) && token in before && before[token] == r && table == before - {token}
      requires slots == |before| <= MAX_ACTIVE && AccountedFor(closed, before, created)
      modifies this`slots, this`closed
      ensures Valid() && closed == old(closed) + [r.attempt]
    {
      RemoveOne(before, token, 0);
      closed := closed + [r.attempt];
      ReleaseSlot();
      forall id: nat
        ensures multiset(closed)[id] + TableHas(table, id) == if id < created then 1 else 0
      {
        RemoveOne(before, token, id);
      }
    }

    /** `remove_expired`, the map iterated in an arbitrary order. */
    method RemoveExpired()
      requires Valid()
      modifies this`slots, this`closed, this`table
      ensures Valid()
      ensures table == Swept(old(table), now, lifetime)
      ensures forall t :: t in table <==> t in old(table) && now < old(table)[t].createdAt + lifetime
      ensures forall t :: t in table ==> table[t] == old(table)[t]
    {
      var tokens := set t | t in table && Expired(table[t], now, lifetime);
      while tokens != {}
        invariant Valid()
        invariant forall t :: t in tokens <==> t in table && Expired(table[t], now, lifetime)
        invariant forall t :: t in table ==> t in old(table) && table[t] == old(table)[t]
        invariant forall t :: t in old(table) && t !in table ==> Expired(old(table)[t], now, lifetime)
        decreases tokens
      {
        var t :| t in tokens;
        var r := table[t];
        ghost var before := table;
        table := table - {t};
        Retire(r, before, t);
        tokens := tokens - {t};
      }
    }

    /** Stores an open session under a token nobody uses yet. */
    method Register(platform: Platform, attempt: nat) returns (token: Token)
      requires Injective(table) && slots == |table| + 1 <= MAX_ACTIVE
      requires created == attempt + 1 && AccountedFor(closed, table, attempt)
      modifies this`table
      ensures Valid() && IsAttemptToken(token) && token !in old(table)
      ensures table == old(table)[token := Record(platform, now, attempt)]
    {
      SomeTokenIsFree(table);
      token :| IsAttemptToken(token) && token !in table;
      assert multiset(closed)[attempt] + TableHas(table, attempt) == 0;
      ghost var before := table;
      table := table[token := Record(platform, now, attempt)];
      InsertOne(before, token, table[token], 0);
      forall id: nat
        ensures multiset(closed)[id] + TableHas(table, id) == if id < created then 1 else 0
      {
        InsertOne(before, token, table[token], id);
      }
    }

    method Start(platform: Platform, browser: Browser, spurious: nat) returns (r: Response)
      requires Valid()
      modifies this`slots, this`closed, this`table, this`created
      ensures Valid()
      ensures r.QrAvailable? || r == Rejected(platform)
      ensures r.QrAvailable? <==>
        && |Swept(old(table), now, lifetime)| < 4 && browser.sessionOk && browser.navigateOk
        && browser.probe.Some? && QrProtocol.RunnerAccepts(browser.probe.value) && browser.reported == platform
        && browser.capture.Some? && QrProtocol.RunnerAccepts(browser.capture.value)
      ensures created == old(created) +
        if |Swept(old(table), now, lifetime)| < 4 && browser.sessionOk then 1 else 0
      ensures r.QrAvailable? ==>
        && r.platform == platform && IsAttemptToken(r.token) && r.png == browser.capture.value
        && |r.token| == 32 && QrProtocol.TokenIsValid(r.token)
        && QrProtocol.RunnerAccepts(r.png)
        && r.token !in Swept(old(table), now, lifetime)
        && table == Swept(old(table), now, lifetime)[r.token := Record(platform, now, old(created))]
      ensures !r.QrAvailable? ==> table == Swept(old(table), now, lifetime)
    {
      hide QrProtocol.RunnerAccepts;
      hide Swept;
      hide Injective;
      hide TableHas;
      RemoveExpired();
      var reserved := ReserveSlot(spurious);
      if !reserved {
        return Rejected(platform);
      }
      if !browser.sessionOk {
        ReleaseSlot();
        return Rejected(platform);
      }
      var attempt := created;
      created := created + 1;
      if !browser.navigateOk || !CaptureOk(browser.probe)
         || browser.reported != platform || !CaptureOk(browser.capture) {
        closed := closed + [attempt];
        ReleaseSlot();
        return Rejected(platform);
      }
      var token := Register(platform, attempt);
      return QrAvailable(platform, token, browser.capture.value);
    }

    method Refresh(platform: Platform, token: Token, capture: Option<seq<bv8>>) returns (r: Response)
      requires Valid()
      modifies this`slots, this`closed, this`table
      ensures Valid()
      ensures table == LockedRefresh(old(table), platform, token, now, lifetime, CaptureOk(capture)).0
      ensures r == match LockedRefresh(old(table), platform, token, now, lifetime, CaptureOk(capture)).2
                   case Unknown => Rejected(platform)
                   case TimedOut => Response.TimedOut(platform)
                   case CaptureFailed => Rejected(platform)
                   case Captured => QrAvailable(platform, token, capture.value)
      ensures r == Response.TimedOut(platform) <==>
        token in old(table) && old(table)[token].platform == platform && now >= old(table)[token].createdAt + lifetime
      ensures r.QrAvailable? <==>
        && token in old(table) && old(table)[token].platform == platform && now < old(table)[token].createdAt + lifetime
        && capture.Some? && QrProtocol.RunnerAccepts(capture.value)
      ensures r.QrAvailable? ==> r == QrAvailable(platform, token, capture.value)
      ensures r.QrAvailable? || r == Response.TimedOut(platform) || r == Rejected(platform)
      ensures table == if token in old(table) && old(table)[token].platform == platform && !r.QrAvailable?
                       then old(table) - {token} else old(table)
    {
      if token !in table || table[token].platform != platform {
        return Rejected(platform);
      }
      ghost var before := table;
      var record := table[token];
      if Expired(record, now, lifetime) {
        table := table - {token};
        r := Response.TimedOut(platform);
      } else if CaptureOk(capture) {
        return QrAvailable(platform, token, capture.value);
      } else {
        table := table - {token};
        r := Rejected(platform);
      }
      Retire(record, before, token);
    }

    method Cancel(platform: Platform, token: Token, closeOk: bool) returns (r: Response)
      requires Valid()
      modifies this`slots, this`closed, this`table
      ensures Valid()
      ensures table == LockedCancel(old(table), platform, token).0
      ensures r == if LockedCancel(old(table), platform, token).1.Some? && closeOk
                   then Cancelled(platform) else Rejected(platform)
      ensures var known := token in old(table) && old(table)[token].platform == platform;
        && table == (if known then old(table) - {token} else old(table))
        && r == if known && closeOk then Cancelled(platform) else Rejected(platform)
    {
      if token !in table || table[token].platform != platform {
        return Rejected(platform);
      }
      ghost var before := table;
      var record := table[token];
      table := table - {token};
      Retire(record, before, token);
      return if closeOk then Cancelled(platform) else Rejected(platform);
    }

    method FireTimer(token: Token)
      requires Valid()
      modifies this`slots, this`closed, this`table
      ensures Valid() && table == LockedExpiry(old(table), token, now, lifetime).0
      ensures table == if token in old(table) && now >= old(table)[token].createdAt + lifetime
                       then old(table) - {token} else old(table)
    {
      if token in table && Expired(table[token], now, lifetime) {
        ghost var before := table;
        var record := table[token];
        table := table - {token};
        Retire(record, before, token);
      }
    }

    /** Any sequence of calls by others, timers and elapsing time. */
    method Others(script: seq<Other>)
      requires Valid()
      modifies this
      ensures Valid() && created >= old(created)
      ensures Evolves(old(table), old(created), table)
    {
      for i := 0 to |script|
        invariant Valid() && created >= old(created)
        invariant Evolves(old(table), old(created), table)
      {
        match script[i]
        case Elapse(ticks) => now := now + ticks;
        case OtherStart(p, browser, spurious) => var _ := Start(p, browser, spurious);
        case OtherRefresh(p, t, capture) => var _ := Refresh(p, t, capture);
        case OtherCancel(p, t, closeOk) => var _ := Cancel(p, t, closeOk);
        case Timer(t) => FireTimer(t);
      }
    }
  }
}
