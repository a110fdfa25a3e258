/**
 The command-line client's bounded refresh loop, talking over a faulty link to a
 server that other clients and timers use at the same time.
 */
module QrClient {
  import opened Platforms
  import opened Wrappers
  import opened QrTable
  import opened QrServer
  import QrProtocol

  datatype Outcome =
    | QrPixels(token: Token, png: seq<bv8>)
    | StillPending(token: Token)
    | Ended
    | NotAvailable
    | Refused

  datatype Call = StartCall | RefreshCall(token: Token) | CancelCall(token: Token)

  /** What one call got back; a transport error counts as `Err`. */
  datatype Exchange = Exchange(call: Call, reply: Result<Outcome, ()>)

  /** What the link does to one call. `Replaced` lets anything at all answer in the server's place. */
  datatype Delivery = Delivered | RequestLost | ReplyLost | Replaced(reply: Result<Outcome, ()>)

  datatype Turn = Turn(others: seq<Other>, delivery: Delivery, browser: Browser, spurious: nat, closeOk: bool)

  const MAX_REFRESHES: nat := 20

  predicate Supported(p: Platform) { p == Douyin || p == WechatChannels }

  /** A response is believed if it is for the expected platform and its token and image pass their checks. */
  ghost predicate Believable(r: Response, expected: Platform) {
    && r.platform == expected && Supported(expected)
    && (r.QrAvailable? ==> QrProtocol.TokenIsValid(r.token) && QrProtocol.IsPngText(r.png))
    && (r.Pending? ==> QrProtocol.TokenIsValid(r.token))
  }

  function OutcomeOf(r: Response): Outcome {
    match r
    case QrAvailable(_, token, png) => QrPixels(token, png)
    case Pending(_, token) => StillPending(token)
    case TimedOut(_) => Ended
    case Cancelled(_) => Ended
    case Unavailable(_) => NotAvailable
    case Rejected(_) => Refused
  }

  /** What the client sees of a call the server answered with `served`, if it got the call at all. */
  ghost function Seen(served: Option<Response>, platform: Platform, delivery: Delivery): Result<Outcome, ()> {
    match delivery
    case Replaced(forged) => forged
    case Delivered => Ok(if served.Some? && Believable(served.value, platform) then OutcomeOf(served.value) else Refused)
    case _ => Ok(Refused)
  }

  predicate Reaches(delivery: Delivery) { delivery.Delivered? || delivery.ReplyLost? }

  /** A reply with a token, upon which the client goes on. */
  predicate GoesOn(reply: Result<Outcome, ()>) {
    reply.Ok? && (reply.value.QrPixels? || reply.value.StillPending?)
  }

  /** Validation of a server response before the client believes it. */
  method IntoOutcome(r: Response, expected: Platform) returns (o: Option<Outcome>)
    ensures o == if Believable(r, expected) then Some(OutcomeOf(r)) else None
    ensures o.Some? ==> r.platform == expected && (expected == Douyin || expected == WechatChannels)
    ensures o.Some? && (r.QrAvailable? || r.Pending?) ==> QrProtocol.TokenIsValid(r.token)
    ensures o.Some? && r.QrAvailable? ==> QrProtocol.IsPngText(r.png)
    ensures o.None? ==>
      || r.platform != expected || (expected != Douyin && expected != WechatChannels)
      || ((r.QrAvailable? || r.Pending?) && !QrProtocol.TokenIsValid(r.token))
      || (r.QrAvailable? && !QrProtocol.IsPngText(r.png))
    ensures o.Some? ==>
      match r
      case QrAvailable(_, token, png) => o == Some(QrPixels(token, png))
      case Pending(_, token) => o == Some(StillPending(token))
      case TimedOut(_) | Cancelled(_) => o == Some(Ended)
      case Unavailable(_) => o == Some(NotAvailable)
      case Rejected(_) => o == Some(Refused)
  {
    if r.platform != expected || !Supported(expected) {
      return None;
    }
    match r
    case QrAvailable(_, token, png) =>
      var ok := QrProtocol.PngBase64IsValid(png);
      return if QrProtocol.TokenIsValid(token) && ok then Some(QrPixels(token, png)) else None;
    case Pending(_, token) =>
      return if QrProtocol.TokenIsValid(token) then Some(StillPending(token)) else None;
    case TimedOut(_) => return Some(Ended);
    case Cancelled(_) => return Some(Ended);
    case Unavailable(_) => return Some(NotAvailable);
    case Rejected(_) => return Some(Refused);
  }

  /** The token a log leaves the client holding: the latest one a start or refresh returned. */
  function TokenAfter(log: seq<Exchange>): Option<Token> {
    if log == [] then None
    else
      var last := log[|log| - 1];
      if !last.call.CancelCall? && GoesOn(last.reply) then Some(last.reply.value.token)
      else TokenAfter(log[..|log| - 1])
  }

  /** Each refresh and cancel names the latest token, and only the first call is a start. */
  ghost predicate NamesLatest(log: seq<Exchange>) {
    forall i :: 0 <= i < |log| ==>
      match log[i].call
      case StartCall => i == 0
      case RefreshCall(t) => i > 0 && TokenAfter(log[..i]) == Some(t)
      case CancelCall(t) => i == |log| - 1 && i > 0 && TokenAfter(log[..i]) == Some(t)
  }

  class Link {
    const server: Server
    const platform: Platform
    const plan: nat -> Turn
    var log: seq<Exchange>
    /** What the server answered to the start, if the start got there, and the session behind it. */
    ghost var served: Option<Response>
    ghost var session: Option<nat>

    constructor (server: Server, platform: Platform, plan: nat -> Turn)
      ensures this.server == server && this.platform == platform && this.plan == plan && log == []
    {
      this.server, this.platform, this.plan, log := server, platform, plan, [];
    }

    /** The answer the client sees to the server's response. */
    method Answer(r: Response, delivery: Delivery, ghost served: Option<Response>) returns (reply: Result<Outcome, ()>)
      requires delivery.Delivered? ==> served == Some(r)
      ensures reply == Seen(served, platform, delivery)
    {
      match delivery
      case Replaced(forged) => return forged;
      case RequestLost => return Ok(Refused);
      case ReplyLost => return Ok(Refused);
      case Delivered =>
        var o := IntoOutcome(r, platform);
        return if o.Some? then Ok(o.value) else Ok(Refused);
    }

    /** A start that reaches the server; it is refused for want of a free slot or by the browser. */
    method Serve(turn: Turn) returns (r: Response)
      requires server.Valid()
      modifies this`session, this`served, server
      ensures server.Valid() && served == Some(r)
      ensures if r.QrAvailable? then Recorded(this, turn.browser)
              else r == Rejected(platform) && (!BrowserServes(turn.browser, platform) || |server.table| == MAX_ACTIVE)
    {
      hide QrProtocol.RunnerAccepts;
      hide AccountedFor;
      hide Swept;
      hide Injective;
      r := server.Start(platform, turn.browser, turn.spurious);
      served, session := Some(r), if server.created > 0 then Some(server.created - 1) else None;
    }

    /** A start is not even sent for a platform without terminal login. */
    method Start() returns (reply: Result<Outcome, ()>)
      requires server.Valid()
      modifies this`log, this`session, this`served, server
      ensures server.Valid() && log == old(log) + [Exchange(StartCall, reply)]
      ensures served.Some? <==> Supported(platform) && Reaches(plan(|old(log)|).delivery)
      ensures Supported(platform) ==> reply == Seen(served, platform, plan(|old(log)|).delivery)
      ensures !Supported(platform) ==> reply == Ok(Refused)
      ensures served.Some? ==>
        var browser := plan(|old(log)|).browser;
        if served.value.QrAvailable? then Recorded(this, browser)
        else served.value == Rejected(platform) && (!BrowserServes(browser, platform) || |server.table| == MAX_ACTIVE)
    {
      hide BrowserServes;
      var turn := plan(|log|);
      server.Others(turn.others);
      served, session := None, None;
      if !Supported(platform) {
        reply := Ok(Refused);
      } else {
        var r := Rejected(platform);
        if Reaches(turn.delivery) {
          r := Serve(turn);
        }
        reply := Answer(r, turn.delivery, served);
      }
      log := log + [Exchange(StartCall, reply)];
    }

    /** A refresh or cancel is not even sent for a token that is not well formed. */
    predicate Sends(token: Token, delivery: Delivery) {
      Supported(platform) && QrProtocol.TokenIsValid(token) && Reaches(delivery)
    }

    method Refresh(token: Token) returns (reply: Result<Outcome, ()>, ghost answered: Option<Response>)
      requires server.Valid()
      modifies this`log, server
      ensures server.Valid() && log == old(log) + [Exchange(RefreshCall(token), reply)]
      ensures server.created >= old(server.created)
      ensures Evolves(old(server.table), old(server.created), server.table)
      ensures answered.Some? <==> Sends(token, plan(|old(log)|).delivery)
      ensures reply == if Supported(platform) && QrProtocol.TokenIsValid(token)
                       then Seen(answered, platform, plan(|old(log)|).delivery) else Ok(Refused)
      ensures answered.Some? ==>
        var capture := plan(|old(log)|).browser.capture;
        if token in server.table && server.table[token].platform == platform
        then CaptureOk(capture) && answered.value == QrAvailable(platform, token, capture.value)
        else answered.value == Rejected(platform) || answered.value == Response.TimedOut(platform)
    {
      hide QrProtocol.RunnerAccepts;
      hide AccountedFor;
      var turn := plan(|log|);
      server.Others(turn.others);
      answered := None;
      if !Supported(platform) || !QrProtocol.TokenIsValid(token) {
        reply := Ok(Refused);
      } else {
        var r := Rejected(platform);
        if Reaches(turn.delivery) {
          r := server.Refresh(platform, token, turn.browser.capture);
          answered := Some(r);
        }
        reply := Answer(r, turn.delivery, answered);
      }
      log := log + [Exchange(RefreshCall(token), reply)];
    }

    method Cancel(token: Token) returns (reply: Result<Outcome, ()>)
      requires server.Valid()
      modifies this`log, server
      ensures server.Valid() && log == old(log) + [Exchange(CancelCall(token), reply)]
      ensures server.created >= old(server.created)
      ensures Evolves(old(server.table), old(server.created), server.table)
      ensures Sends(token, plan(|old(log)|).delivery) ==>
                token in server.table ==> server.table[token].platform != platform
    {
      var turn := plan(|log|);
      server.Others(turn.others);
      if !Supported(platform) || !QrProtocol.TokenIsValid(token) {
        reply := Ok(Refused);
      } else {
        var r := Rejected(platform);
        if Reaches(turn.delivery) {
          r := server.Cancel(platform, token, turn.closeOk);
        }
        reply := Answer(r, turn.delivery, Some(r));
      }
      log := log + [Exchange(CancelCall(token), reply)];
    }
  }

  /** The server answered the start with a token and an image it accepted, and has just recorded the session behind them. */
  ghost predicate Recorded(link: Link, browser: Browser)
    reads link, link.server
  {
    && link.served.Some? && link.served.value.QrAvailable? && link.served.value.platform == link.platform
    && var QrAvailable(_, token, png) := link.served.value;
    && BrowserServes(browser, link.platform) && png == browser.capture.value
    && QrProtocol.TokenIsValid(token) && QrProtocol.RunnerAccepts(png)
    && link.server.created > 0 && link.session == Some(link.server.created - 1)
    && token in link.server.table
    && link.server.table[token].attempt == link.server.created - 1
    && link.server.table[token].platform == link.platform
  }

  /** The client holds `token`, has not cancelled yet, and names it in everything to come. */
  ghost predicate Holding(log: seq<Exchange>, token: Token) {
    && |log| > 0 && NamesLatest(log) && TokenAfter(log) == Some(token)
    && log[0].call.StartCall? && TokenAfter(log[..1]).Some?
    && forall i :: 1 <= i < |log| ==> log[i].call.RefreshCall?
  }

  lemma Extend(log: seq<Exchange>, token: Token, e: Exchange)
    requires Holding(log, token) && (e.call == RefreshCall(token) || e.call == CancelCall(token))
    ensures NamesLatest(log + [e]) && (log + [e])[..1] == log[..1]
    ensures TokenAfter(log + [e]) ==
              if !e.call.CancelCall? && GoesOn(e.reply)
              then Some(e.reply.value.token) else Some(token)
  {
    var more := log + [e];
    assert more[..|more| - 1] == log;
    forall i | 0 <= i < |more|
      ensures match more[i].call
              case StartCall => i == 0
              case RefreshCall(t) => i > 0 && TokenAfter(more[..i]) == Some(t)
              case CancelCall(t) => i == |more| - 1 && i > 0 && TokenAfter(more[..i]) == Some(t)
    {
      assert i < |log| ==> more[..i] == log[..i] && more[i] == log[i];
    }
  }

  /** The record of the client's session can only sit under its token and platform. */
  ghost predicate OnlyUnder(table: Table, session: nat, token: Token, platform: Platform) {
    forall t :: t in table && table[t].attempt == session ==> t == token && table[t].platform == platform
  }

  /** Nothing but the server answered. */
  ghost predicate Honest(plan: nat -> Turn) {
    forall i :: !plan(i).delivery.Replaced?
  }

  

  /** The last call reached the server, whether or not its reply came back. */
  ghost predicate CancelArrived(link: Link)
    reads link
  {
    |link.log| > 0 && Reaches(link.plan(|link.log| - 1).delivery)
  }

  /** Between the calls of a run that holds a token. */
  ghost predicate Custody(link: Link, token: Token)
    reads link, link.server
  {
    && link.server.Valid() && Holding(link.log, token)
    && (Honest(link.plan) ==>
          Supported(link.platform) && QrProtocol.TokenIsValid(token)
          && link.session.Some? && link.session.value < link.server.created
          && OnlyUnder(link.server.table, link.session.value, token, link.platform))
  }

  /** The client's own session is out of the table and closed once, and no slot is held for it. */
  ghost predicate SettledSession(link: Link)
    reads link, link.server
  {
    && link.session.Some? && !InTable(link.server.table, link.session.value)
    && multiset(link.server.closed)[link.session.value] == 1
    && link.server.slots == |link.server.table|
  }

  /** The calls of a run up to its last refresh: each reply but the last had a token and a frame that could be shown. */
  ghost predicate Refreshing(log: seq<Exchange>, frameOk: nat -> bool) {
    && 0 < |log| <= 21
    && log[0].call.StartCall? && GoesOn(log[0].reply)
    && (forall i :: 1 <= i < |log| ==> log[i].call.RefreshCall?)
    && forall i :: 0 <= i < |log| - 1 ==> GoesOn(log[i].reply) && (log[i].reply.value.QrPixels? ==> frameOk(i))
  }

  /**
   The whole course of a run and its exit code. A start without a token ends it. Otherwise
   it refreshes for as long as replies have tokens and frames can be shown, at most twenty
   times, and cancels.
   */
  ghost predicate Course(log: seq<Exchange>, frameOk: nat -> bool, code: nat) {
    && log != [] && log[0].call.StartCall?
    && if !GoesOn(log[0].reply) then |log| == 1 && code == (if log[0].reply == Ok(NotAvailable) then 3 else 4)
       else
         var front := log[..|log| - 1];
         && log[|log| - 1].call.CancelCall? && Refreshing(front, frameOk)
         && var last := front[|front| - 1].reply;
            if GoesOn(last) then code == 4 && (|front| == 21 || (last.value.QrPixels? && !frameOk(|front| - 1)))
            else code == if last == Ok(NotAvailable) then 3 else 4
  }

  /** Sends the one cancel and reports `code`. */
  method CancelAndReport(link: Link, token: Token, code: nat) returns (exit: nat)
    requires Custody(link, token)
    modifies link`log, link.server
    ensures exit == code && |link.log| == |old(link.log)| + 1 && link.log[..|old(link.log)|] == old(link.log)
    ensures link.served == old(link.served)
    ensures link.server.Valid() && NamesLatest(link.log)
    ensures link.log[|link.log| - 1].call == CancelCall(token)
    ensures Honest(link.plan) && CancelArrived(link) ==> SettledSession(link)
  {
    var reply := link.Cancel(token);
    Extend(old(link.log), token, Exchange(CancelCall(token), reply));
    assert |link.log| - 1 == |old(link.log)|;
    return code;
  }

  /** One refresh; `held` says whether the client goes on, then under `token'`. */
  method RefreshOnce(link: Link, token: Token)
    returns (reply: Result<Outcome, ()>, held: bool, token': Token)
    requires Custody(link, token)
    modifies link`log, link.server
    ensures Custody(link, token')
    ensures link.log == old(link.log) + [Exchange(RefreshCall(token), reply)] && link.served == old(link.served)
    ensures held <==> GoesOn(reply)
  {
    ghost var answered;
    reply, answered := link.Refresh(token);
    Extend(old(link.log), token, Exchange(RefreshCall(token), reply));
    held := reply.Ok? && (reply.value.QrPixels? || reply.value.StillPending?);
    token' := if held then reply.value.token else token;
  }

  /** The start; `held` says whether it yielded a token. */
  method StartOnce(link: Link) returns (reply: Result<Outcome, ()>, held: bool, token: Token)
    requires link.server.Valid() && link.log == []
    modifies link, link.server
    ensures link.log == [Exchange(StartCall, reply)] && link.server.Valid() && NamesLatest(link.log)
    ensures held <==> GoesOn(reply)
    ensures held ==> Custody(link, token)
    ensures LeftBehind(link.served, link.plan(0).delivery) ==> Forgotten(link) && reply == Ok(Refused)
    ensures Welcome(link.served, link.plan(0).delivery) ==> reply == Ok(OutcomeOf(link.served.value)) && GoesOn(reply)
  {
    hide QrProtocol.RunnerAccepts;
    hide QrProtocol.IsPngText;
    hide QrProtocol.TokenIsValid;
    hide BrowserServes;
    hide AccountedFor;
    reply := link.Start();
    assert link.log[..1] == link.log && link.log[..0] == [];
    assert TokenAfter(link.log[..0]) == None;
    held := reply.Ok? && (reply.value.QrPixels? || reply.value.StillPending?);
    token := if held then reply.value.token else "";
    if link.served.Some? && link.served.value.QrAvailable? { QrProtocol.ChecksAgreeOnOneText(link.served.value.png); }
    if LeftBehind(link.served, link.plan(0).delivery) { OpenWhileRecorded(link.server, link.served.value.token); }
  }

  /** The server's genuine answer to the start carries an image its own check accepted and the client's refuses. */
  predicate LeftBehind(served: Option<Response>, delivery: Delivery) {
    served.Some? && served.value.QrAvailable? && delivery.Delivered? && served.value.png != QrProtocol.PREFIX
  }

  /** It carries the one image both accept. */
  predicate Welcome(served: Option<Response>, delivery: Delivery) {
    served.Some? && served.value.QrAvailable? && delivery.Delivered? && served.value.png == QrProtocol.PREFIX
  }

  /** The session behind the start is recorded and open, and holds its slot. */
  ghost predicate Forgotten(link: Link)
    reads link, link.server
    requires link.served.Some? && link.served.value.QrAvailable?
  {
    && link.served.value.token in link.server.table && link.server.slots > 0
    && link.session == Some(link.server.table[link.served.value.token].attempt)
    && link.session.value !in link.server.closed
  }

  lemma OpenWhileRecorded(server: Server, token: Token)
    requires server.Valid() && token in server.table
    ensures server.slots > 0 && server.table[token].attempt !in server.closed
  {
    var id := server.table[token].attempt;
    assert InTable(server.table, id);
    assert multiset(server.closed)[id] + TableHas(server.table, id) <= 1;
    assert |server.table.Keys| > 0;
  }

  lemma RefreshedOnce(log: seq<Exchange>, frameOk: nat -> bool, more: seq<Exchange>, e: Exchange)
    requires Refreshing(log, frameOk) && |log| <= MAX_REFRESHES && more == log + [e] && e.call.RefreshCall?
    requires var last := log[|log| - 1].reply; GoesOn(last) && (last.value.QrPixels? ==> frameOk(|log| - 1))
    ensures Refreshing(more, frameOk) && more[|more| - 1] == e && more[0] == log[0]
  {
  }

  lemma EndsCourse(log: seq<Exchange>, frameOk: nat -> bool, before: seq<Exchange>, code: nat)
    requires |log| == |before| + 1 && log[..|before|] == before && log[|before|].call.CancelCall?
    requires Refreshing(before, frameOk)
    requires var last := before[|before| - 1].reply;
      if GoesOn(last) then code == 4 && (|before| == MAX_REFRESHES + 1 || (last.value.QrPixels? && !frameOk(|before| - 1)))
      else code == if last == Ok(NotAvailable) then 3 else 4
    ensures Course(log, frameOk, code)
  {
    assert log[0] == before[0];
  }

  /**
   `run_terminal_qr_login`. Whatever the link and the other clients do, the client
   starts once, refreshes at most twenty times and only while it may, always names the
   latest token, and cancels exactly once, last, iff the start yielded a token. If only
   the server answers and the cancel reaches it, the session is gone and closed on return.
   If the start is answered with an image the runner accepts and the client does not, the
   run ends at once and leaves the session open.
   */
  method RunTerminalQrLogin(link: Link, frameOk: nat -> bool) returns (code: nat)
    requires link.server.Valid() && link.log == []
    modifies link, link.server
    ensures link.server.Valid() && NamesLatest(link.log)
    ensures Course(link.log, frameOk, code)
    ensures |link.log| > 1 && Honest(link.plan) && CancelArrived(link) ==> SettledSession(link)
    ensures LeftBehind(link.served, link.plan(0).delivery) ==> link.log == [Exchange(StartCall, Ok(Refused))] && code == 4 && Forgotten(link)
    ensures Welcome(link.served, link.plan(0).delivery) ==> |link.log| > 1 && link.log[0] == Exchange(StartCall, Ok(OutcomeOf(link.served.value)))
  {
    hide NamesLatest;
    hide Custody;
    hide Course;
    hide Refreshing;
    hide Honest;
    hide CancelArrived;
    hide SettledSession;
    hide LeftBehind;
    hide Welcome;
    hide Forgotten;
    var initial, held, token := StartOnce(link);
    if !held {
      code := if initial.Ok? && initial.value.NotAvailable? then 3 else 4;
      StartEnds(initial, frameOk);
      return;
    }
    var pixels := initial.value.QrPixels?;
    ghost var served := link.served;
    StartGoesOn(initial, frameOk);
    for refresh := 0 to MAX_REFRESHES + 1
      invariant refresh <= MAX_REFRESHES
      invariant |link.log| == refresh + 1 && Custody(link, token)
      invariant Refreshing(link.log, frameOk) && GoesOn(link.log[refresh].reply)
      invariant pixels <==> link.log[refresh].reply.value.QrPixels?
      invariant link.log[0] == Exchange(StartCall, initial)
      invariant link.served == served
    {
      ghost var before := link.log;
      if pixels {
        pixels := false;
        if !frameOk(refresh) {
          code := CancelAndReport(link, token, 4);
          EndsCourse(link.log, frameOk, before, code);
          return;
        }
      }
      if refresh == MAX_REFRESHES {
        code := CancelAndReport(link, token, 4);
        EndsCourse(link.log, frameOk, before, code);
        return;
      }
      var reply;
      reply, held, token := RefreshOnce(link, token);
      ghost var front := link.log;
      RefreshedOnce(before, frameOk, front, front[refresh + 1]);
      if !held {
        code := CancelAndReport(link, token, if reply.Ok? && reply.value.NotAvailable? then 3 else 4);
        EndsCourse(link.log, frameOk, front, code);
        return;
      }
      pixels := reply.value.QrPixels?;
    }
    assert false;
  }

  lemma StartEnds(reply: Result<Outcome, ()>, frameOk: nat -> bool)
    requires !GoesOn(reply)
    ensures Course([Exchange(StartCall, reply)], frameOk, if reply == Ok(NotAvailable) then 3 else 4)
  {
  }

  lemma StartGoesOn(reply: Result<Outcome, ()>, frameOk: nat -> bool)
    requires GoesOn(reply)
    ensures Refreshing([Exchange(StartCall, reply)], frameOk)
  {
  }
}
