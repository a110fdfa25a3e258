/** Provider dispatch and the two places that classify its report. */
module Registry {
  import opened Platforms
  import opened Wrappers
  import opened Jobs

  datatype DispatchOutcome = Accepted | NotAvailable | Refused

  /** An installed provider: whether it declares itself available, and how it answers a request. */
  datatype Provider = Provider(available: bool, enqueue: Request -> Result<DispatchOutcome, ()>)

  type Providers = map<Platform, Provider>
  type Report = map<Platform, DispatchOutcome>

  /** `PublishRequest::validate` as far as targets go: the set of targets is as large as the list. */
  method Validate(r: Request) returns (ok: bool)
    ensures ok <==> Validates(r)
    ensures ok <==> r.sane && r.targets != [] && forall i, j :: 0 <= i < j < |r.targets| ==> r.targets[i] != r.targets[j]
  {
    if !r.sane || r.targets == [] {
      return false;
    }
    var seen: set<Platform> := {};
    for i := 0 to |r.targets|
      invariant forall p :: p in seen <==> p in r.targets[..i]
      invariant forall k, j :: 0 <= k < j < i ==> r.targets[k] != r.targets[j]
    {
      if r.targets[i] in seen {
        return false;
      }
      seen := seen + {r.targets[i]};
    }
    return true;
  }

  /** One target's outcome: absent and unavailable providers are ordinary results, failures become refusals. */
  function OutcomeFor(providers: Providers, p: Platform, r: Request): DispatchOutcome {
    if p !in providers || !providers[p].available then NotAvailable
    else match providers[p].enqueue(r)
         case Ok(outcome) => outcome
         case Err(_) => Refused
  }

  method Dispatch(providers: Providers, p: Platform, r: Request) returns (outcome: Result<DispatchOutcome, ()>)
    ensures !Validates(r) || p !in r.targets ==> outcome.Err?
    ensures Validates(r) && p in r.targets ==>
      && (p !in providers || !providers[p].available ==> outcome == Ok(NotAvailable))
      && (p in providers && providers[p].available ==> outcome == providers[p].enqueue(r))
      && OutcomeFor(providers, p, r) == if outcome.Ok? then outcome.value else Refused
  {
    var ok := Validate(r);
    if !ok || p !in r.targets { return Err(()); }
    if p !in providers { return Ok(NotAvailable); }
    if !providers[p].available { return Ok(NotAvailable); }
    return providers[p].enqueue(r);
  }

  /** Every requested target gets exactly one outcome; a malformed request none. */
  method DispatchAll(providers: Providers, r: Request) returns (result: Result<Report, ()>)
    ensures result.Ok? <==> Validates(r)
    ensures result.Ok? ==> result.value == ReportOf(providers, r)
  {
    var ok := Validate(r);
    if !ok { return Err(()); }
    var outcomes: Report := map[];
    for i := 0 to |r.targets|
      invariant outcomes == map p | p in r.targets[..i] :: OutcomeFor(providers, p, r)
    {
      var one := Dispatch(providers, r.targets[i], r);
      outcomes := outcomes[r.targets[i] := if one.Ok? then one.value else Refused];
    }
    assert r.targets[..|r.targets|] == r.targets;
    return Ok(outcomes);
  }

  function ReportOf(providers: Providers, r: Request): Report {
    map p | p in r.targets :: OutcomeFor(providers, p, r)
  }

  /** A provider that is missing or says so is unavailable; one that fails refuses; any other answer is the outcome. */
  lemma ReportMeans(providers: Providers, r: Request)
    ensures var report := ReportOf(providers, r);
      && (forall p :: p in report <==> p in r.targets)
      && forall p :: p in r.targets ==>
           if p !in providers || !providers[p].available then report[p] == NotAvailable
           else if providers[p].enqueue(r).Err? then report[p] == Refused
           else report[p] == providers[p].enqueue(r).value
  {
  }

  predicate All(report: Report, outcome: DispatchOutcome) {
    forall p :: p in report ==> report[p] == outcome
  }

  /** The storage layer's classification of a report. */
  function StoredOutcome(report: Report): PublishState {
    if report != map[] && All(report, Accepted) then Published
    else if report != map[] && All(report, NotAvailable) then PublishState.Unavailable
    else Failed
  }

  /** The scheduler's classification of the same report, or of a failed dispatch. */
  function TickOutcome(result: Result<Report, ()>): PublishState {
    match result
    case Ok(report) =>
      if All(report, Accepted) then Published
      else if All(report, NotAvailable) then PublishState.Unavailable
      else Failed
    case Err(_) => Failed
  }

  /** The storage layer says so of reports that are not empty. */
  lemma StoredOutcomeMeans(report: Report)
    ensures var state := StoredOutcome(report);
      && (state == Published <==> report != map[] && forall p :: p in report ==> report[p] == Accepted)
      && (state == PublishState.Unavailable <==> report != map[] && forall p :: p in report ==> report[p] == NotAvailable)
      && (state == Published || state == PublishState.Unavailable || state == Failed)
  {
    if report != map[] {
      var p :| p in report;
    }
  }

  /** Published if every target accepted, unavailable if none was available, failed otherwise, also without a report. */
  lemma TickOutcomeMeans(result: Result<Report, ()>)
    ensures TickOutcome(result) == Published <==> result.Ok? && forall p :: p in result.value ==> result.value[p] == Accepted
    ensures TickOutcome(result) == PublishState.Unavailable <==>
      result.Ok? && result.value != map[] && forall p :: p in result.value ==> result.value[p] == NotAvailable
    ensures TickOutcome(result) == Published || TickOutcome(result) == PublishState.Unavailable || TickOutcome(result) == Failed
  {
    if result.Ok? && result.value != map[] {
      var p :| p in result.value;
    }
  }

  /** The classifications differ on the empty report only. */
  lemma ClassifiersAgree(report: Report)
    ensures TickOutcome(Ok(report)) == StoredOutcome(report) <==> report != map[]
  {
    if report == map[] { assert All(report, Accepted); }
  }

  /** A dispatched report is keyed by exactly the targets, hence never empty, so both classifiers agree on it. */
  lemma DispatchedReportsAgree(providers: Providers, r: Request)
    requires Validates(r)
    ensures forall p :: p in ReportOf(providers, r) <==> p in r.targets
    ensures TickOutcome(Ok(ReportOf(providers, r))) == StoredOutcome(ReportOf(providers, r))
  {
    assert r.targets[0] in ReportOf(providers, r);
  }

  // ---------------------------------------------------------------- articles

  datatype ArticleReply = ArticleAccepted | ArticleUnavailable | ArticleRefused | ArticleFailed

  function ArticleOutcome(reply: Option<ArticleReply>): PublishState {
    match reply
    case None => PublishState.Unavailable
    case Some(ArticleAccepted) => Published
    case Some(ArticleUnavailable) => PublishState.Unavailable
    case Some(_) => Failed
  }
}
