/** Querying the publication history: filter, newest first, at most so many. */
module HistoryQuery {
  import opened Platforms
  import opened Wrappers
  import opened Text
  import opened Jobs

  /** A stored record; `day` is the local date its time falls on. */
  datatype Record = Record(id: string, recordedAt: int, day: int, targets: seq<Platform>, state: PublishState, phone: Option<string>)

  datatype Status = Success | Failure | Publishing | Scheduled

  datatype Query = Query(
    cutoff: Option<int>,
    platform: Option<Platform>,
    status: Option<Status>,
    phone: Option<string>,
    since: Option<int>,
    until: Option<int>,
    limit: nat)

  predicate HasStatus(status: Status, state: PublishState) {
    match status
    case Success => state.Published?
    case Failure => state.Failed?
    case Publishing => state.Dispatching?
    case Scheduled => state.Queued?
  }

  predicate Matches(q: Query, r: Record) {
    && (q.cutoff.Some? ==> r.recordedAt >= q.cutoff.value)
    && (q.platform.Some? ==> q.platform.value in r.targets)
    && (q.status.Some? ==> HasStatus(q.status.value, r.state))
    && (q.phone.Some? ==> r.phone == q.phone)
    && (q.since.Some? ==> r.day >= q.since.value)
    && (q.until.Some? ==> r.day <= q.until.value)
  }

  /** Newest first, then by id. */
  predicate Precedes(a: Record, b: Record) {
    a.recordedAt > b.recordedAt || (a.recordedAt == b.recordedAt && LexLe(a.id, b.id))
  }

  ghost predicate Sorted(s: seq<Record>) {
    forall i, j :: 0 <= i < j < |s| ==> Precedes(s[i], s[j])
  }

  ghost predicate UniqueIds(s: seq<Record>) {
    forall i, j :: 0 <= i < j < |s| ==> s[i].id != s[j].id
  }

  function Matching(q: Query, history: seq<Record>): seq<Record> {
    if history == [] then []
    else
      var front, last := Matching(q, history[..|history| - 1]), history[|history| - 1];
      if Matches(q, last) then front + [last] else front
  }

  /** `r` is the front of the matching records in query order. */
  ghost predicate IsAnswer(q: Query, history: seq<Record>, r: seq<Record>) {
    exists all :: Sorted(all) && multiset(all) == multiset(Matching(q, history)) && r == all[..Shorter(q.limit, |all|)]
  }

  function Shorter(a: nat, b: nat): (m: nat)
    ensures m <= a && m <= b
  {
    if a < b then a else b
  }

  lemma PrecedesIsOrder(a: Record, b: Record, c: Record)
    ensures Precedes(a, b) || Precedes(b, a)
    ensures Precedes(a, b) && Precedes(b, c) ==> Precedes(a, c)
    ensures Precedes(a, b) && Precedes(b, a) ==> a.id == b.id
  {
    LexTotal(a.id, b.id);
    if LexLe(a.id, b.id) && LexLe(b.id, c.id) { LexTransitive(a.id, b.id, c.id); }
  }

  /** Where a record goes among sorted ones: behind everything that precedes it. */
  method Place(s: seq<Record>, r: Record) returns (at: nat)
    requires Sorted(s)
    ensures at <= |s|
    ensures forall i :: 0 <= i < at ==> Precedes(s[i], r)
    ensures forall i :: at <= i < |s| ==> Precedes(r, s[i])
  {
    hide Precedes;
    at := 0;
    while at < |s| && Precedes(s[at], r)
      invariant at <= |s| && forall i :: 0 <= i < at ==> Precedes(s[i], r)
    {
      at := at + 1;
    }
    if at < |s| {
      PrecedesIsOrder(s[at], r, r);
      forall i | at <= i < |s| ensures Precedes(r, s[i]) {
        PrecedesIsOrder(r, s[at], s[i]);
      }
    }
  }

  /** Sorts by inserting record after record. */
  method Sort(s: seq<Record>) returns (sorted: seq<Record>)
    ensures Sorted(sorted) && multiset(sorted) == multiset(s)
  {
    hide Precedes;
    sorted := [];
    for i := 0 to |s|
      invariant Sorted(sorted) && multiset(sorted) == multiset(s[..i])
    {
      assert s[..i + 1] == s[..i] + [s[i]];
      var at := Place(sorted, s[i]);
      assert sorted == sorted[..at] + sorted[at..];
      sorted := sorted[..at] + [s[i]] + sorted[at..];
    }
    assert s[..|s|] == s;
  }

  method Filter(q: Query, history: seq<Record>) returns (r: seq<Record>)
    ensures IsAnswer(q, history, r)
  {
    hide Matches;
    hide Sorted;
    var retained := [];
    for i := 0 to |history|
      invariant retained == Matching(q, history[..i])
    {
      assert history[..i + 1][..i] == history[..i];
      if Matches(q, history[i]) { retained := retained + [history[i]]; }
    }
    assert history[..|history|] == history;
    var sorted := Sort(retained);
    r := sorted[..Shorter(q.limit, |sorted|)];
  }

  // ------------------------------------------------------------------- laws

  lemma {:induction false} MatchingCounts(q: Query, history: seq<Record>, x: Record)
    ensures multiset(Matching(q, history))[x] == if Matches(q, x) then multiset(history)[x] else 0
  {
    if history != [] {
      MatchingCounts(q, history[..|history| - 1], x);
      assert history == history[..|history| - 1] + [history[|history| - 1]];
    }
  }

  /** Records are retained or dropped one by one, in place and with their multiplicity. */
  lemma {:induction false} MatchingSplits(q: Query, front: seq<Record>, x: Record, back: seq<Record>)
    ensures Matching(q, front + [x] + back) ==
      Matching(q, front) + (if Matches(q, x) then [x] else []) + Matching(q, back)
    ensures multiset(Matching(q, front))[x] == if Matches(q, x) then multiset(front)[x] else 0
    decreases |back|
  {
    MatchingCounts(q, front, x);
    var all := front + [x] + back;
    if back == [] {
      assert all == front + [x] && all[..|all| - 1] == front;
    } else {
      MatchingSplits(q, front, x, back[..|back| - 1]);
      assert all[..|all| - 1] == front + [x] + back[..|back| - 1];
    }
  }

  lemma MatchingMember(q: Query, history: seq<Record>, x: Record)
    ensures x in Matching(q, history) <==> x in history && Matches(q, x)
  {
    MatchingCounts(q, history, x);
    assert x in history <==> multiset(history)[x] > 0;
    assert x in Matching(q, history) <==> multiset(Matching(q, history))[x] > 0;
  }

  /** Records of one history are told apart by their ids. */
  lemma SameIdSameRecord(history: seq<Record>, a: Record, b: Record)
    requires UniqueIds(history) && a in history && b in history && a.id == b.id
    ensures a == b
  {
    var i :| 0 <= i < |history| && history[i] == a;
    var j :| 0 <= j < |history| && history[j] == b;
  }

  /** Sorting has one result when no two records share an id. */
  lemma {:induction false} SortedOnce(history: seq<Record>, s: seq<Record>, t: seq<Record>)
    requires UniqueIds(history) && Sorted(s) && Sorted(t) && multiset(s) == multiset(t)
    requires forall x :: x in s ==> x in history
    ensures s == t
    decreases |s|
  {
    assert |s| == |multiset(s)| == |multiset(t)| == |t|;
    if s != [] {
      HeadsAgree(history, s, t);
      assert s == [s[0]] + s[1..] && t == [t[0]] + t[1..];
      assert multiset(s[1..]) == multiset(s) - multiset{s[0]} == multiset(t[1..]);
      SortedOnce(history, s[1..], t[1..]);
    }
  }

  lemma HeadsAgree(history: seq<Record>, s: seq<Record>, t: seq<Record>)
    requires UniqueIds(history) && Sorted(s) && Sorted(t) && multiset(s) == multiset(t) && s != [] && t != []
    requires forall x :: x in s ==> x in history
    ensures s[0] == t[0]
  {
    assert s[0] in multiset(t) && t[0] in multiset(s);
    var i :| 0 <= i < |t| && t[i] == s[0];
    var j :| 0 <= j < |s| && s[j] == t[0];
    PrecedesIsOrder(s[0], s[0], s[0]);
    PrecedesIsOrder(t[0], t[0], t[0]);
    assert Precedes(t[0], s[0]) && Precedes(s[0], t[0]);
    PrecedesIsOrder(s[0], t[0], s[0]);
    SameIdSameRecord(history, s[0], t[0]);
  }

  /** The answer depends on which records are stored, not on the order they are stored in. */
  lemma AnswerIgnoresStorageOrder(q: Query, history: seq<Record>, shuffled: seq<Record>, r: seq<Record>, s: seq<Record>)
    requires UniqueIds(history) && multiset(history) == multiset(shuffled)
    requires IsAnswer(q, history, r) && IsAnswer(q, shuffled, s)
    ensures r == s
  {
    var a :| Sorted(a) && multiset(a) == multiset(Matching(q, history)) && r == a[..Shorter(q.limit, |a|)];
    var b :| Sorted(b) && multiset(b) == multiset(Matching(q, shuffled)) && s == b[..Shorter(q.limit, |b|)];
    forall x ensures multiset(a)[x] == multiset(b)[x] {
      MatchingCounts(q, history, x);
      MatchingCounts(q, shuffled, x);
    }
    assert multiset(a) == multiset(b);
    forall x | x in a ensures x in history {
      assert x in multiset(a);
      MatchingMember(q, history, x);
    }
    SortedOnce(history, a, b);
  }

  /**
   The answer holds matching records only, in order, as many as there are up to the limit,
   and no match it leaves out would have come before one it returns.
   */
  lemma AnswerIsTheFront(q: Query, history: seq<Record>, r: seq<Record>, x: Record)
    requires IsAnswer(q, history, r)
    ensures Sorted(r) && |r| == Shorter(q.limit, |Matching(q, history)|)
    ensures x in r ==> x in history && Matches(q, x)
    ensures x in history && Matches(q, x) && x !in r ==> |r| == q.limit && forall i :: 0 <= i < |r| ==> Precedes(r[i], x)
  {
    var all :| Sorted(all) && multiset(all) == multiset(Matching(q, history)) && r == all[..Shorter(q.limit, |all|)];
    assert |all| == |multiset(all)| == |Matching(q, history)|;
    MatchingMember(q, history, x);
    assert x in all <==> x in multiset(all);
    assert x in Matching(q, history) <==> x in multiset(Matching(q, history));
    if x in history && Matches(q, x) && x !in r {
      var k :| 0 <= k < |all| && all[k] == x;
      assert k >= |r|;
    }
  }

  /**
   What the answer is, said of the records themselves: not older than the cutoff, for the platform,
   in the state, of the account and within the days asked for, all bounds inclusive; newest first,
   equal times by identifier; a record that qualifies is only missing if the answer is full and
   everything in it comes no later.
   */
  lemma AnswerInWords(q: Query, history: seq<Record>, r: seq<Record>, x: Record)
    requires IsAnswer(q, history, r) && x in history
    ensures var state := x.state;
      var qualifies :=
        && (q.cutoff.Some? ==> q.cutoff.value <= x.recordedAt)
        && (q.platform.Some? ==> q.platform.value in x.targets)
        && (q.status == Some(Success) ==> state == Published) && (q.status == Some(Failure) ==> state == Failed)
        && (q.status == Some(Publishing) ==> state == Dispatching) && (q.status == Some(Scheduled) ==> state == Queued)
        && (q.phone.Some? ==> x.phone.Some? && x.phone.value == q.phone.value)
        && (q.since.Some? ==> q.since.value <= x.day) && (q.until.Some? ==> x.day <= q.until.value);
      && (x in r ==> qualifies)
      && (qualifies && x !in r ==>
            |r| == q.limit && forall i :: 0 <= i < |r| ==>
              r[i].recordedAt > x.recordedAt || (r[i].recordedAt == x.recordedAt && LexLe(r[i].id, x.id)))
    ensures |r| <= q.limit
    ensures forall i, j :: 0 <= i < j < |r| ==>
      r[i].recordedAt > r[j].recordedAt || (r[i].recordedAt == r[j].recordedAt && LexLe(r[i].id, r[j].id))
  {
    AnswerIsTheFront(q, history, r, x);
    hide IsAnswer;
    assert Sorted(r);
  }
}
