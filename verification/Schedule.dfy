/**
 Local schedules are stored and compared as text. This module relates the order of
 the texts to the order of the moments they denote.
 */
module Schedule {
  import opened Wrappers
  import opened Text
  import Jobs

  datatype Stamp = Stamp(year: int, month: nat, day: nat, hour: nat, minute: nat, second: nat)

  predicate LeapYear(y: int) { y % 4 == 0 && (y % 100 != 0 || y % 400 == 0) }

  function DaysIn(year: int, month: nat): nat {
    if month == 2 then (if LeapYear(year) then 29 else 28)
    else if month == 4 || month == 6 || month == 9 || month == 11 then 30
    else 31
  }

  /** The date library's range of years. */
  const MIN_YEAR: int := -262143
  const MAX_YEAR: int := 262142

  predicate ValidClock(t: Stamp) {
    && 1 <= t.month <= 12 && 1 <= t.day <= DaysIn(t.year, t.month)
    && t.hour <= 23 && t.minute <= 59 && t.second <= 60
  }

  /** Second 60 is a leap second, which the parser lets through. */
  predicate Valid(t: Stamp) { MIN_YEAR <= t.year <= MAX_YEAR && ValidClock(t) }

  /** Moments with a four-digit year, such as the scheduler's current time. */
  predicate Printable(t: Stamp) { 0 <= t.year <= 9999 && ValidClock(t) }

  /** The order of moments: years first, seconds last. */
  predicate ChronLe(a: Stamp, b: Stamp) {
    if a.year != b.year then a.year < b.year
    else if a.month != b.month then a.month < b.month
    else if a.day != b.day then a.day < b.day
    else if a.hour != b.hour then a.hour < b.hour
    else if a.minute != b.minute then a.minute < b.minute
    else a.second <= b.second
  }

  // --------------------------------------------------------------- rendering

  /** What `%m`, `%d`, `%H`, `%M` and `%S` stand for. */
  type Units = u: seq<nat> | |u| == 5 && forall k :: 0 <= k < 5 ==> u[k] < 100 witness [0, 0, 0, 0, 0]

  function UnitsOf(t: Stamp): Units
    requires ValidClock(t)
  {
    [t.month, t.day, t.hour, t.minute, t.second]
  }

  function Two(n: nat): (s: string)
    requires n < 100
    ensures |s| == 2
  {
    [DigitChar(n / 10), DigitChar(n % 10)]
  }

  function Four(n: nat): (s: string)
    requires n < 10000
    ensures |s| == 4
  {
    Two(n / 100) + Two(n % 100)
  }

  predicate IsDigit(c: char) { '0' <= c <= '9' }

  /** Unicode white space, which the parser skips in front of every number. */
  predicate IsBlank(c: char) {
    var n := c as int;
    || 9 <= n <= 13 || n == 0x20 || n == 0x85 || n == 0xA0 || n == 0x1680 || 0x2000 <= n <= 0x200A
    || n == 0x2028 || n == 0x2029 || n == 0x202F || n == 0x205F || n == 0x3000
  }

  predicate AllBlank(s: string) { forall i :: 0 <= i < |s| ==> IsBlank(s[i]) }

  /** For each unit, the blanks in front of it and whether it lacks its leading zero. */
  datatype Spelling = Spelling(gaps: seq<string>, short: seq<bool>)

  /** The hour's gap is the separator after the day; a short day needs one. */
  predicate Spells(u: Units, sp: Spelling) {
    && |sp.gaps| == 5 && |sp.short| == 5
    && (forall k :: 0 <= k < 5 ==> AllBlank(sp.gaps[k]) && (sp.short[k] ==> u[k] < 10))
    && (sp.short[1] ==> sp.gaps[2] != "")
  }

  const PADDED: Spelling := Spelling(["", "", " ", "", ""], [false, false, false, false, false])

  function Field(n: nat, short: bool): string
    requires n < 100 && (short ==> n < 10)
  {
    if short then [DigitChar(n)] else Two(n)
  }

  /** The literal after each unit; the day is followed by the hour's gap only. */
  function Stop(k: nat): string
    requires k < 4
  {
    if k == 0 then "-" else if k == 1 then "" else ":"
  }

  /** The text from unit `k` to the end. */
  function Tail(u: Units, sp: Spelling, k: nat): string
    requires Spells(u, sp) && k < 5
    decreases 5 - k
  {
    sp.gaps[k] + (Field(u[k], sp.short[k]) + if k == 4 then "" else Stop(k) + Tail(u, sp, k + 1))
  }

  /** The zero-padded form, which is what the scheduler prints for the current time. */
  function Format(t: Stamp): string
    requires Printable(t)
  {
    Four(t.year) + ("-" + Tail(UnitsOf(t), PADDED, 0))
  }

  // ----------------------------------------------------------------- parsing

  function SkipBlanks(s: string): string {
    if s != [] && IsBlank(s[0]) then SkipBlanks(s[1..]) else s
  }

  /** One or two digits, taking the second whenever it is there. */
  function ReadDigitPair(s: string): Option<(nat, string)> {
    if s == [] || !IsDigit(s[0]) then None
    else if |s| > 1 && IsDigit(s[1]) then Some((10 * DigitValue(s[0]) + DigitValue(s[1]), s[2..]))
    else Some((DigitValue(s[0]), s[1..]))
  }

  function ReadNumber(s: string): Option<(nat, string)> { ReadDigitPair(SkipBlanks(s)) }

  /** The units from `k` on; nothing may follow the last one. */
  function ReadUnits(s: string, k: nat): (r: Option<seq<nat>>)
    requires k < 5
    ensures r.Some? ==> |r.value| == 5 - k
    decreases 5 - k
  {
    match ReadNumber(s)
    case None => None
    case Some((n, rest)) =>
      if k == 4 then (if rest == [] then Some([n]) else None)
      else if !(Stop(k) <= rest) then None
      else
        match ReadUnits(rest[|Stop(k)|..], k + 1)
        case None => None
        case Some(units) => Some([n] + units)
  }

  /** How many digits a text starts with, counting at most `max`. */
  function Digits(s: string, max: nat): (n: nat)
    ensures n <= max && n <= |s|
    ensures forall i :: 0 <= i < n ==> IsDigit(s[i])
    ensures n < max && n < |s| ==> !IsDigit(s[n])
  {
    if max == 0 || s == [] || !IsDigit(s[0]) then 0 else 1 + Digits(s[1..], max - 1)
  }

  /** The digits a year starts with once blanks and sign are gone, and what follows them. */
  function ReadDigits(s: string, max: nat): Option<(nat, string)> {
    var n := Digits(s, max);
    if n == 0 then None else Some((NumberOf(s[..n]), s[n..]))
  }

  /** A year: up to four digits, or a sign and any number of them. */
  function ReadSigned(s: string): Option<(int, string)> {
    if s != [] && (s[0] == '-' || s[0] == '+') then
      match ReadDigits(s[1..], |s| - 1)
      case None => None
      case Some((n, rest)) => Some((if s[0] == '-' then 0 - n else n, rest))
    else
      match ReadDigits(s, 4)
      case None => None
      case Some((n, rest)) => Some((n, rest))
  }

  function ReadYear(s: string): Option<(int, string)> { ReadSigned(SkipBlanks(s)) }

  /** The moment a text denotes, if the parser accepts it. */
  function Parse(s: string): Option<Stamp> {
    match ReadYear(s)
    case None => None
    case Some((year, rest)) =>
      if rest == [] || rest[0] != '-' then None
      else
        match ReadUnits(rest[1..], 0)
        case None => None
        case Some(u) =>
          var t := Stamp(year, u[0], u[1], u[2], u[3], u[4]);
          if Valid(t) then Some(t) else None
  }

  // -------------------------------------------- what the parser makes of a text

  lemma {:induction false} SkipExactly(gap: string, s: string)
    requires AllBlank(gap) && (s == [] || !IsBlank(s[0]))
    ensures SkipBlanks(gap + s) == s
  {
    if gap == [] {
      assert gap + s == s;
    } else {
      assert (gap + s)[1..] == gap[1..] + s;
      SkipExactly(gap[1..], s);
    }
  }

  lemma {:induction false} BlanksSkipped(s: string) returns (gap: string)
    ensures AllBlank(gap) && s == gap + SkipBlanks(s)
  {
    hide IsBlank;
    if s != [] && IsBlank(s[0]) {
      var rest := BlanksSkipped(s[1..]);
      gap := [s[0]] + rest;
    } else {
      gap := "";
    }
  }

  lemma PairRead(n: nat, short: bool, rest: string)
    requires n < 100 && (short ==> n < 10)
    requires short ==> rest == [] || !IsDigit(rest[0])
    ensures ReadDigitPair(Field(n, short) + rest) == Some((n, rest)) && !IsBlank((Field(n, short) + rest)[0])
  {
    var s := Field(n, short) + rest;
    assert s[|Field(n, short)|..] == rest;
  }

  lemma ReadField(gap: string, n: nat, short: bool, rest: string)
    requires AllBlank(gap) && n < 100 && (short ==> n < 10)
    requires short ==> rest == [] || !IsDigit(rest[0])
    ensures ReadNumber(gap + (Field(n, short) + rest)) == Some((n, rest))
  {
    PairRead(n, short, rest);
    hide IsBlank;
    hide ReadDigitPair;
    hide Field;
    SkipExactly(gap, Field(n, short) + rest);
  }

  lemma ReadPair(s: string)
    requires ReadDigitPair(s).Some?
    ensures var (n, rest) := ReadDigitPair(s).value;
      var short := |s| < 2 || !IsDigit(s[1]);
      n < 100 && (short ==> n < 10 && (rest == [] || !IsDigit(rest[0]))) && s == Field(n, short) + rest
  {
  }

  lemma FieldRead(s: string) returns (gap: string, short: bool)
    requires ReadNumber(s).Some?
    ensures var (n, rest) := ReadNumber(s).value;
      && AllBlank(gap) && n < 100 && (short ==> n < 10 && (rest == [] || !IsDigit(rest[0])))
      && s == gap + (Field(n, short) + rest)
  {
    hide ReadDigitPair;
    hide Field;
    hide IsBlank;
    gap := BlanksSkipped(s);
    var r := SkipBlanks(s);
    ReadPair(r);
    short := |r| < 2 || !IsDigit(r[1]);
  }

  /** Spelled-out units read back, whatever the blanks and however many zeros are missing. */
  lemma {:induction false} ReadTail(u: Units, sp: Spelling, k: nat)
    requires Spells(u, sp) && k < 5
    ensures ReadUnits(Tail(u, sp, k), k) == Some(u[k..])
    decreases 5 - k
  {
    hide ReadNumber;
    hide Field;
    hide IsBlank;
    if k < 4 {
      var tail := Tail(u, sp, k + 1);
      ReadTail(u, sp, k + 1);
      if sp.short[k] { NextIsNoDigit(u, sp, k); }
      ReadField(sp.gaps[k], u[k], sp.short[k], Stop(k) + tail);
      assert (Stop(k) + tail)[|Stop(k)|..] == tail;
      assert u[k..] == [u[k]] + u[k + 1..];
    } else {
      ReadField(sp.gaps[4], u[4], sp.short[4], "");
      assert u[4..] == [u[4]];
    }
  }

  lemma NextIsNoDigit(u: Units, sp: Spelling, k: nat)
    requires Spells(u, sp) && k < 4 && sp.short[k]
    ensures var rest := Stop(k) + Tail(u, sp, k + 1); rest != [] && !IsDigit(rest[0])
  {
    hide Field;
    if k == 1 {
      var gap := sp.gaps[2];
      assert Tail(u, sp, 2)[0] == gap[0] && IsBlank(gap[0]);
    }
  }

  /** Putting one more unit in front of spelled ones. */
  lemma SpellOne(w: Units, later: Spelling, k: nat, n: nat, gap: string, short: bool)
    requires Spells(w, later) && k < 4 && n < 100 && AllBlank(gap) && (short ==> n < 10)
    requires k == 1 && short ==> later.gaps[2] != ""
    requires k == 2 ==> !later.short[1]
    ensures var v: Units, sp := w[k := n], Spelling(later.gaps[k := gap], later.short[k := short]);
      Spells(v, sp) && Tail(v, sp, k) == gap + (Field(n, short) + (Stop(k) + Tail(w, later, k + 1)))
  {
    hide Field;
    hide IsBlank;
    var v: Units, sp := w[k := n], Spelling(later.gaps[k := gap], later.short[k := short]);
    SameTail(v, sp, w, later, k + 1);
  }

  /** Whatever the parser reads as units is such a spelling of them. */
  lemma {:induction false} UnitsAreSpelled(u: seq<nat>, s: string, k: nat) returns (v: Units, sp: Spelling)
    requires k < 5 && ReadUnits(s, k) == Some(u)
    ensures Spells(v, sp) && v[k..] == u && Tail(v, sp, k) == s
    ensures forall i :: 0 <= i < k ==> !sp.short[i]
    decreases 5 - k
  {
    hide ReadNumber;
    hide Field;
    hide IsBlank;
    var (n, rest) := ReadNumber(s).value;
    var gap, short := FieldRead(s);
    if k == 4 {
      v, sp := [0, 0, 0, 0, n], Spelling(["", "", "", "", gap], [false, false, false, false, short]);
      assert v[4..] == [n];
      assert Field(n, short) + "" == Field(n, short);
    } else {
      var w, later := UnitsAreSpelled(u[1..], rest[|Stop(k)|..], k + 1);
      assert rest == Stop(k) + Tail(w, later, k + 1);
      hide Tail;
      if k == 1 && short { ShortDayNeedsGap(w, later, rest); }
      SpellOne(w, later, k, n, gap, short);
      v, sp := w[k := n], Spelling(later.gaps[k := gap], later.short[k := short]);
      assert v[k..] == [n] + w[k + 1..];
    }
  }

  lemma ShortDayNeedsGap(w: Units, sp: Spelling, rest: string)
    requires Spells(w, sp) && rest == Stop(1) + Tail(w, sp, 2) && (rest == [] || !IsDigit(rest[0]))
    ensures sp.gaps[2] != ""
  {
    var field := Field(w[2], sp.short[2]);
    assert IsDigit(field[0]);
    assert rest == sp.gaps[2] + (field + (Stop(2) + Tail(w, sp, 3)));
  }

  lemma {:induction false} SameTail(u: Units, sp: Spelling, v: Units, sq: Spelling, k: nat)
    requires Spells(u, sp) && Spells(v, sq) && k < 5
    requires forall i :: k <= i < 5 ==> u[i] == v[i] && sp.gaps[i] == sq.gaps[i] && sp.short[i] == sq.short[i]
    ensures Tail(u, sp, k) == Tail(v, sq, k)
    decreases 5 - k
  {
    if k < 4 { SameTail(u, sp, v, sq, k + 1); }
  }

  predicate AllDigits(s: string) { forall i :: 0 <= i < |s| ==> IsDigit(s[i]) }

  /** A year as it may be written: blanks, perhaps a sign, and digits, at most four if there is no sign. */
  datatype YearText = YearText(lead: string, sign: string, digits: string)

  predicate SpellsYear(y: YearText, year: int) {
    && AllBlank(y.lead) && y.digits != "" && AllDigits(y.digits)
    && match y.sign
       case "" => |y.digits| <= 4 && year == NumberOf(y.digits)
       case "+" => year == NumberOf(y.digits)
       case "-" => year == 0 - NumberOf(y.digits)
       case _ => false
  }

  function YearString(y: YearText): string { y.lead + (y.sign + y.digits) }

  lemma {:induction false} DigitsExactly(digits: string, rest: string, max: nat)
    requires AllDigits(digits) && |digits| <= max && (rest == [] || !IsDigit(rest[0]))
    ensures Digits(digits + rest, max) == |digits|
  {
    if digits == [] {
      assert digits + rest == rest;
    } else {
      assert (digits + rest)[1..] == digits[1..] + rest;
      DigitsExactly(digits[1..], rest, max - 1);
    }
  }

  lemma ReadExactly(digits: string, rest: string, max: nat)
    requires AllDigits(digits) && 0 < |digits| <= max && (rest == [] || !IsDigit(rest[0]))
    ensures ReadDigits(digits + rest, max) == Some((NumberOf(digits), rest))
  {
    DigitsExactly(digits, rest, max);
    assert (digits + rest)[..|digits|] == digits && (digits + rest)[|digits|..] == rest;
  }

  lemma DigitsRead(s: string, max: nat) returns (digits: string)
    requires ReadDigits(s, max).Some?
    ensures AllDigits(digits) && 0 < |digits| <= max
    ensures ReadDigits(s, max).value.0 == NumberOf(digits) && s == digits + ReadDigits(s, max).value.1
  {
    digits := s[..Digits(s, max)];
  }

  lemma ReadSpelledYear(y: YearText, year: int, rest: string)
    requires SpellsYear(y, year) && rest != [] && rest[0] == '-'
    ensures ReadYear(YearString(y) + rest) == Some((year, rest))
  {
    hide ReadDigits;
    hide NumberOf;
    var s := y.sign + (y.digits + rest);
    assert IsDigit(y.digits[0]);
    assert s[0] == if y.sign == "" then y.digits[0] else y.sign[0];
    assert YearString(y) + rest == y.lead + s by { Joined(y.lead, y.sign, y.digits, rest); }
    assert ReadSigned(s) == Some((year, rest)) by { ReadSignedYear(y, year, rest); }
    assert !IsBlank(s[0]);
    hide IsBlank;
    hide ReadSigned;
    hide SpellsYear;
    SkipExactly(y.lead, s);
  }

  lemma ReadSignedYear(y: YearText, year: int, rest: string)
    requires SpellsYear(y, year) && rest != [] && rest[0] == '-'
    ensures ReadSigned(y.sign + (y.digits + rest)) == Some((year, rest))
  {
    hide ReadDigits;
    hide NumberOf;
    hide AllBlank;
    var s := y.sign + (y.digits + rest);
    assert IsDigit(y.digits[0]);
    if y.sign == "" {
      assert s == y.digits + rest;
      ReadExactly(y.digits, rest, 4);
    } else {
      assert s[0] == y.sign[0] && s[1..] == y.digits + rest;
      ReadExactly(y.digits, rest, |s| - 1);
    }
  }

  lemma SignedIsSpelled(r: string) returns (sign: string, digits: string)
    requires ReadSigned(r).Some?
    ensures var (year, rest) := ReadSigned(r).value;
      SpellsYear(YearText("", sign, digits), year) && r == sign + (digits + rest)
  {
    hide ReadDigits;
    hide NumberOf;
    if r != [] && (r[0] == '-' || r[0] == '+') {
      sign := [r[0]];
      digits := DigitsRead(r[1..], |r| - 1);
      assert r == [r[0]] + r[1..];
    } else {
      sign := "";
      digits := DigitsRead(r, 4);
      assert r == "" + r;
    }
  }

  lemma YearIsSpelled(s: string) returns (y: YearText)
    requires ReadYear(s).Some?
    ensures var (year, rest) := ReadYear(s).value;
      SpellsYear(y, year) && s == YearString(y) + rest
  {
    var lead := BlanksSkipped(s);
    hide ReadSigned;
    hide SkipBlanks;
    hide NumberOf;
    hide AllDigits;
    hide AllBlank;
    var sign, digits := SignedIsSpelled(SkipBlanks(s));
    y := YearText(lead, sign, digits);
    Joined(lead, sign, digits, ReadYear(s).value.1);
  }

  lemma Joined(a: string, b: string, c: string, d: string)
    ensures a + (b + (c + d)) == a + (b + c) + d
  {
  }

  lemma ParseSpelled(year: int, u: Units, y: YearText, sp: Spelling)
    requires SpellsYear(y, year) && Spells(u, sp)
    ensures var t := Stamp(year, u[0], u[1], u[2], u[3], u[4]);
      Parse(YearString(y) + ("-" + Tail(u, sp, 0))) == if Valid(t) then Some(t) else None
  {
    hide ReadUnits;
    hide ReadYear;
    hide Tail;
    hide SpellsYear;
    hide YearString;
    var rest := "-" + Tail(u, sp, 0);
    ReadTail(u, sp, 0);
    ReadSpelledYear(y, year, rest);
    assert rest[1..] == Tail(u, sp, 0) && u[0..] == u;
  }

  /** A moment with its year and its units spelled out in any accepted way parses back to itself. */
  lemma ParseInvertsSpelling(t: Stamp, y: YearText, sp: Spelling)
    requires Valid(t) && SpellsYear(y, t.year) && Spells(UnitsOf(t), sp)
    ensures Parse(YearString(y) + ("-" + Tail(UnitsOf(t), sp, 0))) == Some(t)
  {
    hide Parse;
    hide Tail;
    hide SpellsYear;
    ParseSpelled(t.year, UnitsOf(t), y, sp);
  }

  /** Every accepted text is such a spelling of the moment it denotes, and nothing else is. */
  lemma AcceptedIsSpelled(s: string, t: Stamp) returns (y: YearText, sp: Spelling)
    requires Parse(s) == Some(t)
    ensures Valid(t) && SpellsYear(y, t.year) && Spells(UnitsOf(t), sp)
    ensures s == YearString(y) + ("-" + Tail(UnitsOf(t), sp, 0))
  {
    hide ReadUnits;
    hide ReadYear;
    hide Tail;
    hide SpellsYear;
    hide YearString;
    y := YearIsSpelled(s);
    var (year, rest) := ReadYear(s).value;
    var u;
    u, sp := UnitsAreSpelled(ReadUnits(rest[1..], 0).value, rest[1..], 0);
    assert u[0..] == u && UnitsOf(t) == u;
    assert rest == "-" + rest[1..];
  }

  // ------------------------------------------------------------------- order

  /** Texts with pieces of equal length in front are decided by these pieces unless they agree. */
  lemma {:induction false} LexPieces(p: string, q: string, x: string, y: string)
    requires |p| == |q|
    ensures LexLe(p + x, q + y) <==> if p == q then LexLe(x, y) else LexLe(p, q)
  {
    if p == [] {
      assert p + x == x && q + y == y;
    } else {
      LexPieces(p[1..], q[1..], x, y);
      assert (p + x)[1..] == p[1..] + x && (q + y)[1..] == q[1..] + y;
      assert p == [p[0]] + p[1..] && q == [q[0]] + q[1..];
    }
  }

  lemma OneOrder(a: nat, b: nat)
    requires a < 10 && b < 10
    ensures LexLe([DigitChar(a)], [DigitChar(b)]) <==> a <= b
    ensures DigitChar(a) == DigitChar(b) ==> a == b
  {
    assert [DigitChar(a)][1..] == [];
  }

  lemma TwoOrder(a: nat, b: nat)
    requires a < 100 && b < 100
    ensures LexLe(Two(a), Two(b)) <==> a <= b
    ensures Two(a) == Two(b) ==> a == b
  {
    LexPieces([DigitChar(a / 10)], [DigitChar(b / 10)], [DigitChar(a % 10)], [DigitChar(b % 10)]);
    assert Two(a) == [DigitChar(a / 10)] + [DigitChar(a % 10)] && Two(b) == [DigitChar(b / 10)] + [DigitChar(b % 10)];
    OneOrder(a / 10, b / 10);
    OneOrder(a % 10, b % 10);
  }

  lemma FourOrder(a: nat, b: nat)
    requires a < 10000 && b < 10000
    ensures LexLe(Four(a), Four(b)) <==> a <= b
    ensures Four(a) == Four(b) ==> a == b
  {
    LexPieces(Two(a / 100), Two(b / 100), Two(a % 100), Two(b % 100));
    TwoOrder(a / 100, b / 100);
    TwoOrder(a % 100, b % 100);
    if Four(a) == Four(b) {
      assert Four(a)[..2] == Two(a / 100) && Four(b)[..2] == Two(b / 100);
      assert Four(a)[2..] == Two(a % 100) && Four(b)[2..] == Two(b % 100);
    }
  }

  /** The order of units from `k` on. */
  predicate LaterLe(a: Units, b: Units, k: nat)
    requires k < 5
    decreases 5 - k
  {
    if k == 4 || a[k] != b[k] then a[k] <= b[k] else LaterLe(a, b, k + 1)
  }

  /** Padded units sort as the units do. */
  lemma {:induction false} TailOrder(a: Units, b: Units, k: nat)
    requires k < 5
    ensures LexLe(Tail(a, PADDED, k), Tail(b, PADDED, k)) <==> LaterLe(a, b, k)
    decreases 5 - k
  {
    var gap := PADDED.gaps[k];
    TwoOrder(a[k], b[k]);
    if k == 4 {
      LexPieces(gap, gap, Two(a[4]) + "", Two(b[4]) + "");
      assert Two(a[4]) + "" == Two(a[4]) && Two(b[4]) + "" == Two(b[4]);
    } else {
      var x, y := Tail(a, PADDED, k + 1), Tail(b, PADDED, k + 1);
      TailOrder(a, b, k + 1);
      hide Tail;
      LexPieces(Stop(k), Stop(k), x, y);
      LexPieces(Two(a[k]), Two(b[k]), Stop(k) + x, Stop(k) + y);
      LexPieces(gap, gap, Two(a[k]) + (Stop(k) + x), Two(b[k]) + (Stop(k) + y));
      PaddedTail(a, k);
      PaddedTail(b, k);
    }
  }

  lemma PaddedTail(u: Units, k: nat)
    requires k < 4
    ensures Tail(u, PADDED, k) == PADDED.gaps[k] + (Two(u[k]) + (Stop(k) + Tail(u, PADDED, k + 1)))
  {
  }

  /** For zero-padded schedules the text order the database uses is the order in time. */
  lemma TextOrderIsTimeOrder(a: Stamp, b: Stamp)
    requires Printable(a) && Printable(b)
    ensures LexLe(Format(a), Format(b)) <==> ChronLe(a, b)
  {
    hide Tail;
    hide Four;
    var u, v := UnitsOf(a), UnitsOf(b);
    var x, y := Tail(u, PADDED, 0), Tail(v, PADDED, 0);
    TailOrder(u, v, 0);
    LexPieces("-", "-", x, y);
    LexPieces(Four(a.year), Four(b.year), "-" + x, "-" + y);
    FourOrder(a.year, b.year);
    assert LaterLe(u, v, 0) <==> ChronLe(a, b.(year := a.year)) by { Unfolded(u, v); }
  }

  lemma Unfolded(u: Units, v: Units)
    ensures LaterLe(u, v, 0) <==>
      if u[0] != v[0] then u[0] < v[0] else if u[1] != v[1] then u[1] < v[1] else if u[2] != v[2] then u[2] < v[2]
      else if u[3] != v[3] then u[3] < v[3] else u[4] <= v[4]
  {
    assert LaterLe(u, v, 3) <==> if u[3] != v[3] then u[3] < v[3] else u[4] <= v[4];
    assert LaterLe(u, v, 2) <==> if u[2] != v[2] then u[2] < v[2] else LaterLe(u, v, 3);
    assert LaterLe(u, v, 1) <==> if u[1] != v[1] then u[1] < v[1] else LaterLe(u, v, 2);
  }

  /** A stored text sorts against every padded text as its moment does against the other moment. */
  ghost predicate OrdersRightly(s: string, t: Stamp) {
    forall n :: Printable(n) ==> (LexLe(s, Format(n)) <==> ChronLe(t, n))
  }

  const FIRST: Stamp := Stamp(0, 1, 1, 0, 0, 0)
  const LAST: Stamp := Stamp(9999, 12, 31, 23, 59, 60)

  /** The latest printable moment before this one. */
  function Previous(t: Stamp): (p: Stamp)
    requires Printable(t) && t != FIRST
    ensures Printable(p)
  {
    if t.second > 0 then t.(second := t.second - 1)
    else if t.minute > 0 then t.(minute := t.minute - 1, second := 60)
    else if t.hour > 0 then t.(hour := t.hour - 1, minute := 59, second := 60)
    else if t.day > 1 then t.(day := t.day - 1, hour := 23, minute := 59, second := 60)
    else if t.month > 1 then Stamp(t.year, t.month - 1, DaysIn(t.year, t.month - 1), 23, 59, 60)
    else Stamp(t.year - 1, 12, 31, 23, 59, 60)
  }

  lemma PreviousIsAdjacent(t: Stamp, n: Stamp)
    requires Printable(t) && t != FIRST && Printable(n)
    ensures ChronLe(t, n) <==> !ChronLe(n, Previous(t))
  {
  }

  lemma ChronOrder(a: Stamp, b: Stamp, c: Stamp)
    ensures ChronLe(a, b) || ChronLe(b, a)
    ensures ChronLe(a, b) && ChronLe(b, c) ==> ChronLe(a, c)
  {
  }

  /** Two comparisons decide: not behind the moment's own padded text, and behind the one before it. */
  predicate InPlace(s: string, t: Stamp)
    requires ValidClock(t)
  {
    if t.year < 0 then LexLe(s, Format(FIRST))
    else if t.year > 9999 then !LexLe(s, Format(LAST))
    else LexLe(s, Format(t)) && (t != FIRST ==> !LexLe(s, Format(Previous(t))))
  }

  lemma ShowsInPlace(s: string, t: Stamp)
    requires ValidClock(t) && OrdersRightly(s, t)
    ensures InPlace(s, t)
  {
    hide Format;
    hide LexLe;
    if t.year < 0 {
      assert ChronLe(t, FIRST);
    } else if t.year > 9999 {
      assert !ChronLe(t, LAST);
    } else {
      assert ChronLe(t, t);
      if t != FIRST { PreviousIsAdjacent(t, Previous(t)); ChronOrder(Previous(t), Previous(t), t); }
    }
  }

  lemma InPlaceOrders(s: string, t: Stamp, n: Stamp)
    requires ValidClock(t) && InPlace(s, t) && Printable(n)
    ensures LexLe(s, Format(n)) <==> ChronLe(t, n)
  {
    hide Format;
    hide LexLe;
    if t.year < 0 {
      TextOrderIsTimeOrder(FIRST, n);
      LexTransitive(s, Format(FIRST), Format(n));
    } else if t.year > 9999 {
      TextOrderIsTimeOrder(n, LAST);
      if LexLe(s, Format(n)) { LexTransitive(s, Format(n), Format(LAST)); }
    } else if ChronLe(t, n) {
      TextOrderIsTimeOrder(t, n);
      LexTransitive(s, Format(t), Format(n));
    } else {
      assert t != FIRST;
      PreviousIsAdjacent(t, n);
      TextOrderIsTimeOrder(n, Previous(t));
      if LexLe(s, Format(n)) { LexTransitive(s, Format(n), Format(Previous(t))); }
    }
  }

  /**
   The parser stores what it was given, so an accepted text may be spelled in many ways.
   Its order against every scheduler time is right exactly when it is in its place between
   the padded texts of its own moment and of the moment before.
   */
  lemma TextOrderIsRightIffInPlace(s: string, t: Stamp)
    requires Parse(s) == Some(t)
    ensures ValidClock(t) && (InPlace(s, t) <==> OrdersRightly(s, t))
  {
    assert ValidClock(t);
    hide Parse;
    hide InPlace;
    if OrdersRightly(s, t) {
      ShowsInPlace(s, t);
    } else if InPlace(s, t) {
      forall n | Printable(n) ensures LexLe(s, Format(n)) <==> ChronLe(t, n) {
        InPlaceOrders(s, t, n);
      }
    }
  }

  // ------------------------------------------------------- a guard on the shape

  predicate DigitsAt(s: string, i: nat)
    requires i + 2 <= |s|
  {
    IsDigit(s[i]) && IsDigit(s[i + 1])
  }

  /** Digits and literals where the padded form has them, up to the second. */
  predicate ShapedFront(s: string) {
    && |s| >= 17 && DigitsAt(s, 0) && DigitsAt(s, 2) && DigitsAt(s, 5) && DigitsAt(s, 8) && DigitsAt(s, 11) && DigitsAt(s, 14)
    && s[4] == '-' && s[7] == '-' && s[10] == ' ' && s[13] == ':' && s[16] == ':'
  }

  /** The guard a caller could put before storing a text: padded throughout, or with only a zero second shortened. */
  predicate Shaped(s: string) {
    ShapedFront(s) && ((|s| == 19 && DigitsAt(s, 17)) || (|s| == 18 && s[17] == '0'))
  }

  const ZERO_SHORT: Spelling := PADDED.(short := [false, false, false, false, true])

  /** What stands before the second in the padded form. */
  function Front(t: Stamp): (s: string)
    requires Printable(t)
    ensures |s| == 17
  {
    Four(t.year) + "-" + Two(t.month) + "-" + Two(t.day) + " " + Two(t.hour) + ":" + Two(t.minute) + ":"
  }

  lemma TailParts(u: Units, sp: Spelling)
    requires sp.gaps == PADDED.gaps && |sp.short| == 5 && Spells(u, sp) && !(sp.short[0] || sp.short[1] || sp.short[2] || sp.short[3])
    ensures Tail(u, sp, 0) ==
      Two(u[0]) + "-" + Two(u[1]) + " " + Two(u[2]) + ":" + Two(u[3]) + ":" + Field(u[4], sp.short[4])
  {
    hide Two;
    assert Tail(u, sp, 4) == Field(u[4], sp.short[4]);
    assert Tail(u, sp, 3) == Two(u[3]) + ":" + Tail(u, sp, 4);
    assert Tail(u, sp, 2) == " " + Two(u[2]) + ":" + Tail(u, sp, 3);
    assert Tail(u, sp, 1) == Two(u[1]) + Tail(u, sp, 2);
    assert Tail(u, sp, 0) == Two(u[0]) + "-" + Tail(u, sp, 1);
  }

  lemma FormatParts(t: Stamp)
    requires Printable(t)
    ensures Format(t) == Front(t) + Two(t.second)
  {
    hide Two;
    hide Four;
    hide Tail;
    TailParts(UnitsOf(t), PADDED);
  }

  function PairValue(s: string, i: nat): (n: nat)
    requires i + 2 <= |s| && DigitsAt(s, i)
    ensures n < 100 && Two(n) == s[i..i + 2]
  {
    10 * DigitValue(s[i]) + DigitValue(s[i + 1])
  }

  lemma AppendDigit(p: string, c: char)
    requires AllDigits(p) && IsDigit(c)
    ensures AllDigits(p + [c]) && NumberOf(p + [c]) == 10 * NumberOf(p) + DigitValue(c)
  {
    assert (p + [c])[..|p|] == p;
  }

  lemma FourDigitsValue(s: string)
    requires |s| == 4 && DigitsAt(s, 0) && DigitsAt(s, 2)
    ensures AllDigits(s) && NumberOf(s) == 100 * PairValue(s, 0) + PairValue(s, 2)
  {
    var a, b, c, d := s[0], s[1], s[2], s[3];
    assert s == [] + [a] + [b] + [c] + [d];
    assert NumberOf([]) == 0;
    assert PairValue(s, 0) == 10 * DigitValue(a) + DigitValue(b) && PairValue(s, 2) == 10 * DigitValue(c) + DigitValue(d);
    hide NumberOf;
    hide PairValue;
    hide DigitValue;
    AppendDigit([], a);
    AppendDigit([] + [a], b);
    AppendDigit([] + [a] + [b], c);
    AppendDigit([] + [a] + [b] + [c], d);
  }

  lemma FourDigits(s: string)
    requires |s| == 4 && DigitsAt(s, 0) && DigitsAt(s, 2)
    ensures AllDigits(s) && NumberOf(s) == 100 * PairValue(s, 0) + PairValue(s, 2)
    ensures NumberOf(s) <= 9999 && Four(NumberOf(s)) == s
  {
    FourDigitsValue(s);
    var n, a, b := NumberOf(s), PairValue(s, 0), PairValue(s, 2);
    hide NumberOf;
    hide PairValue;
    hide DigitsAt;
    hide Two;
    assert n / 100 == a && n % 100 == b;
    assert Four(n) == s[0..2] + s[2..4] == s;
  }

  /** Reading a shaped text off its places. */
  function ShapedUnits(s: string): Units
    requires Shaped(s)
  {
    [PairValue(s, 5), PairValue(s, 8), PairValue(s, 11), PairValue(s, 14), if |s| == 19 then PairValue(s, 17) else 0]
  }

  function ShapedSpelling(s: string): Spelling { if |s| == 19 then PADDED else ZERO_SHORT }

  lemma ShapedParts(s: string)
    requires Shaped(s)
    ensures s == s[0..4] + "-" + s[5..7] + "-" + s[8..10] + " " + s[11..13] + ":" + s[14..16] + ":" + s[17..]
  {
  }

  lemma ShapedTail(s: string)
    requires Shaped(s)
    ensures Spells(ShapedUnits(s), ShapedSpelling(s))
    ensures s == s[..4] + ("-" + Tail(ShapedUnits(s), ShapedSpelling(s), 0))
  {
    var u, sp := ShapedUnits(s), ShapedSpelling(s);
    assert Field(u[4], sp.short[4]) == s[17..];
    hide Two;
    hide Field;
    hide Tail;
    TailParts(u, sp);
    ShapedParts(s);
    Reassociate(s[..4], s[5..7], s[8..10], s[11..13], s[14..16], s[17..]);
  }

  lemma Reassociate(a: string, b: string, c: string, d: string, e: string, f: string)
    ensures a + "-" + b + "-" + c + " " + d + ":" + e + ":" + f
         == a + ("-" + (b + "-" + c + " " + d + ":" + e + ":" + f))
  {
  }

  /** A shaped text parses to what stands at its places, if that is a moment. */
  lemma ShapedRead(s: string)
    requires Shaped(s)
    ensures DigitsAt(s[..4], 0) && DigitsAt(s[..4], 2) && AllDigits(s[..4]) && NumberOf(s[..4]) <= 9999
    ensures Four(NumberOf(s[..4])) == s[..4]
    ensures var u, y := ShapedUnits(s), NumberOf(s[..4]);
      var t := Stamp(y, u[0], u[1], u[2], u[3], u[4]);
      Parse(s) == if Valid(t) then Some(t) else None
  {
    var u, sp := ShapedUnits(s), ShapedSpelling(s);
    var y := YearText("", "", s[..4]);
    FourDigits(s[..4]);
    ShapedTail(s);
    assert YearString(y) == s[..4];
    hide Parse;
    hide ShapedUnits;
    hide ShapedSpelling;
    hide Shaped;
    hide NumberOf;
    hide Tail;
    hide Four;
    ParseSpelled(NumberOf(s[..4]), u, y, sp);
  }

  lemma ShapedFrontText(s: string, t: Stamp)
    requires Shaped(s) && Printable(t) && Four(t.year) == s[..4]
    requires var u := ShapedUnits(s); t.month == u[0] && t.day == u[1] && t.hour == u[2] && t.minute == u[3]
    ensures Front(t) == s[..17]
  {
    assert Two(t.month) == s[5..7] && Two(t.day) == s[8..10] && Two(t.hour) == s[11..13] && Two(t.minute) == s[14..16];
    hide Two;
    hide Four;
    hide ShapedUnits;
    assert s[..17] == s[..4] + "-" + s[5..7] + "-" + s[8..10] + " " + s[11..13] + ":" + s[14..16] + ":";
  }

  lemma ShapedSplits(s: string, t: Stamp)
    requires Shaped(s) && Printable(t) && Front(t) == s[..17] && t.second == ShapedUnits(s)[4]
    ensures if |s| == 19 then s == Front(t) + Two(t.second) else t.second == 0 && s == Front(t) + "0"
  {
    assert s == s[..17] + s[17..];
    if |s| == 19 {
      assert Two(t.second) == s[17..19] == s[17..];
    } else {
      assert s[17..] == "0";
    }
  }

  /** A shaped text that parses is its moment's padded text, or that text without the zero before a zero second. */
  lemma ShapedIsPadded(s: string, t: Stamp)
    requires Shaped(s) && Parse(s) == Some(t)
    ensures Printable(t)
    ensures if |s| == 19 then s == Format(t) else t.second == 0 && s == Front(t) + "0"
  {
    ShapedRead(s);
    hide Parse;
    hide NumberOf;
    hide Four;
    hide Format;
    hide DaysIn;
    ShapedFrontText(s, t);
    FormatParts(t);
    hide Front;
    ShapedSplits(s, t);
  }

  lemma ShortZeroOrders(t: Stamp, n: Stamp)
    requires Printable(t) && Printable(n) && t.second == 0
    ensures LexLe(Front(t) + "0", Format(n)) <==> LexLe(Format(t), Format(n))
  {
    FormatParts(t);
    FormatParts(n);
    hide Front;
    LexPieces(Front(t), Front(n), "0", Two(n.second));
    LexPieces(Front(t), Front(n), "00", Two(n.second));
    TwoOrder(0, n.second);
    assert Two(0) == "00";
    assert LexLe("0", Two(n.second)) by { assert "0"[1..] == ""; OneOrder(0, n.second / 10); }
  }

  /** Every accepted text of the guarded shape compares rightly with every scheduler time. */
  lemma ShapedOrdersRightly(s: string, t: Stamp)
    requires Shaped(s) && Parse(s) == Some(t)
    ensures OrdersRightly(s, t)
  {
    ShapedIsPadded(s, t);
    hide Shaped;
    hide Parse;
    hide Front;
    hide Format;
    forall n | Printable(n) ensures LexLe(s, Format(n)) <==> ChronLe(t, n) {
      TextOrderIsTimeOrder(t, n);
      if |s| != 19 { ShortZeroOrders(t, n); }
    }
  }

  // -------------------------------------------------------------- the converse

  /** A text between two texts with a common front has that front. */
  lemma {:induction false} FrontIsShared(s: string, p: string, x: string, y: string)
    requires LexLe(s, p + y) && !LexLe(s, p + x)
    ensures |p| <= |s| && s[..|p|] == p && LexLe(s[|p|..], y) && !LexLe(s[|p|..], x)
  {
    if p == [] {
      assert p + x == x && p + y == y;
    } else {
      assert (p + x)[0] == p[0] && (p + y)[0] == p[0] && (p + x)[1..] == p[1..] + x && (p + y)[1..] == p[1..] + y;
      FrontIsShared(s[1..], p[1..], x, y);
    }
  }

  /** Reading past padded units leaves the rest to the second. */
  lemma {:induction false} ReadPast(u: Units, k: nat, z: string)
    requires k <= 4
    ensures ReadUnits(z, 4).None? ==> ReadUnits(Past(u, k, z), k).None?
    ensures ReadUnits(z, 4).Some? ==> ReadUnits(Past(u, k, z), k) == Some(u[k..4] + ReadUnits(z, 4).value)
    decreases 4 - k
  {
    hide ReadUnits;
    hide Past;
    if k < 4 {
      ReadPast(u, k + 1, z);
      PastOnce(u, k, z);
      if ReadUnits(z, 4).Some? { OneMore(u, k, ReadUnits(z, 4).value); }
    } else {
      assert Past(u, 4, z) == z by { PastEnd(u, z); }
      if ReadUnits(z, 4).Some? { assert u[4..4] + ReadUnits(z, 4).value == ReadUnits(z, 4).value; }
    }
  }

  lemma PastEnd(u: Units, z: string)
    ensures Past(u, 4, z) == z
  {
  }

  lemma OneMore(u: Units, k: nat, v: seq<nat>)
    requires k < 4
    ensures [u[k]] + (u[k + 1..4] + v) == u[k..4] + v
  {
    assert u[k..4] == [u[k]] + u[k + 1..4];
  }

  lemma PastOnce(u: Units, k: nat, z: string)
    requires k < 4
    ensures var r := ReadUnits(Past(u, k + 1, z), k + 1);
      ReadUnits(Past(u, k, z), k) == if r.None? then None else Some([u[k]] + r.value)
  {
    hide ReadNumber;
    hide Two;
    var rest := Past(u, k + 1, z);
    assert Field(u[k], false) == Two(u[k]);
    ReadField(PADDED.gaps[k], u[k], false, Stop(k) + rest);
    assert (Stop(k) + rest)[|Stop(k)|..] == rest;
  }

  /** Padded units from `k` up to the second, then `z`. */
  function Past(u: Units, k: nat, z: string): string
    requires k <= 4
    decreases 4 - k
  {
    if k == 4 then z else PADDED.gaps[k] + (Two(u[k]) + (Stop(k) + Past(u, k + 1, z)))
  }

  lemma FrontIsPast(t: Stamp, z: string)
    requires Printable(t)
    ensures Front(t) + z == Four(t.year) + ("-" + Past(UnitsOf(t), 0, z))
  {
    hide Two;
    hide Four;
    var u := UnitsOf(t);
    assert Past(u, 4, z) == z;
    assert Past(u, 3, z) == Two(u[3]) + ":" + z;
    assert Past(u, 2, z) == " " + Two(u[2]) + ":" + Past(u, 3, z);
    assert Past(u, 1, z) == Two(u[1]) + Past(u, 2, z);
    assert Past(u, 0, z) == Two(u[0]) + "-" + Past(u, 1, z);
  }

  lemma FourReads(y: nat)
    requires y <= 9999
    ensures SpellsYear(YearText("", "", Four(y)), y) && YearString(YearText("", "", Four(y))) == Four(y)
  {
    var s := Four(y);
    assert DigitsAt(s, 0) && DigitsAt(s, 2);
    FourDigits(s);
    assert PairValue(s, 0) == y / 100 && PairValue(s, 2) == y % 100 by {
      TwoOrder(PairValue(s, 0), y / 100);
      TwoOrder(PairValue(s, 2), y % 100);
      assert s[0..2] == Two(y / 100) && s[2..4] == Two(y % 100);
    }
  }

  /** Behind the padded front the parser reads the second. */
  lemma SecondIsRead(t: Stamp, z: string)
    requires Printable(t) && Parse(Front(t) + z) == Some(t)
    ensures ReadUnits(z, 4) == Some([t.second])
  {
    var u := UnitsOf(t);
    var rest := "-" + Past(u, 0, z);
    FrontIsPast(t, z);
    FourReads(t.year);
    hide Front;
    hide SpellsYear;
    hide ReadYear;
    hide ReadUnits;
    hide Past;
    hide Four;
    ReadSpelledYear(YearText("", "", Four(t.year)), t.year, rest);
    ReadPast(u, 0, z);
    assert rest[1..] == Past(u, 0, z);
    var v := ReadUnits(z, 4).value;
    assert (u[0..4] + v)[4] == v[0];
  }

  lemma BlankIsOutside(c: char, a: nat, b: nat, x: string, y: string, z: string)
    requires IsBlank(c) && a < 10 && b < 10 && z != [] && z[0] == c
    requires LexLe(z, [DigitChar(a)] + x)
    ensures LexLe(z, [DigitChar(b)] + y)
  {
    assert c < '0';
  }

  /** Between the padded texts of a second and the one before there is no other way to write it. */
  lemma SecondIsPadded(z: string, n: nat)
    requires 0 < n <= 60 && ReadUnits(z, 4) == Some([n])
    requires LexLe(z, Two(n)) && !LexLe(z, Two(n - 1))
    ensures z == Two(n)
  {
    var gap, short := FieldRead(z);
    assert z == gap + Field(n, short) by { assert Field(n, short) + "" == Field(n, short); }
    hide ReadUnits;
    hide ReadNumber;
    assert gap == "" by { NoGap(gap, Field(n, short), z, n); }
    assert z == Field(n, short);
    if short { ShortIsBehind(n); }
  }

  lemma NoGap(gap: string, field: string, z: string, n: nat)
    requires 0 < n <= 60 && AllBlank(gap) && z == gap + field
    requires LexLe(z, Two(n)) && !LexLe(z, Two(n - 1))
    ensures gap == ""
  {
    if gap != "" {
      BlankIsOutside(z[0], n / 10, (n - 1) / 10, [DigitChar(n % 10)], [DigitChar((n - 1) % 10)], z);
    }
  }

  lemma ShortIsBehind(n: nat)
    requires 0 < n < 10
    ensures !LexLe([DigitChar(n)], Two(n))
  {
    assert Two(n)[0] == DigitChar(0);
  }

  /** For a second other than zero the guard is also necessary. */
  lemma RightOrderNeedsShape(s: string, t: Stamp)
    requires Parse(s) == Some(t) && Printable(t) && t.second > 0 && OrdersRightly(s, t)
    ensures Shaped(s) && s == Format(t)
  {
    var p := Previous(t);
    FormatParts(t);
    FormatParts(p);
    FrontOfPrevious(t);
    FormatIsShaped(t);
    hide Parse;
    hide Format;
    hide LexLe;
    hide Front;
    hide Shaped;
    hide Two;
    ShowsInPlace(s, t);
    FrontIsShared(s, Front(t), Two(p.second), Two(t.second));
    var z := s[17..];
    assert s == Front(t) + z;
    SecondIsRead(t, z);
    SecondIsPadded(z, t.second);
  }

  lemma FrontOfPrevious(t: Stamp)
    requires Printable(t) && t.second > 0
    ensures Front(Previous(t)) == Front(t) && Previous(t).second == t.second - 1
  {
  }

  lemma FormatIsShaped(t: Stamp)
    requires Printable(t)
    ensures Shaped(Format(t)) && |Format(t)| == 19
  {
    FormatParts(t);
  }

  // --------------------------------------------------------------- three texts

  lemma YearOf2026(y: nat)
    requires y == 2026
    ensures SpellsYear(YearText("", "", "2026"), y) && Four(y) == "2026"
  {
    var a, b := y / 100, y % 100;
    assert Two(a) == "20" && Two(b) == "26";
    hide Two;
    assert Four(y) == "2026";
    hide Four;
    hide SpellsYear;
    FourReads(y);
  }

  /** The first of a month, the month written as one digit behind `gap` and the rest padded. */
  lemma LooseMonth(s: string, t: Stamp, gap: string)
    requires t == Stamp(2026, t.month, 1, 0, 0, 0) && 0 < t.month < 10 && AllBlank(gap)
    requires s == "2026-" + gap + [DigitChar(t.month)] + "-01 00:00:00"
    ensures Parse(s) == Some(t)
  {
    var sp := Spelling([gap, "", " ", "", ""], [true, false, false, false, false]);
    var u: Units := UnitsOf(t);
    var y := YearText("", "", "2026");
    YearOf2026(t.year);
    ZeroTail(u, sp);
    assert Tail(u, sp, 0) == gap + ([DigitChar(t.month)] + ("-" + Tail(u, sp, 1)));
    hide Parse;
    hide Tail;
    hide SpellsYear;
    hide IsBlank;
    ParseInvertsSpelling(t, y, sp);
    assert YearString(y) == "2026";
    LooseText(gap, [DigitChar(t.month)]);
  }

  lemma LooseText(gap: string, digit: string)
    ensures "2026" + ("-" + (gap + (digit + ("-" + "01 00:00:00")))) == "2026-" + gap + digit + "-01 00:00:00"
  {
  }

  lemma ZeroTail(u: Units, sp: Spelling)
    requires Spells(u, sp) && u[1..] == [1, 0, 0, 0]
    requires sp.gaps[1..] == PADDED.gaps[1..] && sp.short[1..] == PADDED.short[1..]
    ensures Tail(u, sp, 1) == "01 00:00:00"
  {
    var n, gap, short := u[1..], sp.gaps[1..], sp.short[1..];
    assert u[1] == n[0] && u[2] == n[1] && u[3] == n[2] && u[4] == n[3];
    assert sp.gaps[1] == gap[0] && sp.gaps[2] == gap[1] && sp.gaps[3] == gap[2] && sp.gaps[4] == gap[3];
    assert !sp.short[1] by { assert sp.short[1] == short[0]; }
    assert !sp.short[2] by { assert sp.short[2] == short[1]; }
    assert !sp.short[3] by { assert sp.short[3] == short[2]; }
    assert !sp.short[4] by { assert sp.short[4] == short[3]; }
    assert Field(0, false) == "00" && Field(1, false) == "01";
    hide Field;
    assert Tail(u, sp, 4) == "00";
    assert Tail(u, sp, 3) == "00" + (":" + "00");
    assert Tail(u, sp, 2) == " " + ("00" + (":" + ("00" + (":" + "00"))));
    assert Tail(u, sp, 1) == "01" + (" " + ("00" + (":" + ("00" + (":" + "00")))));
  }

  /** How the padded text of such a month starts. */
  lemma MonthText(now: Stamp, c: char)
    requires now.year == 2026 && Printable(now) && Two(now.month)[0] == c
    ensures |Format(now)| == 19 && Format(now)[..5] == "2026-" && Format(now)[5] == c
  {
    var u := UnitsOf(now);
    FormatParts(now);
    PaddedTail(u, 0);
    YearOf2026(now.year);
    hide Tail;
    hide Two;
    hide Four;
  }

  /** The order of two texts of the same year is the order of what follows the year. */
  lemma SameYear(s: string, now: string)
    requires |s| > 5 && |now| > 5 && s[..5] == now[..5] && s[5] != now[5]
    ensures LexLe(s, now) <==> s[5] < now[5]
  {
    LexPieces(s[..5], now[..5], s[5..], now[5..]);
    assert s == s[..5] + s[5..] && now == now[..5] + now[5..];
    assert s[5..][0] == s[5] && now[5..][0] == now[5];
  }

  /** Such a month's text against a padded text of the same year. */
  lemma LooseMonthOrder(s: string, t: Stamp, gap: string, now: Stamp, c: char)
    requires t == Stamp(2026, t.month, 1, 0, 0, 0) && 0 < t.month < 10 && AllBlank(gap)
    requires s == "2026-" + gap + [DigitChar(t.month)] + "-01 00:00:00"
    requires now.year == 2026 && Printable(now) && c == Two(now.month)[0] != s[5]
    ensures Parse(s) == Some(t) && |Format(now)| == 19 && (LexLe(s, Format(now)) <==> s[5] < c)
  {
    hide Format;
    hide Parse;
    hide LexLe;
    hide Two;
    LooseMonth(s, t, gap);
    MonthText(now, c);
    SameYear(s, Format(now));
  }

  /**
   A blank where the month lacks its zero makes a text of the padded length, yet one that
   sorts before every month: the job of September is already due at New Year.
   */
  lemma SeptemberIsDueInJanuary(job: Jobs.Job, t: Stamp, now: Stamp)
    requires job.state.Queued? && job.due == Some("2026- 9-01 00:00:00")
    requires t == Stamp(2026, 9, 1, 0, 0, 0) && now == Stamp(2026, 1, 1, 0, 0, 0)
    ensures Parse(job.due.value) == Some(t) && Printable(t) && Printable(now) && !ChronLe(t, now)
    ensures |job.due.value| == |Format(now)| && Jobs.Due(job, Format(now))
    ensures !Shaped(job.due.value) && !InPlace(job.due.value, t)
  {
    hide Parse;
    hide LexLe;
    hide InPlace;
    hide Format;
    hide Tail;
    hide Four;
    hide SkipBlanks;
    var s := job.due.value;
    assert Two(now.month)[0] == '0';
    assert s == "2026-" + " " + [DigitChar(t.month)] + "-01 00:00:00";
    hide Two;
    LooseMonthOrder(s, t, " ", now, '0');
    if InPlace(s, t) { InPlaceOrders(s, t, now); }
  }

  /** Without the blank the same month sorts behind October: the job is not due a month later. */
  lemma UnpaddedJobIsNotDue(job: Jobs.Job, t: Stamp, now: Stamp)
    requires job.state.Queued? && job.due == Some("2026-9-01 00:00:00")
    requires t == Stamp(2026, 9, 1, 0, 0, 0) && now == Stamp(2026, 10, 1, 12, 0, 0)
    ensures Parse(job.due.value) == Some(t) && Printable(now) && ChronLe(t, now)
    ensures !Jobs.Due(job, Format(now))
  {
    hide Parse;
    hide LexLe;
    hide Format;
    hide Tail;
    hide Four;
    hide SkipBlanks;
    var s := job.due.value;
    assert Two(now.month)[0] == '1';
    assert s == "2026-" + "" + [DigitChar(t.month)] + "-01 00:00:00";
    hide Two;
    LooseMonthOrder(s, t, "", now, '1');
  }

  // -------------------------------------------------------- accepted moments

  /**
   Which spelled-out moments are accepted: those of the date library's years whose day exists in the
   Gregorian calendar and whose time of day does, a leap second included.
   */
  lemma AcceptedMoments(year: int, u: Units, y: YearText, sp: Spelling)
    requires SpellsYear(y, year) && Spells(u, sp)
    ensures var month, day := u[0], u[1];
      var leap := (year % 4 == 0 && year % 100 != 0) || year % 400 == 0;
      Parse(YearString(y) + ("-" + Tail(u, sp, 0))).Some? <==>
        && -262143 <= year <= 262142 && u[2] <= 23 && u[3] <= 59 && u[4] <= 60
        && 1 <= month <= 12 && 1 <= day <= 31
        && (month in {4, 6, 9, 11} ==> day <= 30)
        && (month == 2 ==> day <= 29 && (day == 29 ==> leap))
  {
    hide Parse;
    hide Tail;
    hide SpellsYear;
    ParseSpelled(year, u, y, sp);
  }

  // ------------------------------------------------------------------ claims

  /** Every queued job's due text is the padded form of the moment `when` gives for it. */
  ghost predicate Dated(jobs: map<string, Jobs.Job>, when: map<string, Stamp>) {
    forall id :: id in jobs && jobs[id].state.Queued? && jobs[id].due.Some? ==>
      id in when && Printable(when[id]) && jobs[id].due.value == Format(when[id])
  }

  lemma DueIsNotLater(jobs: map<string, Jobs.Job>, when: map<string, Stamp>, id: string, now: Stamp)
    requires Dated(jobs, when) && id in jobs && jobs[id].state.Queued? && jobs[id].due.Some? && Printable(now)
    ensures Jobs.Due(jobs[id], Format(now)) <==> ChronLe(when[id], now)
  {
    TextOrderIsTimeOrder(when[id], now);
  }

  /**
   With padded schedules a claim at `now` takes jobs whose time has come, earliest first; it
   passes over such a job only for jobs no later than it, and only once its cap is reached.
   */
  lemma ClaimsAreChronological(db: Jobs.Db, when: map<string, Stamp>, now: Stamp, limit: nat)
    requires Jobs.Keyed(db.jobs) && Dated(db.jobs, when) && Printable(now)
    ensures var taken := Jobs.Selection(db, Format(now), limit);
      && (forall i :: 0 <= i < |taken| ==> taken[i] in when && ChronLe(when[taken[i]], now))
      && (forall i, j :: 0 <= i < j < |taken| ==> ChronLe(when[taken[i]], when[taken[j]]))
      && forall id ::
           (id in db.jobs && db.jobs[id].state.Queued? && db.jobs[id].due.Some?
            && ChronLe(when[id], now) && id !in taken) ==>
           |taken| == Jobs.Cap(limit) && forall i :: 0 <= i < |taken| ==> ChronLe(when[taken[i]], when[id])
  {
    hide Format;
    hide Jobs.Selection;
    hide ChronLe;
    var taken := Jobs.Selection(db, Format(now), limit);
    Jobs.ClaimTakesFront(db, Format(now), 0, limit);
    forall i | 0 <= i < |taken| ensures taken[i] in when && ChronLe(when[taken[i]], now) {
      DueIsNotLater(db.jobs, when, taken[i], now);
    }
    forall i, j | 0 <= i < j < |taken| ensures ChronLe(when[taken[i]], when[taken[j]]) {
      BeforeIsNotLater(db.jobs, when, taken[i], taken[j]);
    }
    forall id | id in db.jobs && db.jobs[id].state.Queued? && db.jobs[id].due.Some?
        && ChronLe(when[id], now) && id !in taken
      ensures |taken| == Jobs.Cap(limit) && forall i :: 0 <= i < |taken| ==> ChronLe(when[taken[i]], when[id])
    {
      DueIsNotLater(db.jobs, when, id, now);
      forall i | 0 <= i < |taken| ensures ChronLe(when[taken[i]], when[id]) {
        BeforeIsNotLater(db.jobs, when, taken[i], id);
      }
    }
  }

  lemma BeforeIsNotLater(jobs: map<string, Jobs.Job>, when: map<string, Stamp>, a: string, b: string)
    requires Dated(jobs, when) && a in jobs && b in jobs
    requires jobs[a].state.Queued? && jobs[a].due.Some? && jobs[b].state.Queued? && jobs[b].due.Some?
    requires Jobs.Before(jobs[a], jobs[b])
    ensures ChronLe(when[a], when[b])
  {
    LexTotal(Format(when[a]), Format(when[b]));
    TextOrderIsTimeOrder(when[a], when[b]);
  }
}
