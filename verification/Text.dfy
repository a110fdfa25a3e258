/** Text as the database compares and the code prints it. */
module Text {

  /** Character-by-character order, a proper prefix coming first. */
  predicate LexLe(a: string, b: string) {
    a == [] || (b != [] && (a[0] < b[0] || (a[0] == b[0] && LexLe(a[1..], b[1..]))))
  }

  lemma {:induction false} LexTotal(a: string, b: string)
    ensures LexLe(a, b) || LexLe(b, a)
    ensures LexLe(a, b) && LexLe(b, a) ==> a == b
  {
    if a != [] && b != [] {
      LexTotal(a[1..], b[1..]);
      assert a == [a[0]] + a[1..] && b == [b[0]] + b[1..];
    }
  }

  lemma {:induction false} LexTransitive(a: string, b: string, c: string)
    requires LexLe(a, b) && LexLe(b, c)
    ensures LexLe(a, c)
  {
    if a != [] && a[0] == b[0] && b[0] == c[0] {
      LexTransitive(a[1..], b[1..], c[1..]);
    }
  }

  /** Decimal digits of a number, most significant first. */
  function Decimal(n: nat): (s: string)
    ensures |s| > 0
  {
    if n < 10 then [DigitChar(n)] else Decimal(n / 10) + [DigitChar(n % 10)]
  }

  function DigitChar(d: nat): (c: char)
    requires d < 10
    ensures '0' <= c <= '9'
  {
    ('0' as int + d) as char
  }

  function DigitValue(c: char): nat
    requires '0' <= c <= '9'
  {
    c as int - '0' as int
  }

  lemma {:induction false} DecimalInjective(m: nat, n: nat)
    ensures Decimal(m) == Decimal(n) ==> m == n
  {
    if Decimal(m) == Decimal(n) {
      var s := Decimal(m);
      assert s[|s| - 1] == DigitChar(m % 10) == DigitChar(n % 10);
      assert m % 10 == n % 10;
      if m >= 10 && n >= 10 {
        assert s[..|s| - 1] == Decimal(m / 10) == Decimal(n / 10);
        DecimalInjective(m / 10, n / 10);
      }
    }
  }

  /** A generated identifier: a prefix, a dash and a sequence number. */
  function Numbered(prefix: string, n: nat): string {
    prefix + "-" + Decimal(n)
  }

  lemma NumberedInjective(prefix: string, m: nat, n: nat)
    ensures Numbered(prefix, m) == Numbered(prefix, n) ==> m == n
  {
    var k := |prefix| + 1;
    assert Numbered(prefix, m)[k..] == Decimal(m);
    assert Numbered(prefix, n)[k..] == Decimal(n);
    DecimalInjective(m, n);
  }

  /** What a text of decimal digits stands for. */
  function NumberOf(s: string): nat
    requires forall i :: 0 <= i < |s| ==> '0' <= s[i] <= '9'
  {
    if s == [] then 0 else 10 * NumberOf(s[..|s| - 1]) + DigitValue(s[|s| - 1])
  }

  /** A number prints as decimal digits that stand for it, the first of them not zero unless it is the only one. */
  lemma {:induction false} DecimalReadsBack(n: nat)
    ensures var s := Decimal(n);
      && (forall i :: 0 <= i < |s| ==> '0' <= s[i] <= '9') && NumberOf(s) == n
      && (|s| > 1 ==> s[0] != '0')
  {
    if n >= 10 {
      DecimalReadsBack(n / 10);
      var s, front := Decimal(n), Decimal(n / 10);
      assert s[..|s| - 1] == front;
      assert forall i :: 0 <= i < |s| ==> s[i] == if i < |front| then front[i] else DigitChar(n % 10);
      assert |front| == 1 ==> n / 10 < 10;
    } else {
      assert [DigitChar(n)][..0] == [];
    }
  }

  /** An identifier is its prefix, a dash and the number, and nothing else. */
  lemma NumberedReads(prefix: string, n: nat)
    ensures var s := Numbered(prefix, n);
      && |s| > |prefix| + 1 && s[..|prefix|] == prefix && s[|prefix|] == '-' && s[|prefix| + 1..] == Decimal(n)
  {
  }
}
