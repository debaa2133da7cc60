/** Strings: the decimal rendering behind `%d`, and Go's order on strings. */
module Text {

  function Digit(d: nat): char
    requires d < 10
  {
    ['0', '1', '2', '3', '4', '5', '6', '7', '8', '9'][d]
  }

  /** `%d` of a number that is not negative. */
  function DecNat(n: nat): (s: string)
    ensures |s| >= 1
  {
    if n < 10 then [Digit(n)] else DecNat(n / 10) + [Digit(n % 10)]
  }

  function DigitValue(c: char): nat {
    if '0' <= c <= '9' then c as int - '0' as int else 0
  }

  function Parse(s: string): nat {
    if s == "" then 0 else 10 * Parse(s[..|s| - 1]) + DigitValue(s[|s| - 1])
  }

  lemma {:induction false} ParseInvertsDecNat(n: nat)
    ensures Parse(DecNat(n)) == n
  {
    var s := DecNat(n);
    if n >= 10 {
      ParseInvertsDecNat(n / 10);
      assert s[..|s| - 1] == DecNat(n / 10);
    } else {
      assert s[..|s| - 1] == "";
    }
  }

  lemma DecNatInjective(m: nat, n: nat)
    requires DecNat(m) == DecNat(n)
    ensures m == n
  {
    ParseInvertsDecNat(m);
    ParseInvertsDecNat(n);
  }

  lemma PrefixedDecInjective(prefix: string, m: nat, n: nat)
    requires prefix + DecNat(m) == prefix + DecNat(n)
    ensures m == n
  {
    assert (prefix + DecNat(m))[|prefix|..] == DecNat(m);
    assert (prefix + DecNat(n))[|prefix|..] == DecNat(n);
    DecNatInjective(m, n);
  }

  /** Go's `<` on strings: lexicographic, a proper prefix comes first. */
  predicate Less(a: string, b: string) {
    if b == "" then false
    else if a == "" then true
    else a[0] < b[0] || (a[0] == b[0] && Less(a[1..], b[1..]))
  }

  /** The two texts agree up to there. */
  predicate Agree(a: string, b: string, k: nat) {
    k <= |a| && k <= |b| && a[..k] == b[..k]
  }

  lemma AgreeFirst(a: string, b: string, k: nat)
    requires Agree(a, b, k)
    ensures k > 0 ==> a != "" && b != "" && a[0] == b[0]
  {
    if k > 0 {
      assert a[..k][0] == b[..k][0];
    }
  }

  /** What the order is: a text comes before those it is a proper prefix of, and otherwise the first
      place where two texts differ decides. */
  lemma {:induction false} LessExactlyWhen(a: string, b: string)
    ensures Less(a, b) <==>
              exists k: nat :: Agree(a, b, k) && k < |b| && (k == |a| || (k < |a| && a[k] < b[k]))
  {
    if a == "" || b == "" || a[0] != b[0] {
      if b != "" {
        assert Agree(a, b, 0);
      }
      forall k: nat | Agree(a, b, k) ensures k > 0 ==> a != "" && b != "" && a[0] == b[0] {
        AgreeFirst(a, b, k);
      }
    } else {
      LessExactlyWhen(a[1..], b[1..]);
      forall k: nat ensures Agree(a, b, k + 1) <==> Agree(a[1..], b[1..], k) {
        if Agree(a[1..], b[1..], k) {
          assert a[..k + 1] == [a[0]] + a[1..][..k] && b[..k + 1] == [b[0]] + b[1..][..k];
        }
        if Agree(a, b, k + 1) {
          assert a[1..][..k] == a[..k + 1][1..] && b[1..][..k] == b[..k + 1][1..];
        }
      }
      if k: nat :| Agree(a[1..], b[1..], k) && k < |b[1..]| && (k == |a[1..]| || (k < |a[1..]| && a[1..][k] < b[1..][k])) {
        assert Agree(a, b, k + 1);
      }
      if k: nat :| Agree(a, b, k) && k < |b| && (k == |a| || (k < |a| && a[k] < b[k])) {
        assert Agree(a[1..], b[1..], k - 1);
      }
    }
  }

  lemma {:induction false} LessTransitive(a: string, b: string, c: string)
    requires Less(a, b) && Less(b, c)
    ensures Less(a, c)
  {
    if a != "" && a[0] == b[0] && b[0] == c[0] {
      LessTransitive(a[1..], b[1..], c[1..]);
    }
  }

  lemma {:induction false} LessIrreflexive(a: string)
    ensures !Less(a, a)
  {
    if a != "" {
      LessIrreflexive(a[1..]);
    }
  }

  lemma {:induction false} LessTotal(a: string, b: string)
    ensures Less(a, b) || a == b || Less(b, a)
  {
    if a != "" && b != "" && a[0] == b[0] {
      LessTotal(a[1..], b[1..]);
      assert a == [a[0]] + a[1..] && b == [b[0]] + b[1..];
    }
  }
}
