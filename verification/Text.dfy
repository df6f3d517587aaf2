/** Identifiers as Go handles them: byte-order comparison and the NUL-joined keys of the in-memory stores. */
module Text {

  const NUL: char := '\0'

  /** Go's `a < b` on strings. Code point order is the byte order of UTF-8. */
  predicate Less(a: string, b: string)
  {
    if |b| == 0 then false
    else if |a| == 0 then true
    else a[0] < b[0] || (a[0] == b[0] && Less(a[1..], b[1..]))
  }

  lemma {:induction false} LessIsTotal(a: string, b: string)
    ensures Less(a, b) || a == b || Less(b, a)
  {
    if |a| > 0 && |b| > 0 && a[0] == b[0] {
      LessIsTotal(a[1..], b[1..]);
      assert a == [a[0]] + a[1..] && b == [b[0]] + b[1..];
    }
  }

  lemma {:induction false} LessIsAsymmetric(a: string, b: string)
    requires Less(a, b)
    ensures !Less(b, a) && a != b
  {
    if |a| > 0 && |b| > 0 && a[0] == b[0] {
      LessIsAsymmetric(a[1..], b[1..]);
    }
  }

  lemma {:induction false} LessIsTransitive(a: string, b: string, c: string)
    requires Less(a, b) && Less(b, c)
    ensures Less(a, c)
  {
    if |a| > 0 && a[0] == b[0] && b[0] == c[0] {
      LessIsTransitive(a[1..], b[1..], c[1..]);
    }
  }

  /** One string is less exactly when it is a proper start of the other, or is smaller where they first differ. */
  lemma {:induction false} LessIff(a: string, b: string)
    ensures Less(a, b) <==>
      (|a| < |b| && a == b[..|a|]) || exists i :: 0 <= i < |a| && i < |b| && a[..i] == b[..i] && a[i] < b[i]
  {
    if |a| > 0 && |b| > 0 {
      LessIff(a[1..], b[1..]);
      assert a == [a[0]] + a[1..] && b == [b[0]] + b[1..];
      if i :| 0 <= i < |a| && i < |b| && a[..i] == b[..i] && a[i] < b[i] {
        assert i > 0 ==> a[0] == a[..i][0] == b[..i][0] == b[0];
        assert i > 0 ==> a[1..][..i - 1] == a[..i][1..] && b[1..][..i - 1] == b[..i][1..];
        assert i > 0 ==> a[1..][i - 1] == a[i] && b[1..][i - 1] == b[i];
      }
      if a[0] < b[0] {
        assert a[..0] == b[..0];
      } else if a[0] == b[0] {
        if i :| 0 <= i < |a[1..]| && i < |b[1..]| && a[1..][..i] == b[1..][..i] && a[1..][i] < b[1..][i] {
          assert a[..i + 1] == [a[0]] + a[1..][..i] && b[..i + 1] == [b[0]] + b[1..][..i];
          assert a[i + 1] == a[1..][i] && b[i + 1] == b[1..][i];
        }
        if |a| < |b| && a == b[..|a|] {
          assert a[1..] == b[1..][..|a| - 1];
        }
        if |a[1..]| < |b[1..]| && a[1..] == b[1..][..|a[1..]|] {
          assert a == b[..|a|];
        }
      }
    }
  }

  predicate NulFree(s: string) {
    NUL !in s
  }

  function Join(left: string, right: string): string {
    left + [NUL] + right
  }

  lemma {:induction false} SplitsAtFirstNul(a: string, b: string)
    requires NulFree(a)
    ensures Join(a, b)[|a|] == NUL && forall i :: 0 <= i < |a| ==> Join(a, b)[i] != NUL
    ensures Join(a, b)[..|a|] == a && Join(a, b)[|a| + 1..] == b
  {
  }

  lemma {:induction false} SplitsAtLastNul(a: string, b: string)
    requires NulFree(b)
    ensures Join(a, b)[|a|] == NUL && forall i :: |a| < i < |Join(a, b)| ==> Join(a, b)[i] != NUL
    ensures Join(a, b)[..|a|] == a && Join(a, b)[|a| + 1..] == b
  {
  }

  /** A NUL-free left part makes the whole key readable. */
  lemma {:induction false} JoinIsInjectiveOnTheLeft(a: string, b: string, a': string, b': string)
    requires NulFree(a) && NulFree(a')
    requires Join(a, b) == Join(a', b')
    ensures a == a' && b == b'
  {
    SplitsAtFirstNul(a, b);
    SplitsAtFirstNul(a', b');
    assert |a| == |a'|;
  }

  /** So does a NUL-free right part. */
  lemma {:induction false} JoinIsInjectiveOnTheRight(a: string, b: string, a': string, b': string)
    requires NulFree(b) && NulFree(b')
    requires Join(a, b) == Join(a', b')
    ensures a == a' && b == b'
  {
    SplitsAtLastNul(a, b);
    SplitsAtLastNul(a', b');
    assert |a| == |a'|;
  }

  /** A key names its two parts unambiguously exactly when neither part holds a NUL. */
  lemma {:induction false} JoinIsUnambiguousIffNulFree(a: string, b: string)
    ensures (forall a': string, b': string :: Join(a', b') == Join(a, b) ==> a' == a && b' == b)
       <==> NulFree(a) && NulFree(b)
  {
    if !NulFree(a) {
      var i :| 0 <= i < |a| && a[i] == NUL;
      var a', b' := a[..i], a[i + 1..] + [NUL] + b;
      assert a == a[..i] + [NUL] + a[i + 1..];
      assert Join(a', b') == Join(a, b) && a' != a;
    } else if !NulFree(b) {
      var i :| 0 <= i < |b| && b[i] == NUL;
      var a', b' := a + [NUL] + b[..i], b[i + 1..];
      assert b == b[..i] + [NUL] + b[i + 1..];
      assert Join(a', b') == Join(a, b) && a' != a;
    } else {
      SplitsAtFirstNul(a, b);
      SplitsAtLastNul(a, b);
      forall a': string, b': string | Join(a', b') == Join(a, b)
        ensures a' == a && b' == b
      {
        assert Join(a', b')[|a'|] == NUL;
        assert |a'| == |a|;
        assert Join(a', b')[..|a'|] == a' && Join(a', b')[|a'| + 1..] == b';
      }
    }
  }

  /** fmt's `%d`. */
  function Decimal(n: int): (s: string)
    ensures |s| > 0 && NulFree(s)
    decreases n < 0, if n < 0 then -n else n
  {
    if n < 0 then "-" + Decimal(-n)
    else if n < 10 then [Digit(n)]
    else Decimal(n / 10) + [Digit(n % 10)]
  }

  function Digit(d: int): (c: char)
    requires 0 <= d < 10
    ensures c != NUL && c != '-'
    ensures forall e :: 0 <= e < 10 && DigitChar(e) == c ==> e == d
  {
    DigitChar(d)
  }

  function DigitChar(d: int): char
    requires 0 <= d < 10
  {
    "0123456789"[d]
  }

  lemma {:induction false} NaturalDecimalHasNoSign(n: nat)
    ensures Decimal(n)[0] != '-'
    decreases n
  {
    if n >= 10 {
      NaturalDecimalHasNoSign(n / 10);
    }
  }

  lemma {:induction false} NegativeDecimal(n: int)
    requires n < 0
    ensures Decimal(n)[0] == '-' && Decimal(n)[1..] == Decimal(-n)
  {
  }

  lemma {:induction false} DecimalIsInjective(m: int, n: int)
    requires Decimal(m) == Decimal(n)
    ensures m == n
  {
    hide Decimal;
    if m >= 0 && n >= 0 {
      NaturalDecimalIsInjective(m, n);
    } else if m >= 0 {
      NaturalDecimalHasNoSign(m);
      NegativeDecimal(n);
    } else if n >= 0 {
      NaturalDecimalHasNoSign(n);
      NegativeDecimal(m);
    } else {
      NegativeDecimal(m);
      NegativeDecimal(n);
      NaturalDecimalIsInjective(-m, -n);
    }
  }

  lemma {:induction false} NaturalDecimalIsInjective(m: nat, n: nat)
    requires Decimal(m) == Decimal(n)
    ensures m == n
    decreases m
  {
    if m >= 10 && n >= 10 {
      var s := Decimal(m);
      assert s[..|s| - 1] == Decimal(m / 10) && s[..|s| - 1] == Decimal(n / 10);
      assert s[|s| - 1] == Digit(m % 10) == Digit(n % 10);
      NaturalDecimalIsInjective(m / 10, n / 10);
    } else if m < 10 && n < 10 {
      assert Digit(m) == Digit(n);
    }
  }

  /** strings.TrimSpace(s) == "". */
  predicate Blank(s: string) {
    forall i :: 0 <= i < |s| ==> IsSpace(s[i])
  }

  predicate IsSpace(c: char) {
    c in "\t\n\U{0B}\U{0C}\r \U{85}\U{A0}\U{1680}\U{2028}\U{2029}\U{202F}\U{205F}\U{3000}"
    || '\U{2000}' <= c <= '\U{200A}'
  }
}
