/** The option type shared by the other modules. */
module Wrappers {
  datatype Option<+T> = None | Some(value: T)
}

/** Facts about the elements of a sequence that several modules need. */
module Sequences {
  ghost function Elements<T>(xs: seq<T>): set<T> {
    set x | x in xs
  }

  lemma SameElements<T>(xs: seq<T>, ys: seq<T>)
    requires multiset(xs) == multiset(ys)
    ensures Elements(xs) == Elements(ys) && |xs| == |ys|
  {
    assert |multiset(xs)| == |xs| && |multiset(ys)| == |ys|;
    forall x ensures x in xs <==> x in ys {
      assert x in xs <==> x in multiset(xs);
      assert x in ys <==> x in multiset(ys);
    }
  }

  lemma CountTwice<T>(xs: seq<T>, i: nat, j: nat)
    requires i < j < |xs| && xs[i] == xs[j]
    ensures multiset(xs)[xs[i]] >= 2
  {
    assert xs == xs[..j] + [xs[j]] + xs[j + 1..];
    assert xs[i] in xs[..j];
  }

  lemma {:induction false} CountOnce<T>(xs: seq<T>, x: T)
    requires NoRepeats(xs)
    ensures multiset(xs)[x] <= 1
  {
    if xs != [] {
      var n := |xs| - 1;
      CountOnce(xs[..n], x);
      assert xs == xs[..n] + [xs[n]];
      assert xs[n] !in xs[..n];
    }
  }

  lemma StaysUnique<T>(xs: seq<T>, ys: seq<T>)
    requires multiset(xs) == multiset(ys)
    requires NoRepeats(xs)
    ensures NoRepeats(ys)
  {
    forall i, j | 0 <= i < j < |ys| ensures ys[i] != ys[j] {
      CountOnce(xs, ys[i]);
      if ys[i] == ys[j] {
        CountTwice(ys, i, j);
      }
    }
  }

  ghost predicate NoRepeats<T>(xs: seq<T>) {
    forall i, j :: 0 <= i < j < |xs| ==> xs[i] != xs[j]
  }

  lemma {:induction false} CountPresent<T>(xs: seq<T>, x: T)
    requires NoRepeats(xs)
    ensures multiset(xs)[x] == if x in xs then 1 else 0
  {
    CountOnce(xs, x);
    assert x in xs <==> x in multiset(xs);
  }
}

/** strconv.Itoa for numbers that are not negative. */
module Decimals {
  predicate Digits(s: string) {
    forall i :: 0 <= i < |s| ==> '0' <= s[i] <= '9'
  }

  function Digit(d: nat): (c: char)
    requires d < 10
    ensures '0' <= c <= '9' && c as int == '0' as int + d
  {
    ('0' as int + d) as char
  }

  function Itoa(n: nat): (s: string)
    ensures |s| >= 1 && Digits(s)
  {
    (if n < 10 then "" else Itoa(n / 10)) + [Digit(n % 10)]
  }

  lemma ItoaParts(m: nat, n: nat)
    requires Itoa(m) == Itoa(n)
    ensures Digit(m % 10) == Digit(n % 10) && (m < 10 <==> n < 10)
    ensures m >= 10 ==> Itoa(m / 10) == Itoa(n / 10)
  {
    var s := Itoa(m);
    assert s[|s| - 1] == Digit(m % 10) && s[|s| - 1] == Digit(n % 10);
    assert s[..|s| - 1] == (if m < 10 then "" else Itoa(m / 10));
    assert s[..|s| - 1] == (if n < 10 then "" else Itoa(n / 10));
  }

  lemma DigitsAndTens(m: nat, n: nat)
    requires Digit(m % 10) == Digit(n % 10) && m / 10 == n / 10
    ensures m == n
  {
    assert Digit(m % 10) as int == Digit(n % 10) as int;
  }

  /** Different numbers have different decimals. */
  lemma {:induction false} ItoaTellsApart(m: nat, n: nat)
    requires Itoa(m) == Itoa(n)
    ensures m == n
  {
    ItoaParts(m, n);
    if m >= 10 { ItoaTellsApart(m / 10, n / 10); }
    DigitsAndTens(m, n);
  }

  function Power10(k: nat): nat {
    if k == 0 then 1 else 10 * Power10(k - 1)
  }

  lemma {:induction false} ItoaLength(n: nat, k: nat)
    requires Power10(k) <= n < Power10(k + 1)
    ensures |Itoa(n)| == k + 1
  {
    if k > 0 { ItoaLength(n / 10, k - 1); }
  }
}
