/**
 * The pieces of Go's `strings` and `fmt` packages that the login and token
 * code relies on: `strings.Index`, `strings.Contains`, `strings.Split` on a
 * one-character separator, `strings.Repeat` and the `%d` verb.
 */
module GoStrings {

  /** True when `pat` occurs in `s` starting at index `i`. */
  predicate MatchAt(s: string, i: nat, pat: string) {
    i + |pat| <= |s| && s[i..i + |pat|] == pat
  }

  /** `strings.Index`: the first index at which `pat` occurs in `s`, or -1. */
  function IndexOf(s: string, pat: string): (r: int)
    ensures -1 <= r <= |s|
    ensures r >= 0 ==> MatchAt(s, r, pat)
    ensures r >= 0 ==> forall j :: 0 <= j < r ==> !MatchAt(s, j, pat)
    ensures r == -1 ==> forall j :: 0 <= j <= |s| ==> !MatchAt(s, j, pat)
  {
    IndexFrom(s, pat, 0)
  }

  /** The first occurrence of `pat` in `s` at or after `from`, or -1. */
  function IndexFrom(s: string, pat: string, from: nat): (r: int)
    requires from <= |s|
    ensures r == -1 || from <= r <= |s|
    ensures r >= 0 ==> MatchAt(s, r, pat)
    ensures r >= 0 ==> forall j :: from <= j < r ==> !MatchAt(s, j, pat)
    ensures r == -1 ==> forall j :: from <= j <= |s| ==> !MatchAt(s, j, pat)
    decreases |s| - from
  {
    if MatchAt(s, from, pat) then from
    else if from == |s| then -1
    else IndexFrom(s, pat, from + 1)
  }

  /** `strings.Contains`, which Go defines as `Index(s, pat) >= 0`. */
  predicate Contains(s: string, pat: string) {
    IndexOf(s, pat) >= 0
  }

  /** The contract of IndexOf determines its value: any `k` meeting it is the index. */
  lemma IndexOfUnique(s: string, pat: string, k: int)
    requires k == -1 ==> forall j :: 0 <= j <= |s| ==> !MatchAt(s, j, pat)
    requires k != -1 ==> 0 <= k && MatchAt(s, k, pat) && forall j :: 0 <= j < k ==> !MatchAt(s, j, pat)
    ensures IndexOf(s, pat) == k
  {
  }

  /**
   * Searching behind a prefix that cannot start an occurrence: when the first
   * character of `pat` does not occur in `p`, every occurrence of `pat` in
   * `p + c` lies inside `c`, shifted by `|p|`.
   */
  lemma {:induction false} IndexAfterPrefix(p: string, c: string, pat: string)
    requires |pat| > 0 && pat[0] !in p
    ensures IndexOf(p + c, pat) == if IndexOf(c, pat) < 0 then -1 else |p| + IndexOf(c, pat)
    ensures Contains(p + c, pat) <==> Contains(c, pat)
  {
    var s := p + c;
    forall j | 0 <= j < |p|
      ensures !MatchAt(s, j, pat)
    {
      assert j + |pat| <= |s| ==> s[j..j + |pat|][0] == p[j];
    }
    forall j | 0 <= j <= |c|
      ensures MatchAt(s, |p| + j, pat) == MatchAt(c, j, pat)
    {
      if |p| + j + |pat| <= |s| {
        assert s[|p| + j..|p| + j + |pat|] == c[j..j + |pat|];
      }
    }
    var k := IndexOf(c, pat);
    if k < 0 {
      forall j | 0 <= j <= |s|
        ensures !MatchAt(s, j, pat)
      {
        if j >= |p| { assert !MatchAt(c, j - |p|, pat); }
      }
      IndexOfUnique(s, pat, -1);
    } else {
      forall j | 0 <= j < |p| + k
        ensures !MatchAt(s, j, pat)
      {
        if j >= |p| { assert !MatchAt(c, j - |p|, pat); }
      }
      IndexOfUnique(s, pat, |p| + k);
    }
  }

  /**
   * An occurrence that ends within a prefix `t` of `s` is an occurrence in
   * `t`, and conversely.
   */
  lemma MatchInPrefix(s: string, t: string, j: nat, pat: string)
    requires |t| <= |s| && s[..|t|] == t
    requires j + |pat| <= |t|
    ensures MatchAt(s, j, pat) <==> MatchAt(t, j, pat)
  {
  }

  /** `strings.Repeat(string(c), n)`. */
  function Repeat(c: char, n: nat): (r: string)
    ensures |r| == n
    ensures forall i :: 0 <= i < n ==> r[i] == c
  {
    if n == 0 then "" else [c] + Repeat(c, n - 1)
  }

  /** The separator `strings.Split` is called with in token validation. */
  const Dot: char := '.'

  /**
   * `strings.Split(s, ".")`: the maximal dot-free pieces of `s`, in order.
   * Go never returns an empty slice here: the empty string gives one empty piece.
   */
  function Split(s: string): (fields: seq<string>)
    ensures |fields| >= 1
  {
    if |s| == 0 then [""]
    else
      var rest := Split(s[1..]);
      if s[0] == Dot then [""] + rest else [[s[0]] + rest[0]] + rest[1..]
  }

  /** `strings.Join(fields, ".")`. */
  function Join(fields: seq<string>): string {
    if |fields| == 0 then ""
    else if |fields| == 1 then fields[0]
    else fields[0] + [Dot] + Join(fields[1..])
  }

  /** Split yields one more field than there are dots in `s`. */
  lemma {:induction false} SplitCount(s: string)
    ensures |Split(s)| == multiset(s)[Dot] + 1
  {
    if |s| > 0 {
      SplitCount(s[1..]);
      assert s == [s[0]] + s[1..];
      assert multiset(s) == multiset{s[0]} + multiset(s[1..]);
    }
  }

  /** No field of Split contains a dot, and joining the fields with dots gives `s` back. */
  lemma {:induction false} SplitFields(s: string)
    ensures forall k :: 0 <= k < |Split(s)| ==> Dot !in Split(s)[k]
    ensures Join(Split(s)) == s
  {
    if |s| > 0 {
      var rest := Split(s[1..]);
      SplitFields(s[1..]);
      if s[0] == Dot {
        assert Split(s) == [""] + rest;
        assert s == [Dot] + s[1..];
      } else {
        var fields := [[s[0]] + rest[0]] + rest[1..];
        assert Split(s) == fields;
        assert forall k :: 1 <= k < |fields| ==> fields[k] == rest[k];
        if |rest| == 1 {
          assert Join(fields) == [s[0]] + rest[0];
        } else {
          assert Join(rest) == rest[0] + [Dot] + Join(rest[1..]);
          assert fields[1..] == rest[1..];
          assert Join(fields) == [s[0]] + rest[0] + [Dot] + Join(rest[1..]);
        }
        assert s == [s[0]] + s[1..];
      }
    }
  }

  /** Splitting a dot-free string yields it alone. */
  lemma {:induction false} SplitDotFree(a: string)
    requires Dot !in a
    ensures Split(a) == [a]
  {
    if |a| > 0 {
      assert Dot !in a[1..];
      SplitDotFree(a[1..]);
      assert [a[0]] + a[1..] == a;
    }
  }

  /** A dot-free first piece followed by a dot is split off as the first field. */
  lemma {:induction false} SplitFirstField(a: string, t: string)
    requires Dot !in a
    ensures Split(a + [Dot] + t) == [a] + Split(t)
  {
    var s := a + [Dot] + t;
    if |a| == 0 {
      assert s == [Dot] + t;
      assert s[1..] == t;
    } else {
      assert s[0] == a[0] != Dot;
      assert s[1..] == a[1..] + [Dot] + t;
      assert Dot !in a[1..];
      SplitFirstField(a[1..], t);
      var rest := Split(s[1..]);
      assert rest == [a[1..]] + Split(t);
      assert [s[0]] + a[1..] == a;
      assert rest[1..] == Split(t);
    }
  }

  /**
   * Split inverts Join: joining dot-free fields and splitting the result
   * gives the fields back.
   */
  lemma {:induction false} SplitJoin(fields: seq<string>)
    requires |fields| >= 1
    requires forall k :: 0 <= k < |fields| ==> Dot !in fields[k]
    ensures Split(Join(fields)) == fields
  {
    if |fields| == 1 {
      SplitDotFree(fields[0]);
    } else {
      SplitJoin(fields[1..]);
      SplitFirstField(fields[0], Join(fields[1..]));
      assert fields == [fields[0]] + fields[1..];
    }
  }

  /** The decimal digit `d` as a character. */
  function DigitChar(d: nat): (c: char)
    requires d < 10
    ensures '0' <= c <= '9'
  {
    (48 + d) as char
  }

  /** The decimal representation of `n`, without sign or leading zeros. */
  function Decimal(n: nat): (s: string)
    ensures |s| >= 1
    ensures forall i :: 0 <= i < |s| ==> '0' <= s[i] <= '9'
    ensures s[0] == '0' ==> n == 0 && s == "0"
  {
    if n < 10 then [DigitChar(n)] else Decimal(n / 10) + [DigitChar(n % 10)]
  }

  /** The number a string of decimal digits denotes. */
  function DecimalValue(s: string): nat
    requires forall i :: 0 <= i < |s| ==> '0' <= s[i] <= '9'
  {
    if |s| == 0 then 0 else 10 * DecimalValue(s[..|s| - 1]) + (s[|s| - 1] as int - 48)
  }

  /** Decimal is read back by DecimalValue. */
  lemma {:induction false} DecimalRoundTrip(n: nat)
    ensures DecimalValue(Decimal(n)) == n
  {
    if n >= 10 {
      DecimalRoundTrip(n / 10);
      var s := Decimal(n);
      assert s[..|s| - 1] == Decimal(n / 10);
    }
  }

  /**
   * `fmt.Sprintf("%d", n)` for a Go `int`: a minus sign for a negative
   * number, then the decimal digits of its magnitude with no leading zero
   * (zero itself is "0").
   */
  function FormatInt(n: int): (s: string)
    ensures n >= 0 ==>
      && |s| >= 1
      && (forall i :: 0 <= i < |s| ==> '0' <= s[i] <= '9')
      && DecimalValue(s) == n
      && (s[0] == '0' ==> s == "0")
    ensures n < 0 ==>
      && |s| >= 2
      && s[0] == '-'
      && (forall i :: 1 <= i < |s| ==> '0' <= s[i] <= '9')
      && DecimalValue(s[1..]) == -n
      && s[1] != '0'
  {
    if n < 0 then
      DecimalRoundTrip(-n);
      "-" + Decimal(-n)
    else
      DecimalRoundTrip(n);
      Decimal(n)
  }
}
