/** The Python string operations the element tables rely on: `str()` of an
    integer, `c * n` repetition, per-character repetition and
    `s.replace(p, "")`. */
module Text {
  import opened Values

  function DigitChar(d: nat): (c: char)
    requires d < 10
    ensures '0' <= c <= '9'
    ensures c as int == '0' as int + d
  {
    "0123456789"[d]
  }

  function DigitValue(c: char): (d: nat)
    requires '0' <= c <= '9'
    ensures d < 10 && DigitChar(d) == c
  {
    (c as int - '0' as int) as nat
  }

  predicate AllDigits(s: string) {
    forall i :: 0 <= i < |s| ==> '0' <= s[i] <= '9'
  }

  /** Decimal digits of a natural number, most significant first, with no
      leading zero: only the number 0 is written "0". */
  function NatText(n: nat): (r: string)
    ensures |r| >= 1 && AllDigits(r)
    ensures n == 0 <==> |r| == 1 && r[0] == '0'
    ensures |r| == 1 || r[0] != '0'
  {
    if n < 10 then [DigitChar(n)] else NatText(n / 10) + [DigitChar(n % 10)]
  }

  /** `str(n)` for a Python int: a '-' for a negative number, then the
      digits without a leading zero. */
  function DecimalText(n: int): (r: string)
    ensures |r| >= 1
    ensures n < 0 <==> r[0] == '-'
    ensures n == 0 <==> |r| == 1 && r[0] == '0'
    ensures r[0] == '0' ==> |r| == 1
    ensures n < 0 ==> |r| >= 2 && r[1] != '0'
  {
    if n < 0 then "-" + NatText(-n) else NatText(n)
  }

  /** `int(s)` restricted to an optional '-' followed by decimal digits; the
      reference against which DecimalText is checked. */
  function ParseNat(s: string): Option<nat> {
    if |s| == 0 || !AllDigits(s) then None
    else if |s| == 1 then Some(DigitValue(s[0]))
    else
      match ParseNat(s[..|s| - 1])
      case None => None
      case Some(m) => Some(m * 10 + DigitValue(s[|s| - 1]))
  }

  function ParseDecimal(s: string): Option<int> {
    if |s| > 0 && s[0] == '-' then
      match ParseNat(s[1..])
      case None => None
      case Some(m) => Some(-(m as int))
    else
      match ParseNat(s)
      case None => None
      case Some(m) => Some(m)
  }

  lemma DigitRoundTrip(d: nat)
    requires d < 10
    ensures DigitValue(DigitChar(d)) == d
  {
  }

  lemma {:induction false} NatTextRoundTrip(n: nat)
    ensures ParseNat(NatText(n)) == Some(n)
  {
    if n >= 10 {
      var t := NatText(n);
      NatTextRoundTrip(n / 10);
      assert t[..|t| - 1] == NatText(n / 10);
      assert DigitValue(t[|t| - 1]) == n % 10 by { DigitRoundTrip(n % 10); }
    } else {
      DigitRoundTrip(n);
    }
  }

  /** A '-' in front of digits negates what they parse to. */
  lemma ParseSigned(d: string)
    requires ParseNat(d).Some?
    ensures ParseDecimal("-" + d) == Some(-(ParseNat(d).value as int))
  {
    assert ("-" + d)[1..] == d;
  }

  /** `str` of an integer is read back by `int`: the text of a number keeps
      the number. */
  lemma DecimalRoundTrip(n: int)
    ensures ParseDecimal(DecimalText(n)) == Some(n)
  {
    if n < 0 {
      var d := NatText(-n);
      NatTextRoundTrip(-n);
      ParseSigned(d);
      assert DecimalText(n) == "-" + d;
    } else {
      var d := NatText(n);
      NatTextRoundTrip(n);
      assert d[0] != '-';
      assert ParseDecimal(d) == Some(n);
    }
  }

  /** Python `c * n`: `n` copies of `c`, none when `n <= 0`. */
  function Repeat(c: char, n: int): (r: string)
    ensures |r| == (if n < 0 then 0 else n)
    ensures forall i :: 0 <= i < |r| ==> r[i] == c
  {
    if n <= 0 then "" else [c] + Repeat(c, n - 1)
  }

  /** `"".join([char * n for char in s])`. */
  function RepeatEach(s: string, n: int): (r: string)
    ensures |r| == |s| * (if n < 0 then 0 else n)
  {
    if s == [] then "" else Repeat(s[0], n) + RepeatEach(s[1..], n)
  }

  /** Every character of `s` is repeated `n` times in place: the `j`-th copy
      of character `k` sits at position `k * n + j`. */
  lemma {:induction false} RepeatEachAt(s: string, n: int, k: int, j: int)
    requires 0 <= k < |s| && 0 <= j < n
    ensures k * n + j < |RepeatEach(s, n)| && RepeatEach(s, n)[k * n + j] == s[k]
  {
    if k > 0 {
      RepeatEachAt(s[1..], n, k - 1, j);
      assert (k - 1) * n + j + n == k * n + j;
    }
  }

  predicate OccursAt(p: string, s: string, i: int) {
    0 <= i && i + |p| <= |s| && s[i..i + |p|] == p
  }

  predicate IsInfix(p: string, s: string) {
    exists i :: 0 <= i <= |s| && OccursAt(p, s, i)
  }

  /** `s.replace(p, "")`: removes the non-overlapping occurrences of `p`,
      scanning from the left; an empty `p` leaves `s` unchanged. */
  function RemoveAll(s: string, p: string): (r: string)
    ensures |r| <= |s|
    ensures p == [] ==> r == s
  {
    if p == [] || |s| < |p| then s
    else if s[..|p|] == p then RemoveAll(s[|p|..], p)
    else [s[0]] + RemoveAll(s[1..], p)
  }

  /** Where `p` does not occur at the front of `s`, it occurs in `s` exactly
      when it occurs in `s` without its first character. */
  lemma InfixPastFront(p: string, s: string)
    requires |s| >= 1 && !OccursAt(p, s, 0)
    ensures IsInfix(p, s) <==> IsInfix(p, s[1..])
  {
    if IsInfix(p, s) {
      var i :| 0 <= i <= |s| && OccursAt(p, s, i);
      assert s[1..][i - 1..i - 1 + |p|] == s[i..i + |p|];
      assert OccursAt(p, s[1..], i - 1);
    }
    if IsInfix(p, s[1..]) {
      var j :| 0 <= j <= |s| - 1 && OccursAt(p, s[1..], j);
      assert s[1..][j..j + |p|] == s[j + 1..j + 1 + |p|];
      assert OccursAt(p, s, j + 1);
    }
  }

  /** Removing `p` changes `s` exactly when `p` is non-empty and occurs in
      `s`; when it does, the result is strictly shorter. */
  lemma {:induction false} RemoveAllChangesIff(s: string, p: string)
    ensures RemoveAll(s, p) == s <==> p == [] || !IsInfix(p, s)
    ensures p != [] && IsInfix(p, s) ==> |RemoveAll(s, p)| < |s|
  {
    if p != [] && |s| >= |p| {
      if s[..|p|] == p {
        assert OccursAt(p, s, 0);
      } else {
        RemoveAllChangesIff(s[1..], p);
        InfixPastFront(p, s);
        var r := RemoveAll(s[1..], p);
        assert RemoveAll(s, p) == [s[0]] + r;
        assert [s[0]] + r == s <==> r == s[1..] by {
          if r == s[1..] {
            assert [s[0]] + s[1..] == s;
          }
          if [s[0]] + r == s {
            assert ([s[0]] + r)[1..] == r;
          }
        }
      }
    }
  }

  /** An occurrence of `p` in the tail of `s` is an occurrence in `s`. */
  lemma InfixOfTail(p: string, s: string)
    requires |s| >= 1
    ensures IsInfix(p, s[1..]) ==> IsInfix(p, s)
  {
    if IsInfix(p, s[1..]) {
      var j :| 0 <= j <= |s| - 1 && OccursAt(p, s[1..], j);
      assert s[1..][j..j + |p|] == s[j + 1..j + 1 + |p|];
      assert OccursAt(p, s, j + 1);
    }
  }

  /** The scan keeps everything before the leftmost occurrence of `p`, drops
      that occurrence and carries on after it: `u` is the text before the
      first occurrence exactly when no occurrence starts inside `u`. With
      RemoveAllChangesIff (no occurrence, nothing removed) this fixes the
      value of RemoveAll on every input. */
  lemma {:induction false} RemoveAllAtFirstOccurrence(u: string, p: string, v: string)
    requires p != [] && !IsInfix(p, u + p[..|p| - 1])
    ensures RemoveAll(u + p + v, p) == u + RemoveAll(v, p)
    decreases |u|
  {
    var s := u + p + v;
    if u == [] {
      assert s[..|p|] == p;
      assert s[|p|..] == v;
    } else {
      var w := u + p[..|p| - 1];
      assert !OccursAt(p, w, 0);
      assert w[..|p|] == s[..|p|];
      assert w[1..] == u[1..] + p[..|p| - 1];
      InfixOfTail(p, w);
      RemoveAllAtFirstOccurrence(u[1..], p, v);
      assert s[1..] == u[1..] + p + v;
      assert [u[0]] + (u[1..] + RemoveAll(v, p)) == u + RemoveAll(v, p);
    }
  }

  /** Occurrences are removed leftmost first and do not overlap: in "aaa"
      only the first "aa" goes. */
  lemma RemoveAllLeftmost()
    ensures RemoveAll("aaa", "aa") == "a"
  {
    assert !IsInfix("aa", "a") by {
      forall i | 0 <= i <= 1 ensures !OccursAt("aa", "a", i) { }
    }
    RemoveAllAtFirstOccurrence("", "aa", "a");
    assert "" + "aa" + "a" == "aaa";
  }
}
