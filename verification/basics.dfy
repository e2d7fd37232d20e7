/** Small building blocks shared by the reconstruction engine: an optional value,
    JavaScript's rounding, decimal rendering of integers and the few string
    operations the source uses (join, includes, replace, toLowerCase). */
module Basics {

  /** A value that may be absent (the source's `null` / `undefined`). */
  datatype Option<+T> = None | Some(value: T)
  {
    /** The value, or `default` when absent (the source's `x || default`). */
    function GetOr(default: T): T
    {
      match this
      case Some(v) => v
      case None => default
    }
  }

  /** JavaScript's `Math.round`: the nearest integer, halves rounded towards +infinity. */
  function Round(x: real): (r: int)
    ensures r as real - 0.5 <= x < r as real + 0.5
  {
    (x + 0.5).Floor
  }

  /** Rounding is monotone. */
  lemma RoundMonotone(x: real, y: real)
    requires x <= y
    ensures Round(x) <= Round(y)
  {
  }

  /** Rounding leaves integers unchanged. */
  lemma RoundInt(n: int)
    ensures Round(n as real) == n
  {
  }

  function Min(x: real, y: real): (r: real)
    ensures r <= x && r <= y && (r == x || r == y)
  {
    if x <= y then x else y
  }

  function Max(x: real, y: real): (r: real)
    ensures r >= x && r >= y && (r == x || r == y)
  {
    if x <= y then y else x
  }

  function DigitChar(d: nat): (c: char)
    requires d < 10
    ensures '0' <= c <= '9'
  {
    ('0' as int + d) as char
  }

  function DigitValue(c: char): (d: nat)
    requires '0' <= c <= '9'
    ensures d < 10 && DigitChar(d) == c
    ensures forall e | 0 <= e < 10 :: DigitChar(e) == c ==> e == d
  {
    c as int - '0' as int
  }

  predicate IsDigits(s: string)
  {
    forall i :: 0 <= i < |s| ==> '0' <= s[i] <= '9'
  }

  /** Decimal digits of a natural number, most significant first, no leading zeros. */
  function NatToString(n: nat): (s: string)
    ensures |s| > 0 && IsDigits(s)
    ensures |s| > 1 ==> s[0] != '0'
    decreases n
  {
    if n < 10 then [DigitChar(n)] else NatToString(n / 10) + [DigitChar(n % 10)]
  }

  /** The decimal number a non-empty digit string denotes. */
  function ParseNat(s: string): nat
    requires IsDigits(s)
    decreases |s|
  {
    if |s| == 0 then 0 else 10 * ParseNat(s[..|s| - 1]) + DigitValue(s[|s| - 1])
  }

  /** Reading back the decimal rendering gives the number again. */
  lemma {:induction false} NatToStringRoundTrip(n: nat)
    ensures ParseNat(NatToString(n)) == n
    decreases n
  {
    var s := NatToString(n);
    if n >= 10 {
      NatToStringRoundTrip(n / 10);
      assert s[..|s| - 1] == NatToString(n / 10);
      assert DigitValue(s[|s| - 1]) == n % 10;
    } else {
      assert DigitValue(s[0]) == n;
    }
  }

  /** How JavaScript writes an integer-valued number inside a template string. */
  function IntToString(n: int): (s: string)
    ensures |s| > 0
    ensures n >= 0 <==> s[0] != '-'
    ensures n >= 0 ==> IsDigits(s) && ParseNat(s) == n
    ensures n < 0 ==> IsDigits(s[1..]) && ParseNat(s[1..]) == -n
  {
    if n < 0 then
      NatToStringRoundTrip(-n);
      assert ("-" + NatToString(-n))[1..] == NatToString(-n);
      "-" + NatToString(-n)
    else
      NatToStringRoundTrip(n);
      NatToString(n)
  }

  /** `Array.prototype.find` / `findIndex`: the first index from `from` on whose
      element satisfies `p`. */
  function FirstIndex<T>(s: seq<T>, p: T -> bool, from: nat): (r: Option<nat>)
    requires from <= |s|
    ensures r.Some? ==> from <= r.value < |s| && p(s[r.value])
    ensures r.Some? ==> forall j | from <= j < r.value :: !p(s[j])
    ensures r.None? ==> forall j | from <= j < |s| :: !p(s[j])
    decreases |s| - from
  {
    if from == |s| then None
    else if p(s[from]) then Some(from)
    else FirstIndex(s, p, from + 1)
  }

  /** `Array.prototype.join`. */
  function Join(items: seq<string>, sep: string): (r: string)
    ensures |items| == 0 ==> r == []
    ensures |items| == 1 ==> r == items[0]
    ensures |items| > 0 ==> items[0] <= r
    decreases |items|
  {
    if |items| == 0 then ""
    else if |items| == 1 then items[0]
    else
      PrefixOfAppend(items[0], sep + Join(items[1..], sep));
      AppendAssoc(items[0], sep, Join(items[1..], sep));
      items[0] + sep + Join(items[1..], sep)
  }

  /** Every item occurs in the joined text. */
  lemma {:induction false} JoinContainsItems(items: seq<string>, sep: string, k: nat)
    requires k < |items|
    ensures Contains(Join(items, sep), items[k])
    decreases |items|
  {
    if k == 0 {
      assert items[0] <= Join(items, sep)[0..];
    } else {
      JoinContainsItems(items[1..], sep, k - 1);
      ContainsAfter(items[0] + sep, Join(items[1..], sep), items[k]);
      AppendAssoc(items[0], sep, Join(items[1..], sep));
    }
  }

  /** The strings one after another (`join('')`, or repeated `+=`). */
  function Concat(items: seq<string>): string
    decreases |items|
  {
    if |items| == 0 then "" else items[0] + Concat(items[1..])
  }

  /** Concatenation distributes over joining the lists. */
  lemma {:induction false} ConcatAppend(a: seq<string>, b: seq<string>)
    ensures Concat(a + b) == Concat(a) + Concat(b)
    decreases |a|
  {
    if |a| == 0 {
      assert a + b == b;
    } else {
      assert (a + b)[1..] == a[1..] + b;
      ConcatAppend(a[1..], b);
      assert a[0] + (Concat(a[1..]) + Concat(b)) == (a[0] + Concat(a[1..])) + Concat(b);
    }
  }

  /** A non-empty list concatenates to its first string followed by the rest, and
      to everything but its last string followed by the last. */
  lemma ConcatEnds(items: seq<string>)
    requires |items| > 0
    ensures Concat(items) == items[0] + Concat(items[1..])
    ensures Concat(items) == Concat(items[..|items| - 1]) + items[|items| - 1]
  {
    var n := |items| - 1;
    assert items == items[..n] + [items[n]];
    ConcatAppend(items[..n], [items[n]]);
    assert Concat([items[n]]) == items[n] + "";
  }

  lemma AppendAssoc<T>(a: seq<T>, b: seq<T>, c: seq<T>)
    ensures (a + b) + c == a + (b + c)
  {
  }

  lemma PrefixOfAppend<T>(a: seq<T>, b: seq<T>)
    ensures a <= a + b
  {
    assert (a + b)[..|a|] == a;
  }

  /** `String.prototype.includes`: `sub` starts at some position of `s`. */
  predicate Contains(s: string, sub: string)
    decreases |s|
  {
    sub <= s || (|s| > 0 && Contains(s[1..], sub))
  }

  /** The occurrence read as a position: `includes` holds exactly when the
      pattern starts at some index of the text. */
  lemma {:induction false} ContainsAt(s: string, sub: string)
    ensures Contains(s, sub) <==> exists i | 0 <= i <= |s| :: sub <= s[i..]
    decreases |s|
  {
    assert s[0..] == s;
    if |s| > 0 {
      ContainsAt(s[1..], sub);
      assert forall i | 0 <= i <= |s| - 1 :: s[1..][i..] == s[i + 1..];
      if exists i | 0 <= i <= |s| :: sub <= s[i..] {
        var i :| 0 <= i <= |s| && sub <= s[i..];
        if i > 0 {
          assert sub <= s[1..][i - 1..];
        }
      }
    }
  }

  /** Text put in front keeps every occurrence. */
  lemma {:induction false} ContainsAfter(a: string, t: string, sub: string)
    requires Contains(t, sub)
    ensures Contains(a + t, sub)
    decreases |a|
  {
    if |a| == 0 {
      assert a + t == t;
    } else {
      ContainsAfter(a[1..], t, sub);
      assert (a + t)[1..] == a[1..] + t;
    }
  }

  /** `String.prototype.replace` with a string pattern: only the first occurrence is replaced. */
  function ReplaceFirst(s: string, pat: string, rep: string): (r: string)
    requires |pat| > 0
    ensures !Contains(s, pat) ==> r == s
    decreases |s|
  {
    if |s| < |pat| then s
    else if pat <= s then rep + s[|pat|..]
    else [s[0]] + ReplaceFirst(s[1..], pat, rep)
  }

  /** The first occurrence, at position i, is the one replaced. */
  lemma {:induction false} ReplaceFirstAt(s: string, pat: string, rep: string, i: nat)
    requires |pat| > 0 && i + |pat| <= |s| && pat <= s[i..]
    requires forall j | 0 <= j < i :: !(pat <= s[j..])
    ensures ReplaceFirst(s, pat, rep) == s[..i] + rep + s[i + |pat|..]
    decreases i
  {
    if i == 0 {
      assert s[0..] == s;
      assert s[..0] + rep == rep;
    } else {
      var t := s[1..];
      assert s[0..] == s;
      assert !(pat <= s);
      assert ReplaceFirst(s, pat, rep) == [s[0]] + ReplaceFirst(t, pat, rep);
      forall j | 0 <= j < i - 1
        ensures !(pat <= t[j..])
      {
        assert t[j..] == s[j + 1..];
      }
      assert t[i - 1..] == s[i..];
      ReplaceFirstAt(t, pat, rep, i - 1);
      assert t[..i - 1] == s[1..i];
      assert t[i - 1 + |pat|..] == s[i + |pat|..];
      assert [s[0]] + s[1..i] == s[..i];
      AppendAssoc([s[0]], s[1..i] + rep, s[i + |pat|..]);
      AppendAssoc([s[0]], s[1..i], rep);
    }
  }

  /** A prefix that cannot start the pattern is passed over unchanged. */
  lemma {:induction false} ReplaceFirstSkip(a: string, t: string, pat: string, rep: string)
    requires |pat| > 0 && pat[0] !in a
    ensures ReplaceFirst(a + t, pat, rep) == a + ReplaceFirst(t, pat, rep)
    decreases |a|
  {
    if |a| == 0 {
      assert a + t == t;
    } else {
      var s := a + t;
      assert s[0] == a[0];
      assert s[1..] == a[1..] + t;
      ReplaceFirstSkip(a[1..], t, pat, rep);
      if |s| >= |pat| {
        assert !(pat <= s);
        assert a == [a[0]] + a[1..];
      }
    }
  }

  /** A string that does not even contain the pattern's first character is unchanged. */
  lemma ReplaceFirstAbsent(s: string, pat: string, rep: string)
    requires |pat| > 0 && pat[0] !in s
    ensures ReplaceFirst(s, pat, rep) == s
  {
    ReplaceFirstSkip(s, [], pat, rep);
    assert s + [] == s;
  }

  /** A string whose first two characters only half match the pattern moves on by one. */
  lemma ReplaceFirstMismatch(s: string, pat: string, rep: string)
    requires |pat| >= 2 && |s| >= 2 && s[1] != pat[1]
    ensures ReplaceFirst(s, pat, rep) == [s[0]] + ReplaceFirst(s[1..], pat, rep)
  {
    if |s| >= |pat| {
      assert !(pat <= s);
    }
  }

  /** An occurrence at the very start is replaced. */
  lemma ReplaceFirstHere(pat: string, rest: string, rep: string)
    requires |pat| > 0
    ensures ReplaceFirst(pat + rest, pat, rep) == rep + rest
  {
    assert (pat + rest)[|pat|..] == rest;
  }

  /** The upper-case letters `toLowerCase` maps in the model: A-Z and the
      Latin-1 capitals À-Þ apart from the multiplication sign. */
  predicate IsUpper(c: char)
  {
    ('A' <= c <= 'Z') || ('\U{C0}' <= c <= '\U{DE}' && c != '\U{D7}')
  }

  /** Each modelled capital is 32 code points above its small letter. */
  function LowerChar(c: char): (d: char)
    ensures !IsUpper(d)
    ensures !IsUpper(c) ==> d == c
    ensures IsUpper(c) ==> d as int == c as int + 32
  {
    if IsUpper(c) then (c as int + 32) as char else c
  }

  /** `String.prototype.toLowerCase`, letter by letter. */
  function ToLower(s: string): (r: string)
    ensures |r| == |s|
    ensures forall i | 0 <= i < |s| :: !IsUpper(r[i])
    ensures forall i | 0 <= i < |s| :: !IsUpper(s[i]) ==> r[i] == s[i]
    ensures forall i | 0 <= i < |s| :: IsUpper(s[i]) ==> r[i] as int == s[i] as int + 32
  {
    seq(|s|, i requires 0 <= i < |s| => LowerChar(s[i]))
  }

  /** Lower-casing leaves no capital behind, so doing it twice changes nothing. */
  lemma ToLowerIdempotent(s: string)
    ensures forall i | 0 <= i < |s| :: !IsUpper(ToLower(s)[i])
    ensures ToLower(ToLower(s)) == ToLower(s)
  {
  }
}
