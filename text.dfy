/**
 * The string primitives the TypeScript code leans on, written out:
 * `String.prototype.trim`, `split` on one character, `join`, ASCII
 * `toLowerCase`, `String(n)` for integers, and `filter(Boolean)` on strings.
 */
module Text {

  /** The characters `trim` removes: ECMAScript WhiteSpace and LineTerminator. */
  predicate IsWhitespace(c: char) {
    || ('\t' <= c <= '\r') || c == ' ' || c == '\U{A0}' || c == '\U{1680}'
    || ('\U{2000}' <= c <= '\U{200A}') || c == '\U{2028}' || c == '\U{2029}'
    || c == '\U{202F}' || c == '\U{205F}' || c == '\U{3000}' || c == '\U{FEFF}'
  }

  /** Neither end of `s` is whitespace. */
  predicate IsTrimmed(s: string) {
    |s| == 0 || (!IsWhitespace(s[0]) && !IsWhitespace(s[|s| - 1]))
  }

  /** `s` with its leading whitespace removed. */
  function TrimStart(s: string): (r: string)
    ensures |r| <= |s|
    ensures |r| > 0 ==> !IsWhitespace(r[0])
  {
    if |s| > 0 && IsWhitespace(s[0]) then TrimStart(s[1..]) else s
  }

  /** `s` with its trailing whitespace removed; what is left keeps the first character of `s`. */
  function TrimEnd(s: string): (r: string)
    ensures |r| <= |s|
    ensures |r| > 0 ==> !IsWhitespace(r[|r| - 1]) && r[0] == s[0]
  {
    if |s| > 0 && IsWhitespace(s[|s| - 1]) then TrimEnd(s[..|s| - 1]) else s
  }

  /** `TrimStart` removes a prefix made only of whitespace. */
  lemma {:induction false} TrimStartDropsPrefix(s: string)
    ensures var k := |s| - |TrimStart(s)|;
      TrimStart(s) == s[k..] && forall i :: 0 <= i < k ==> IsWhitespace(s[i])
  {
    if |s| > 0 && IsWhitespace(s[0]) {
      TrimStartDropsPrefix(s[1..]);
      assert forall i :: 1 <= i < |s| ==> s[1..][i - 1] == s[i];
      assert s[1..][|s| - 1 - |TrimStart(s)|..] == s[|s| - |TrimStart(s)|..];
    }
  }

  /** `TrimEnd` removes a suffix made only of whitespace. */
  lemma {:induction false} TrimEndDropsSuffix(s: string)
    ensures var k := |TrimEnd(s)|;
      TrimEnd(s) == s[..k] && forall i :: k <= i < |s| ==> IsWhitespace(s[i])
  {
    if |s| > 0 && IsWhitespace(s[|s| - 1]) {
      TrimEndDropsSuffix(s[..|s| - 1]);
      assert forall i :: 0 <= i < |s| - 1 ==> s[..|s| - 1][i] == s[i];
      assert s[..|s| - 1][..|TrimEnd(s)|] == s[..|TrimEnd(s)|];
    }
  }

  /**
   * `r` is what is left of `s` once a prefix and a suffix made only of
   * whitespace are cut off: nothing inside the kept part is touched.
   */
  ghost predicate CutsEdgeWhitespace(s: string, r: string) {
    exists a, b :: 0 <= a <= b <= |s| && r == s[a..b]
      && (forall i :: 0 <= i < a ==> IsWhitespace(s[i]))
      && (forall i :: b <= i < |s| ==> IsWhitespace(s[i]))
  }

  /** `String.prototype.trim`. */
  function Trim(s: string): (r: string)
    ensures IsTrimmed(r)
    ensures |r| <= |s|
  {
    TrimEnd(TrimStart(s))
  }

  /** A whitespace-only tail of the slice `s[a..]` is a whitespace-only tail of `s`. */
  lemma WhitespaceTailOfSlice(s: string, a: nat, k: nat)
    requires a + k <= |s|
    requires forall i :: k <= i < |s[a..]| ==> IsWhitespace(s[a..][i])
    ensures forall i :: a + k <= i < |s| ==> IsWhitespace(s[i])
  {
    forall i | a + k <= i < |s| ensures IsWhitespace(s[i]) {
      assert s[i] == s[a..][i - a];
    }
  }

  /** Where `Trim` cuts `s`: a whitespace-only prefix and suffix go, and the kept part has non-whitespace ends. */
  lemma TrimCut(s: string) returns (a: nat, b: nat)
    ensures a <= b <= |s| && Trim(s) == s[a..b]
    ensures forall i :: 0 <= i < a ==> IsWhitespace(s[i])
    ensures forall i :: b <= i < |s| ==> IsWhitespace(s[i])
    ensures a < b ==> !IsWhitespace(s[a]) && !IsWhitespace(s[b - 1])
  {
    var t := TrimStart(s);
    TrimStartDropsPrefix(s);
    var e := TrimEnd(t);
    TrimEndDropsSuffix(t);
    a := |s| - |t|;
    b := a + |e|;
    WhitespaceTailOfSlice(s, a, |e|);
    assert e == s[a..b] by {
      assert s[a..][..|e|] == s[a..b];
    }
    if a < b {
      assert e[0] == s[a] && e[|e| - 1] == s[b - 1];
    }
  }

  /** `Trim` removes only whitespace, and only at the two ends: the kept part is a slice of `s`. */
  lemma TrimCutsEdges(s: string)
    ensures CutsEdgeWhitespace(s, Trim(s))
  {
    var a, b := TrimCut(s);
  }

  /** Two cuts of `s` with whitespace-only edges and non-whitespace ends are the same cut. */
  lemma EdgeCutsAgree(s: string, a1: nat, b1: nat, a2: nat, b2: nat)
    requires a1 <= b1 <= |s| && a2 <= b2 <= |s|
    requires forall i :: 0 <= i < a1 ==> IsWhitespace(s[i])
    requires forall i :: b1 <= i < |s| ==> IsWhitespace(s[i])
    requires forall i :: 0 <= i < a2 ==> IsWhitespace(s[i])
    requires forall i :: b2 <= i < |s| ==> IsWhitespace(s[i])
    requires a1 < b1 ==> !IsWhitespace(s[a1]) && !IsWhitespace(s[b1 - 1])
    requires a2 < b2 ==> !IsWhitespace(s[a2]) && !IsWhitespace(s[b2 - 1])
    ensures s[a1..b1] == s[a2..b2]
  {
    if a1 < b1 {
      assert !(a1 < a2) && !(b2 <= a1);
      assert !(a2 < a1) && !(b1 <= a2);
      assert !(b1 < b2) && !(b2 < b1);
    } else if a2 < b2 {
      assert false;
    }
  }

  /**
   * `trim` is determined by what it promises: the only trimmed string that
   * `s` leaves once whitespace-only edges are cut off is `Trim(s)`.
   */
  lemma TrimUnique(s: string, r: string)
    requires IsTrimmed(r) && CutsEdgeWhitespace(s, r)
    ensures r == Trim(s)
  {
    var a1, b1 :| 0 <= a1 <= b1 <= |s| && r == s[a1..b1]
      && (forall i :: 0 <= i < a1 ==> IsWhitespace(s[i])) && (forall i :: b1 <= i < |s| ==> IsWhitespace(s[i]));
    if a1 < b1 {
      assert r[0] == s[a1] && r[|r| - 1] == s[b1 - 1];
    }
    var a2, b2 := TrimCut(s);
    EdgeCutsAgree(s, a1, b1, a2, b2);
  }

  /** A string with no whitespace at either end is left as it is by `Trim`. */
  lemma TrimmedIsFixed(s: string)
    requires IsTrimmed(s)
    ensures Trim(s) == s
  {
    if |s| > 0 {
      assert !IsWhitespace(s[0]);
      assert TrimStart(s) == s;
      assert !IsWhitespace(s[|s| - 1]);
      assert TrimEnd(s) == s;
    }
  }

  /** `Trim` is idempotent. */
  lemma TrimIdempotent(s: string)
    ensures Trim(Trim(s)) == Trim(s)
  {
    TrimmedIsFixed(Trim(s));
  }

  /** Trimming `prefix + s` where the prefix is all whitespace gives `Trim(s)`. */
  lemma TrimDropsWhitespacePrefix(w: string, s: string)
    requires forall i :: 0 <= i < |w| ==> IsWhitespace(w[i])
    ensures TrimStart(w + s) == TrimStart(s)
    ensures Trim(w + s) == Trim(s)
  {
    if |w| > 0 {
      assert (w + s)[0] == w[0];
      assert (w + s)[1..] == w[1..] + s;
      assert IsWhitespace((w + s)[0]);
      assert TrimStart(w + s) == TrimStart(w[1..] + s);
      TrimDropsWhitespacePrefix(w[1..], s);
    } else {
      assert w + s == s;
    }
  }

  /** Trimming `s + suffix` where the suffix is all whitespace gives `TrimEnd(s)`. */
  lemma TrimEndDropsWhitespaceSuffix(s: string, w: string)
    requires forall i :: 0 <= i < |w| ==> IsWhitespace(w[i])
    ensures TrimEnd(s + w) == TrimEnd(s)
  {
    if |w| > 0 {
      assert (s + w)[|s + w| - 1] == w[|w| - 1];
      assert (s + w)[..|s + w| - 1] == s + w[..|w| - 1];
      assert IsWhitespace((s + w)[|s + w| - 1]);
      assert TrimEnd(s + w) == TrimEnd(s + w[..|w| - 1]);
      TrimEndDropsWhitespaceSuffix(s, w[..|w| - 1]);
    } else {
      assert s + w == s;
    }
  }

  /** `filter(Boolean)` on strings: the non-empty entries, in order. */
  function DropEmpty(xs: seq<string>): (r: seq<string>)
    ensures |r| <= |xs|
    ensures forall i :: 0 <= i < |r| ==> r[i] != ""
    ensures forall i :: 0 <= i < |r| ==> r[i] in xs
    ensures forall x :: x in r <==> x in xs && x != ""
  {
    if |xs| == 0 then []
    else if xs[0] == "" then DropEmpty(xs[1..])
    else [xs[0]] + DropEmpty(xs[1..])
  }

  /** `DropEmpty` works entry by entry: the kept entries stay in their order. */
  lemma {:induction false} DropEmptyAppend(xs: seq<string>, ys: seq<string>)
    ensures DropEmpty(xs + ys) == DropEmpty(xs) + DropEmpty(ys)
  {
    if |xs| > 0 {
      var zs := xs + ys;
      assert zs[0] == xs[0] && zs[1..] == xs[1..] + ys;
      DropEmptyAppend(xs[1..], ys);
      if xs[0] != "" {
        assert DropEmpty(zs) == [xs[0]] + DropEmpty(xs[1..] + ys);
        assert DropEmpty(xs) == [xs[0]] + DropEmpty(xs[1..]);
      } else {
        assert DropEmpty(zs) == DropEmpty(xs[1..] + ys);
      }
    } else {
      assert xs + ys == ys;
    }
  }

  /** `DropEmpty` keeps a list without empty entries as it is. */
  lemma DropEmptyKeepsNonEmpty(xs: seq<string>)
    requires forall i :: 0 <= i < |xs| ==> xs[i] != ""
    ensures DropEmpty(xs) == xs
  {
    if |xs| > 0 {
      DropEmptyKeepsNonEmpty(xs[1..]);
    }
  }

  /** `map((s) => s.trim())`. */
  function TrimAll(xs: seq<string>): (r: seq<string>)
    ensures |r| == |xs|
    ensures forall i :: 0 <= i < |xs| ==> r[i] == Trim(xs[i]) && IsTrimmed(r[i])
  {
    seq(|xs|, i requires 0 <= i < |xs| => Trim(xs[i]))
  }

  /** `TrimAll` works entry by entry: the result for two lists joined is the two results joined. */
  lemma TrimAllAppend(xs: seq<string>, ys: seq<string>)
    ensures TrimAll(xs + ys) == TrimAll(xs) + TrimAll(ys)
  {
    var l, r := TrimAll(xs + ys), TrimAll(xs) + TrimAll(ys);
    assert |l| == |r|;
    forall i | 0 <= i < |xs| ensures l[i] == r[i] {
      assert (xs + ys)[i] == xs[i];
    }
    forall i | |xs| <= i < |l| ensures l[i] == r[i] {
      assert (xs + ys)[i] == ys[i - |xs|];
    }
  }

  /** `TrimAll` keeps a list of trimmed entries as it is. */
  lemma TrimAllKeepsTrimmed(xs: seq<string>)
    requires forall i :: 0 <= i < |xs| ==> IsTrimmed(xs[i])
    ensures TrimAll(xs) == xs
  {
    forall i | 0 <= i < |xs| ensures TrimAll(xs)[i] == xs[i] {
      TrimmedIsFixed(xs[i]);
    }
  }

  /** `s.split(sep)` for a one-character separator: never empty, and no part holds the separator. */
  function Split(s: string, sep: char): (r: seq<string>)
    ensures |r| >= 1
    ensures forall i :: 0 <= i < |r| ==> sep !in r[i]
  {
    if |s| == 0 then [""]
    else if s[0] == sep then [""] + Split(s[1..], sep)
    else
      var rest := Split(s[1..], sep);
      [[s[0]] + rest[0]] + rest[1..]
  }

  /** `xs.join(sep)`; the empty list joins to "". */
  function Join(xs: seq<string>, sep: string): string
  {
    if |xs| == 0 then ""
    else if |xs| == 1 then xs[0]
    else xs[0] + sep + Join(xs[1..], sep)
  }

  /** A string without the separator splits into itself. */
  lemma SplitWithoutSeparator(a: string, sep: char)
    requires sep !in a
    ensures Split(a, sep) == [a]
  {
    if |a| > 0 {
      assert a[0] != sep;
      SplitWithoutSeparator(a[1..], sep);
      assert [a[0]] + a[1..] == a;
    }
  }

  /** Splitting `a + sep + b`, where `a` has no separator, yields `a` and then the parts of `b`. */
  lemma SplitAtFirstSeparator(a: string, b: string, sep: char)
    requires sep !in a
    ensures Split(a + [sep] + b, sep) == [a] + Split(b, sep)
  {
    if |a| == 0 {
      assert a + [sep] + b == [sep] + b;
      assert ([sep] + b)[1..] == b;
    } else {
      assert (a + [sep] + b)[1..] == a[1..] + [sep] + b;
      SplitAtFirstSeparator(a[1..], b, sep);
      assert [a[0]] + a[1..] == a;
    }
  }

  /** Round trip: joining separator-free parts and splitting again gives the parts back. */
  lemma {:induction false} SplitJoin(xs: seq<string>, sep: char)
    requires |xs| >= 1
    requires forall i :: 0 <= i < |xs| ==> sep !in xs[i]
    ensures Split(Join(xs, [sep]), sep) == xs
  {
    if |xs| == 1 {
      SplitWithoutSeparator(xs[0], sep);
    } else {
      SplitJoin(xs[1..], sep);
      SplitAtFirstSeparator(xs[0], Join(xs[1..], [sep]), sep);
      assert [xs[0]] + xs[1..] == xs;
    }
  }

  /** Round trip the other way: splitting and joining again gives the string back. */
  lemma {:induction false} JoinSplit(s: string, sep: char)
    ensures Join(Split(s, sep), [sep]) == s
  {
    if |s| > 0 {
      JoinSplit(s[1..], sep);
      var rest := Split(s[1..], sep);
      if s[0] == sep {
        assert [s[0]] + s[1..] == s;
      } else {
        assert [s[0]] + Join(rest, [sep]) == s;
        if |rest| == 1 {
        } else {
          assert ([[s[0]] + rest[0]] + rest[1..])[1..] == rest[1..];
        }
      }
    }
  }

  /** ASCII `toLowerCase` of one character. */
  function LowerChar(c: char): (r: char)
    ensures !('A' <= r <= 'Z')
    ensures !('A' <= c <= 'Z') ==> r == c
  {
    if 'A' <= c <= 'Z' then (c as int + 32) as char else c
  }

  /** ASCII `toLowerCase`. */
  function Lower(s: string): (r: string)
    ensures |r| == |s|
    ensures forall i :: 0 <= i < |s| ==> r[i] == LowerChar(s[i])
  {
    if |s| == 0 then [] else [LowerChar(s[0])] + Lower(s[1..])
  }

  /** Case-insensitive test that `s` starts with the lower-case `prefix` (a regular expression `/^prefix/i`). */
  predicate StartsWithIgnoreCase(s: string, prefix: string) {
    |prefix| <= |s| && Lower(s[..|prefix|]) == prefix
  }

  function DigitChar(d: nat): char
    requires d < 10
  {
    "0123456789"[d]
  }

  /** `String(n)` for a natural number: its decimal digits, without leading zeros. */
  function NatToString(n: nat): (r: string)
    ensures |r| >= 1
    ensures forall i :: 0 <= i < |r| ==> '0' <= r[i] <= '9'
    ensures (|r| == 1) == (n < 10)
  {
    if n < 10 then [DigitChar(n)] else NatToString(n / 10) + [DigitChar(n % 10)]
  }

  /** Different numbers print differently. */
  lemma {:induction false} NatToStringInjective(a: nat, b: nat)
    requires NatToString(a) == NatToString(b)
    ensures a == b
  {
    if a >= 10 && b >= 10 {
      var sa, sb := NatToString(a), NatToString(b);
      assert sa[..|sa| - 1] == NatToString(a / 10);
      assert sb[..|sb| - 1] == NatToString(b / 10);
      NatToStringInjective(a / 10, b / 10);
      assert DigitChar(a % 10) == sa[|sa| - 1] == sb[|sb| - 1] == DigitChar(b % 10);
    }
  }

  /** `String(n)` for an integer. */
  function IntToString(n: int): (r: string)
    ensures |r| >= 1
    ensures forall i :: 0 <= i < |r| ==> r[i] == '-' || '0' <= r[i] <= '9'
  {
    if n < 0 then "-" + NatToString(-n) else NatToString(n)
  }
}
