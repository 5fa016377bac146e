/**
 * The java.lang.String and commons-lang operations the extension relies on:
 * prefix and suffix tests, indexOf, the literal String.replace, String.replaceAll with a
 * pattern free of metacharacters, StringUtils.split,
 * Integer.toString, equalsIgnoreCase and trim().isEmpty().
 */
module Text {
  import opened Wrappers

  predicate StartsWith(s: string, p: string) {
    |p| <= |s| && s[..|p|] == p
  }

  predicate EndsWith(s: string, p: string) {
    |p| <= |s| && s[|s| - |p|..] == p
  }

  /** `p` occurs in `s` starting at index `i`. */
  predicate OccursAt(s: string, p: string, i: int) {
    0 <= i && i + |p| <= |s| && s[i..i + |p|] == p
  }

  /** String.contains. */
  predicate Contains(s: string, p: string) {
    exists i :: 0 <= i <= |s| - |p| && OccursAt(s, p, i)
  }

  /** String.indexOf(p, from) for a non-empty `p`: the first occurrence at or after `from`, or -1. */
  function IndexOf(s: string, p: string, from: nat): (r: int)
    requires |p| > 0
    ensures -1 <= r
    ensures r >= 0 ==> from <= r && OccursAt(s, p, r)
  {
    Search(s, p, from)
  }

  /** What IndexOf finds is the first occurrence at or after `from`; -1 means there is none. */
  lemma IndexOfFirst(s: string, p: string, from: nat)
    requires |p| > 0
    ensures forall j :: from <= j && (IndexOf(s, p, from) < 0 || j < IndexOf(s, p, from)) ==> !OccursAt(s, p, j)
  {
    SearchFirst(s, p, from);
  }

  /** The scan behind IndexOf, one start position at a time. */
  function Search(s: string, p: string, from: nat): (r: int)
    requires |p| > 0
    ensures -1 <= r
    ensures r >= 0 ==> from <= r && OccursAt(s, p, r)
    decreases |s| - from
  {
    if from + |p| > |s| then -1
    else if s[from..from + |p|] == p then from
    else Search(s, p, from + 1)
  }

  /** No occurrence lies between `from` and what the scan finds. */
  lemma {:induction false} SearchFirst(s: string, p: string, from: nat)
    requires |p| > 0
    ensures forall j :: from <= j && (Search(s, p, from) < 0 || j < Search(s, p, from)) ==> !OccursAt(s, p, j)
    decreases |s| - from
  {
    if from + |p| <= |s| && s[from..from + |p|] != p {
      SearchFirst(s, p, from + 1);
    }
  }

  lemma ContainsIffIndexOf(s: string, p: string)
    requires |p| > 0
    ensures Contains(s, p) <==> IndexOf(s, p, 0) >= 0
  {
    IndexOfFirst(s, p, 0);
  }

  lemma OccursInTail(s: string, p: string, i: int)
    requires |s| > 0 && OccursAt(s[1..], p, i)
    ensures OccursAt(s, p, i + 1)
  {
    assert s[i + 1..i + 1 + |p|] == s[1..][i..i + |p|];
  }

  lemma OccursInSuffix(s: string, p: string, k: nat, i: int)
    requires k <= |s| && OccursAt(s[k..], p, i)
    ensures OccursAt(s, p, k + i)
  {
    assert s[k + i..k + i + |p|] == s[k..][i..i + |p|];
  }

  /** Searching a suffix finds the same occurrences, shifted by the suffix's start. */
  lemma IndexOfSuffix(s: string, p: string, k: nat, from: nat)
    requires |p| > 0 && k <= from && k <= |s|
    ensures IndexOf(s, p, from) == (if IndexOf(s[k..], p, from - k) < 0 then -1 else IndexOf(s[k..], p, from - k) + k)
  {
    SearchSuffix(s, p, k, from);
  }

  lemma {:induction false} SearchSuffix(s: string, p: string, k: nat, from: nat)
    requires |p| > 0 && k <= from && k <= |s|
    ensures Search(s, p, from) == (if Search(s[k..], p, from - k) < 0 then -1 else Search(s[k..], p, from - k) + k)
    decreases |s| - from
  {
    if from + |p| <= |s| {
      assert s[k..][from - k..from - k + |p|] == s[from..from + |p|];
      if s[from..from + |p|] != p {
        SearchSuffix(s, p, k, from + 1);
      }
    }
  }

  /** A search may start later when nothing occurs in between. */
  lemma IndexOfSkip(s: string, p: string, a: nat, b: nat)
    requires |p| > 0 && a <= b
    requires forall j :: a <= j < b ==> !OccursAt(s, p, j)
    ensures IndexOf(s, p, a) == IndexOf(s, p, b)
  {
    SearchSkip(s, p, a, b);
  }

  lemma {:induction false} SearchSkip(s: string, p: string, a: nat, b: nat)
    requires |p| > 0 && a <= b
    requires forall j :: a <= j < b ==> !OccursAt(s, p, j)
    ensures Search(s, p, a) == Search(s, p, b)
    decreases b - a
  {
    if a < b && a + |p| <= |s| {
      assert !OccursAt(s, p, a);
      SearchSkip(s, p, a + 1, b);
    }
  }

  /**
   * String.replace(pat, rep) (and String.replaceAll when `pat` holds no regular-expression
   * metacharacter): every occurrence, found left to right without overlap, is replaced.
   */
  function ReplaceAll(s: string, pat: string, rep: string): string
    requires |pat| > 0
    decreases |s|
  {
    if |s| < |pat| then s
    else if s[..|pat|] == pat then rep + ReplaceAll(s[|pat|..], pat, rep)
    else [s[0]] + ReplaceAll(s[1..], pat, rep)
  }

  /** The number of occurrences ReplaceAll replaces. */
  function Occurrences(s: string, pat: string): nat
    requires |pat| > 0
    decreases |s|
  {
    if |s| < |pat| then 0
    else if s[..|pat|] == pat then 1 + Occurrences(s[|pat|..], pat)
    else Occurrences(s[1..], pat)
  }

  /** Without an occurrence of the pattern, replacing is the identity. */
  lemma {:induction false} ReplaceAllAbsent(s: string, pat: string, rep: string)
    requires |pat| > 0 && !Contains(s, pat)
    ensures ReplaceAll(s, pat, rep) == s
    decreases |s|
  {
    if |s| < |pat| {
    } else {
      assert !OccursAt(s, pat, 0);
      forall i | OccursAt(s[1..], pat, i) ensures false {
        OccursInTail(s, pat, i);
      }
      ReplaceAllAbsent(s[1..], pat, rep);
    }
  }

  /** Some occurrence is found exactly when the pattern occurs at all. */
  lemma {:induction false} OccurrencesPositive(s: string, pat: string)
    requires |pat| > 0
    ensures Occurrences(s, pat) > 0 <==> Contains(s, pat)
    decreases |s|
  {
    if |s| < |pat| {
      assert forall i :: !OccursAt(s, pat, i);
    } else if s[..|pat|] == pat {
      assert OccursAt(s, pat, 0);
    } else {
      OccurrencesPositive(s[1..], pat);
      if Contains(s, pat) {
        var i :| 0 <= i <= |s| - |pat| && OccursAt(s, pat, i);
        assert !OccursAt(s, pat, 0);
        assert i > 0;
        assert s[1..][i - 1..i - 1 + |pat|] == s[i..i + |pat|];
        assert OccursAt(s[1..], pat, i - 1);
      }
      if Contains(s[1..], pat) {
        var i :| OccursAt(s[1..], pat, i);
        OccursInTail(s, pat, i);
      }
    }
  }

  /** Each replaced occurrence trades |pat| characters for |rep|. */
  lemma {:induction false} ReplaceAllLength(s: string, pat: string, rep: string)
    requires |pat| > 0
    ensures |ReplaceAll(s, pat, rep)| == |s| + Occurrences(s, pat) * (|rep| - |pat|)
    decreases |s|
  {
    if |s| < |pat| {
    } else if s[..|pat|] == pat {
      var t := s[|pat|..];
      var n := Occurrences(t, pat);
      ReplaceAllLength(t, pat, rep);
      assert ReplaceAll(s, pat, rep) == rep + ReplaceAll(t, pat, rep);
      assert Occurrences(s, pat) == n + 1;
      MulStep(n, |rep| - |pat|);
    } else {
      var t := s[1..];
      ReplaceAllLength(t, pat, rep);
      assert ReplaceAll(s, pat, rep) == [s[0]] + ReplaceAll(t, pat, rep);
      assert Occurrences(s, pat) == Occurrences(t, pat);
    }
  }

  /** A replacement string in which neither `\` nor `$` has a special meaning to replaceAll. */
  predicate PlainReplacement(rep: string) {
    '\\' !in rep && '$' !in rep
  }

  /** The zeros a `$0` group reference absorbs, dropped. */
  function DropZeros(s: string): (r: string)
    ensures |r| <= |s|
  {
    if s != [] && s[0] == '0' then DropZeros(s[1..]) else s
  }

  function Prefixed(p: string, o: Outcome<string>): Outcome<string> {
    if o.Fail? then o else Ok(p + o.value)
  }

  /**
   * What a replacement string stands for under java.util.regex.Matcher.appendReplacement when
   * the pattern has no capturing group, read left to right: `\c` is the character c; `$0`,
   * with the further zeros it absorbs, is the matched text; `$1` to `$9` name a group that does
   * not exist (IndexOutOfBoundsException); a trailing `\` or `$`, and `$` before anything
   * but a digit (a named group included), are illegal (IllegalArgumentException).
   */
  function Replacement(rep: string, matched: string): Outcome<string>
    decreases |rep|
  {
    if rep == [] then Ok([])
    else if rep[0] == '\\' then
      if |rep| == 1 then Fail(IllegalArgument) else Prefixed([rep[1]], Replacement(rep[2..], matched))
    else if rep[0] == '$' then
      if |rep| == 1 then Fail(IllegalArgument)
      else if rep[1] == '0' then Prefixed(matched, Replacement(DropZeros(rep[2..]), matched))
      else if '1' <= rep[1] <= '9' then Fail(IndexOutOfBounds)
      else Fail(IllegalArgument)
    else Prefixed([rep[0]], Replacement(rep[1..], matched))
  }

  /** A group-0 reference, an escape, a reference to a missing group and a dangling `$`. */
  lemma ReplacementExamples(matched: string)
    ensures Replacement("x$0", matched) == Ok("x" + matched)
    ensures Replacement("a\\b", matched) == Ok("ab")
    ensures Replacement("a$1", matched) == Fail(IndexOutOfBounds)
    ensures Replacement("a$", matched) == Fail(IllegalArgument)
  {
    assert ["x$0"[0]] == "x" && "x$0"[1..] == "$0" && "$0"[2..] == [] && DropZeros([]) == [];
    assert Replacement("$0", matched) == Ok(matched + []);
    assert matched + [] == matched;
    assert ["a\\b"[0]] == "a" && "a\\b"[1..] == "\\b" && "\\b"[2..] == [];
    assert Replacement("\\b", matched) == Ok("b" + []);
    assert "b" + [] == "b" && "a" + "b" == "ab";
    assert "a$1"[1..] == "$1" && "a$"[1..] == "$";
  }

  /** Matcher.quoteReplacement: every `\` and `$` escaped by a backslash. */
  function Quoted(s: string): (r: string)
    ensures PlainReplacement(s) ==> r == s
  {
    if s == [] then []
    else if s[0] == '\\' || s[0] == '$' then ['\\', s[0]] + Quoted(s[1..])
    else [s[0]] + Quoted(s[1..])
  }

  /** A replacement without `\` or `$` stands for itself. */
  lemma {:induction false} ReplacementPlain(rep: string, matched: string)
    requires PlainReplacement(rep)
    ensures Replacement(rep, matched) == Ok(rep)
    decreases |rep|
  {
    if rep != [] {
      assert rep[0] in rep;
      assert PlainReplacement(rep[1..]) by {
        forall c | c in rep[1..] ensures c in rep {
        }
      }
      ReplacementPlain(rep[1..], matched);
      assert [rep[0]] + rep[1..] == rep;
    }
  }

  /** Any text, quoted, stands for itself: quoting is what makes a replacement literal. */
  lemma {:induction false} ReplacementQuoted(s: string, matched: string)
    ensures Replacement(Quoted(s), matched) == Ok(s)
    decreases |s|
  {
    if s != [] {
      ReplacementQuoted(s[1..], matched);
      var q := Quoted(s);
      if s[0] == '\\' || s[0] == '$' {
        assert q[0] == '\\' && q[1] == s[0] && q[2..] == Quoted(s[1..]);
      } else {
        assert q[0] == s[0] && q[1..] == Quoted(s[1..]);
      }
      assert [s[0]] + s[1..] == s;
    }
  }

  /**
   * String.replaceAll(pat, rep) for a pattern free of metacharacters: with no occurrence the
   * text comes back unchanged and the replacement is never read; otherwise every occurrence
   * gives way to what the replacement stands for, or the replacement's exception is raised.
   */
  function RegexReplaceAll(s: string, pat: string, rep: string): (r: Outcome<string>)
    requires |pat| > 0
    ensures !Contains(s, pat) ==> r == Ok(s)
    ensures Contains(s, pat) ==> (r.Fail? <==> Replacement(rep, pat).Fail?)
  {
    OccurrencesPositive(s, pat);
    if Occurrences(s, pat) == 0 then Ok(s)
    else
      var expanded := Replacement(rep, pat);
      if expanded.Fail? then Fail(expanded.error) else Ok(ReplaceAll(s, pat, expanded.value))
  }

  /** With a plain replacement, replaceAll is the literal replace. */
  lemma RegexReplaceAllPlain(s: string, pat: string, rep: string)
    requires |pat| > 0
    ensures PlainReplacement(rep) ==> RegexReplaceAll(s, pat, rep) == Ok(ReplaceAll(s, pat, rep))
  {
    if PlainReplacement(rep) {
      ReplacementPlain(rep, pat);
      OccurrencesPositive(s, pat);
      if !Contains(s, pat) {
        ReplaceAllAbsent(s, pat, rep);
      }
    }
  }

  lemma MulStep(n: int, d: int)
    ensures (n + 1) * d == n * d + d
  {
  }

  /** Replacing a single character by a single character works position by position. */
  lemma {:induction false} ReplaceCharAt(s: string, a: char, b: char)
    ensures |ReplaceAll(s, [a], [b])| == |s|
    ensures forall i :: 0 <= i < |s| ==> ReplaceAll(s, [a], [b])[i] == if s[i] == a then b else s[i]
    decreases |s|
  {
    if |s| > 0 {
      ReplaceCharAt(s[1..], a, b);
      var t := ReplaceAll(s[1..], [a], [b]);
      assert s[..1] == [s[0]];
      assert ReplaceAll(s, [a], [b]) == [if s[0] == a then b else s[0]] + t;
    }
  }

  /** Swapping `a` for `b` and back restores any text that did not contain `b`. */
  lemma ReplaceCharRoundTrip(s: string, a: char, b: char)
    requires b !in s
    ensures ReplaceAll(ReplaceAll(s, [a], [b]), [b], [a]) == s
  {
    var t := ReplaceAll(s, [a], [b]);
    ReplaceCharAt(s, a, b);
    ReplaceCharAt(t, b, a);
    var u := ReplaceAll(t, [b], [a]);
    assert forall i :: 0 <= i < |s| ==> u[i] == s[i];
  }

  /** The characters of `s` other than `c`. */
  function Remove(s: string, c: char): string {
    if s == [] then [] else (if s[0] == c then [] else [s[0]]) + Remove(s[1..], c)
  }

  lemma {:induction false} RemoveAppend(a: string, b: string, c: char)
    ensures Remove(a + b, c) == Remove(a, c) + Remove(b, c)
    decreases |a|
  {
    if a == [] {
      assert a + b == b;
    } else {
      assert (a + b)[1..] == a[1..] + b;
      RemoveAppend(a[1..], b, c);
    }
  }

  lemma {:induction false} RemoveAbsent(a: string, c: char)
    requires c !in a
    ensures Remove(a, c) == a
    decreases |a|
  {
    if a != [] {
      RemoveAbsent(a[1..], c);
    }
  }

  function Concat(ts: seq<string>): string {
    if ts == [] then [] else ts[0] + Concat(ts[1..])
  }

  /** The length of the run of non-`sep` characters that starts `s`. */
  function TokenEnd(s: string, sep: char): (k: nat)
    ensures k <= |s| && sep !in s[..k] && (k < |s| ==> s[k] == sep)
  {
    if s == [] || s[0] == sep then 0
    else
      var k := TokenEnd(s[1..], sep) + 1;
      assert s[..k] == [s[0]] + s[1..][..k - 1];
      k
  }

  /**
   * StringUtils.split(s, sep): the maximal runs of non-separator characters, so adjacent,
   * leading and trailing separators produce no empty token.
   */
  function Split(s: string, sep: char): (r: seq<string>)
    ensures forall t :: t in r ==> |t| > 0 && sep !in t
    ensures Concat(r) == Remove(s, sep)
    decreases |s|
  {
    if s == [] then []
    else if s[0] == sep then
      assert s == [s[0]] + s[1..];
      RemoveAppend([s[0]], s[1..], sep);
      Split(s[1..], sep)
    else
      var k := TokenEnd(s, sep);
      var rest := Split(s[k..], sep);
      assert s == s[..k] + s[k..];
      RemoveAppend(s[..k], s[k..], sep);
      RemoveAbsent(s[..k], sep);
      assert Concat([s[..k]] + rest) == s[..k] + Concat(rest) by {
        assert ([s[..k]] + rest)[1..] == rest;
      }
      [s[..k]] + rest
  }

  function DigitChar(d: nat): char
    requires d < 10
  {
    "0123456789"[d]
  }

  predicate IsDigit(c: char) {
    '0' <= c <= '9'
  }

  /** Integer.toString(n, 10) for a non-negative n. */
  function NatText(n: nat): (r: string)
    ensures |r| > 0 && forall i :: 0 <= i < |r| ==> IsDigit(r[i])
    decreases n
  {
    if n < 10 then [DigitChar(n)] else NatText(n / 10) + [DigitChar(n % 10)]
  }

  /** Integer.toString(i, 10). */
  function IntText(i: int): string {
    if i < 0 then "-" + NatText(-i) else NatText(i)
  }

  /** The value of a string of decimal digits. */
  function ParseNat(s: string): nat
    requires forall i :: 0 <= i < |s| ==> IsDigit(s[i])
  {
    if s == [] then 0
    else
      assert IsDigit(s[|s| - 1]);
      ParseNat(s[..|s| - 1]) * 10 + (s[|s| - 1] as int - '0' as int)
  }

  /** Integer.toString loses nothing: reading the digits back yields the number. */
  lemma {:induction false} ParseNatText(n: nat)
    ensures ParseNat(NatText(n)) == n
    decreases n
  {
    if n >= 10 {
      var r := NatText(n);
      assert r[..|r| - 1] == NatText(n / 10);
      ParseNatText(n / 10);
    }
  }

  function Pow10(k: nat): nat {
    if k == 0 then 1 else 10 * Pow10(k - 1)
  }

  /** A number in [10^(k-1), 10^k) is written with k digits. */
  lemma {:induction false} NatTextLength(n: nat, k: nat)
    requires k > 0 && Pow10(k - 1) <= n < Pow10(k)
    ensures |NatText(n)| == k
    decreases k
  {
    if k > 1 {
      NatTextLength(n / 10, k - 1);
    }
  }

  function LowerAscii(c: char): char {
    if 'A' <= c <= 'Z' then (c as int + 32) as char else c
  }

  /** String.equalsIgnoreCase, for a right-hand side made of ASCII letters. */
  predicate EqualsIgnoreCase(a: string, b: string) {
    |a| == |b| && forall i :: 0 <= i < |a| ==> LowerAscii(a[i]) == LowerAscii(b[i])
  }

  /** `s.trim().length() == 0`: trim() drops every character up to and including ' ' at both ends. */
  predicate BlankAfterTrim(s: string) {
    forall i :: 0 <= i < |s| ==> s[i] <= ' '
  }
}
