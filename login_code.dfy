/**
 * Preparing a provider's login code, as both revisions do while rebuilding the providers:
 * every `--image-base64--NAME--` marker is replaced by the data URL of attachment NAME, then
 * every `-PROVIDER-` placeholder by the provider's name.
 */
module LoginCode {
  import opened Wrappers
  import opened Text
  import opened Providers

  const ProviderPlaceholder := "-PROVIDER-"

  /** No two consecutive dashes. */
  predicate DashFree(s: string) {
    !Contains(s, "--")
  }

  /**
   * A text that can be spliced in at a marker without creating or hiding a marker: it is not
   * empty, holds no `--` and does not end in a dash.
   */
  predicate SafeInsert(d: string) {
    |d| > 0 && DashFree(d) && d[|d| - 1] != '-'
  }

  /** `p` in front of a successful text; a failure passes through. */
  function Prepend(p: string, r: Outcome<string>): Outcome<string> {
    if r.Ok? then Ok(p + r.value) else r
  }

  lemma PrependPrepend(p: string, q: string, r: Outcome<string>)
    ensures Prepend(p, Prepend(q, r)) == Prepend(p + q, r)
  {
    if r.Ok? {
      assert p + (q + r.value) == (p + q) + r.value;
    }
  }

  /** A marker opens with two dashes, as `--image-base64--` does. */
  predicate MarkerShape(m: string) {
    |m| >= 2 && m[0] == '-' && m[1] == '-'
  }

  /**
   * The image expansion of `s` from position `k` for marker `m`: the first marker's name runs
   * up to the next `--`; a marker without one fails (substring with index -1), and so does a
   * failing data-URL lookup. The search resumes after the closing `--`.
   */
  function ExpandFrom(s: string, m: string, k: nat, dataUrl: string -> Outcome<string>): Outcome<string>
    requires |m| > 0 && k <= |s|
    decreases |s| - k
  {
    var i := IndexOf(s, m, k);
    if i < 0 then Ok(s[k..])
    else
      var e := IndexOf(s, "--", i + |m|);
      if e < 0 then Fail(IndexOutOfBounds)
      else Splice(s[k..i], dataUrl(s[i + |m|..e]), ExpandFrom(s, m, e + 2, dataUrl))
  }

  /** The expansion still to come once `code` is read up to `kc`. */
  function Remaining(code: string, m: string, kc: nat, dataUrl: string -> Outcome<string>): Outcome<string>
    requires |m| > 0 && kc <= |code|
  {
    ExpandFrom(code, m, kc, dataUrl)
  }

  /** A marker with a closing `--` and a successful lookup: its data URL follows the text before it. */
  lemma RemainingStep(code: string, m: string, kc: nat, dataUrl: string -> Outcome<string>, ic: int, ec: int, d: string)
    requires |m| > 0 && kc <= |code|
    requires ic == IndexOf(code, m, kc) && ic >= 0
    requires ec == IndexOf(code, "--", ic + |m|) && ec >= 0
    requires dataUrl(code[ic + |m|..ec]) == Ok(d)
    ensures kc <= ic && ec + 2 <= |code|
    ensures Remaining(code, m, kc, dataUrl) == Prepend(code[kc..ic] + d, Remaining(code, m, ec + 2, dataUrl))
  {
  }

  /** The same step behind a text already produced. */
  lemma GoalStep(code: string, m: string, kc: nat, dataUrl: string -> Outcome<string>, ic: int, ec: int, kc2: int, d: string,
                 done: string, done': string)
    requires |m| > 0 && kc <= |code|
    requires ic == IndexOf(code, m, kc) && ic >= 0
    requires ec == IndexOf(code, "--", ic + |m|) && ec >= 0 && kc2 == ec + 2
    requires dataUrl(code[ic + |m|..ec]) == Ok(d)
    requires done' == done + (code[kc..ic] + d)
    ensures kc2 <= |code|
    ensures Prepend(done, Remaining(code, m, kc, dataUrl)) == Prepend(done', Remaining(code, m, kc2, dataUrl))
  {
    RemainingStep(code, m, kc, dataUrl, ic, ec, d);
    PrependPrepend(done, code[kc..ic] + d, Remaining(code, m, kc2, dataUrl));
  }

  /** The text before a marker, the marker's data URL (or its failure), and the expanded rest. */
  function Splice(pre: string, d: Outcome<string>, rest: Outcome<string>): Outcome<string> {
    if d.Fail? then Fail(d.error) else Prepend(pre + d.value, rest)
  }

  /** The expansion of every `--image-base64--NAME--` marker of a login code. */
  function ExpandImages(s: string, dataUrl: string -> Outcome<string>): Outcome<string> {
    ExpandFrom(s, Base64Marker, 0, dataUrl)
  }

  /** Text without a marker is left as it is; only a marker can make the expansion fail. */
  lemma ExpandImagesIdentity(s: string, dataUrl: string -> Outcome<string>)
    ensures !Contains(s, Base64Marker) ==> ExpandImages(s, dataUrl) == Ok(s)
    ensures ExpandImages(s, dataUrl).Fail? ==> Contains(s, Base64Marker)
  {
    ContainsIffIndexOf(s, Base64Marker);
    assert s[0..] == s;
  }

  /** Two texts that agree from `a` and from `b` on: searches there agree, shifted. */
  lemma IndexOfShift(s1: string, a: nat, s2: string, b: nat, p: string, from: nat, from2: nat)
    requires |p| > 0 && a <= from && a <= |s1| && b <= |s2| && s1[a..] == s2[b..] && from2 == from - a + b
    ensures IndexOf(s1, p, from) == (if IndexOf(s2, p, from2) < 0 then -1 else IndexOf(s2, p, from2) - b + a)
  {
    IndexOfSuffix(s1, p, a, from);
    IndexOfSuffix(s2, p, b, from2);
  }

  /** Two texts that agree from `a` and from `b` on: their slices there agree. */
  lemma SliceShift(s1: string, a: nat, s2: string, b: nat, x: nat, y: nat, x2: int, y2: int)
    requires a <= x <= y <= |s1| && b <= |s2| && s1[a..] == s2[b..]
    requires x2 == x - a + b && y2 == y - a + b
    ensures 0 <= x2 <= y2 <= |s2| && s1[x..y] == s2[x2..y2]
  {
    assert |s1| - a == |s2| - b;
    forall t | 0 <= t < y - x ensures s1[x..y][t] == s2[x2..y2][t] {
      assert s1[x + t] == s1[a..][x + t - a];
      assert s2[x2 + t] == s2[b..][x + t - a];
    }
  }

  /** The name between a marker and the next `--` holds no `--`. */
  lemma NameDashFree(s: string, from: nat, e: int)
    requires e >= 0 && e == IndexOf(s, "--", from)
    ensures from <= e <= |s| && DashFree(s[from..e])
  {
    IndexOfFirst(s, "--", from);
    var n := s[from..e];
    forall t | 0 <= t <= |n| - 2 ensures !OccursAt(n, "--", t) {
      assert n[t..t + 2] == s[from + t..from + t + 2];
      assert !OccursAt(s, "--", from + t);
    }
  }

  /** A marker occurrence starts with two dashes. */
  lemma MarkerStart(u: string, m: string, j: int)
    requires MarkerShape(m) && OccursAt(u, m, j)
    ensures OccursAt(u, "--", j) && u[j] == '-'
  {
    assert u[j..j + |m|][0] == u[j];
    assert u[j..j + |m|][1] == u[j + 1];
    assert u[j..j + 2] == [u[j], u[j + 1]];
  }

  /** After a safe splice, no marker starts strictly inside the spliced text. */
  lemma NoMarkerInside(pre: string, d: string, rest: string, m: string, j: int)
    requires MarkerShape(m) && SafeInsert(d) && |pre| + 1 <= j < |pre| + |d|
    ensures !OccursAt(pre + d + rest, m, j)
  {
    var u := pre + d + rest;
    var x := j - |pre|;
    if x + 1 < |d| {
      assert u[j..j + 2] == d[x..x + 2];
      assert !OccursAt(d, "--", x);
      assert !OccursAt(u, "--", j);
    } else {
      assert u[j] == d[|d| - 1];
    }
    if OccursAt(u, m, j) {
      MarkerStart(u, m, j);
      assert false;
    }
  }

  /** Searching the spliced text `u` again from one past the splice point `a` skips the spliced text. */
  lemma SpliceSkip(pre: string, d: string, rest: string, m: string, u: string, a: int, b: int)
    requires MarkerShape(m) && SafeInsert(d)
    requires u == pre + d + rest && a == |pre| && b == |pre| + |d|
    ensures 0 <= b <= |u| && u[..b] == pre + d && u[b..] == rest
    ensures IndexOf(u, m, a + 1) == IndexOf(u, m, b)
  {
    assert u[..b] == pre + d;
    assert u[b..] == rest;
    forall j | a + 1 <= j < b ensures !OccursAt(u, m, j) {
      NoMarkerInside(pre, d, rest, m, j);
    }
    IndexOfSkip(u, m, a + 1, b);
  }

  /** Every data URL the lookup gives for a name without `--` is safe to splice in. */
  ghost predicate SafeLookups(dataUrl: string -> Outcome<string>) {
    forall n {:trigger dataUrl(n)} :: DashFree(n) && dataUrl(n).Ok? ==> SafeInsert(dataUrl(n).value)
  }

  /**
   * How the rewritten text `s` lines up with the original `code`: `s` is final up to `k` and
   * agrees with `code` from `kc` on, and the next search from one past `cursor` finds what a
   * search from `k` finds.
   */
  ghost predicate Aligned(m: string, code: string, kc: nat, s: string, cursor: int, k: nat)
    requires |m| > 0
  {
    -1 <= cursor && k <= |s| && kc <= |code| && s[k..] == code[kc..]
    && IndexOf(s, m, cursor + 1) == IndexOf(s, m, k)
  }

  /**
   * The cursor loop run on the rewritten text completes with `r` within `fuel` splices: search
   * again from one past the last marker, splice the data URL in, repeat.
   */
  ghost predicate Yields(s: string, m: string, cursor: int, dataUrl: string -> Outcome<string>, fuel: nat, r: Outcome<string>)
    requires |m| > 0 && -1 <= cursor
    decreases fuel
  {
    var i := IndexOf(s, m, cursor + 1);
    if i < 0 then r == Ok(s)
    else
      var e := IndexOf(s, "--", i + |m|);
      if e < 0 then r == Fail(IndexOutOfBounds)
      else
        var d := dataUrl(s[i + |m|..e]);
        if d.Fail? then r == Fail(d.error)
        else fuel > 0 && Yields(s[..i] + d.value + s[e + 2..], m, i, dataUrl, fuel - 1, r)
  }

  /** A splice the loop makes leaves it one step of fuel less to reach the same outcome. */
  lemma YieldsNext(s: string, m: string, cursor: int, dataUrl: string -> Outcome<string>, fuel: nat, r: Outcome<string>,
                   i: int, e: int, d: string)
    requires |m| > 0 && -1 <= cursor && Yields(s, m, cursor, dataUrl, fuel, r)
    requires i == IndexOf(s, m, cursor + 1) && i >= 0
    requires e == IndexOf(s, "--", i + |m|) && e >= 0
    requires dataUrl(s[i + |m|..e]) == Ok(d)
    ensures fuel > 0 && e + 2 <= |s| && Yields(s[..i] + d + s[e + 2..], m, i, dataUrl, fuel - 1, r)
  {
  }

  lemma ExpandStart(code: string, m: string, dataUrl: string -> Outcome<string>)
    requires |m| > 0
    ensures Aligned(m, code, 0, code, -1, 0)
    ensures Prepend(code[..0], Remaining(code, m, 0, dataUrl)) == Remaining(code, m, 0, dataUrl)
  {
    assert code[..0] == [];
    var x := Remaining(code, m, 0, dataUrl);
    if x.Ok? {
      assert [] + x.value == x.value;
    }
  }

  /** No further marker: the text is the expansion. */
  lemma ExpandDone(m: string, dataUrl: string -> Outcome<string>, code: string, kc: nat, s: string, cursor: int, k: nat)
    requires |m| > 0 && Aligned(m, code, kc, s, cursor, k)
    requires IndexOf(s, m, cursor + 1) < 0
    ensures Prepend(s[..k], Remaining(code, m, kc, dataUrl)) == Ok(s)
  {
    IndexOfShift(s, k, code, kc, m, k, kc);
    assert Remaining(code, m, kc, dataUrl) == Ok(s[k..]);
    assert s[..k] + s[k..] == s;
  }

  /** A marker without a closing `--`: the expansion fails. */
  lemma ExpandFailsUnclosed(m: string, dataUrl: string -> Outcome<string>, code: string, kc: nat, s: string, cursor: int, k: nat, i: int)
    requires |m| > 0 && Aligned(m, code, kc, s, cursor, k)
    requires i == IndexOf(s, m, cursor + 1) && i >= 0
    requires IndexOf(s, "--", i + |m|) < 0
    ensures Remaining(code, m, kc, dataUrl) == Fail(IndexOutOfBounds)
  {
    IndexOfShift(s, k, code, kc, m, k, kc);
    IndexOfShift(s, k, code, kc, "--", i + |m|, i - k + kc + |m|);
  }

  /**
   * Where the original text's next marker (`ic`) and its closing `--` (`ec`) lie, seen from the
   * rewritten text, and where the original text resumes (`kc2`).
   */
  lemma ExpandClosed(m: string, code: string, kc: nat, s: string, cursor: int, k: nat, i: int, e: int,
                     ic: int, ec: int, kc2: int)
    requires |m| > 0 && Aligned(m, code, kc, s, cursor, k)
    requires i == IndexOf(s, m, cursor + 1) && i >= 0
    requires e == IndexOf(s, "--", i + |m|) && e >= 0
    requires ic == i - k + kc && ec == e - k + kc && kc2 == ec + 2
    ensures k <= i && i + |m| <= e && e + 2 <= |s| && kc <= ic && kc2 <= |code|
    ensures IndexOf(code, m, kc) == ic
    ensures IndexOf(code, "--", ic + |m|) == ec
    ensures s[k..i] == code[kc..ic]
    ensures s[i + |m|..e] == code[ic + |m|..ec]
    ensures s[e + 2..] == code[kc2..]
  {
    IndexOfShift(s, k, code, kc, m, k, kc);
    IndexOfShift(s, k, code, kc, "--", i + |m|, ic + |m|);
    SliceShift(s, k, code, kc, k, i, kc, ic);
    SliceShift(s, k, code, kc, i + |m|, e, ic + |m|, ec);
    SliceShift(s, k, code, kc, e + 2, |s|, kc2, |code|);
    assert s[e + 2..] == s[e + 2..|s|];
    assert code[kc2..] == code[kc2..|code|];
  }

  /** A failing data-URL lookup: the expansion fails with it. */
  lemma ExpandFailsLookup(m: string, dataUrl: string -> Outcome<string>, code: string, kc: nat, s: string, cursor: int, k: nat, i: int, e: int)
    requires |m| > 0 && Aligned(m, code, kc, s, cursor, k)
    requires i == IndexOf(s, m, cursor + 1) && i >= 0
    requires e == IndexOf(s, "--", i + |m|) && e >= 0
    requires dataUrl(s[i + |m|..e]).Fail?
    ensures Remaining(code, m, kc, dataUrl) == Fail(dataUrl(s[i + |m|..e]).error)
  {
    ExpandClosed(m, code, kc, s, cursor, k, i, e, i - k + kc, e - k + kc, e - k + kc + 2);
  }

  /** One safe splice keeps the texts aligned, with the cursor at the splice point and `k` past the data URL. */
  lemma AdvanceAligned(m: string, code: string, kc: nat, s: string, cursor: int, k: nat, i: int, e: int, d: string,
                       t: string, kc2: int, k2: int)
    requires MarkerShape(m) && Aligned(m, code, kc, s, cursor, k)
    requires i == IndexOf(s, m, cursor + 1) && i >= 0
    requires e == IndexOf(s, "--", i + |m|) && e >= 0
    requires SafeInsert(d)
    requires e + 2 <= |s| && t == s[..i] + d + s[e + 2..]
    requires kc2 == e - k + kc + 2 && k2 == i + |d|
    ensures kc < kc2 <= |code| && 0 <= k2 <= |t|
    ensures Aligned(m, code, kc2, t, i, k2)
  {
    ExpandClosed(m, code, kc, s, cursor, k, i, e, i - k + kc, e - k + kc, kc2);
    SpliceSkip(s[..i], d, s[e + 2..], m, t, i, k2);
  }

  /** One splice moves the expansion still to come behind the spliced text. */
  lemma AdvanceGoal(m: string, dataUrl: string -> Outcome<string>, code: string, kc: nat, s: string, cursor: int, k: nat,
                    i: int, e: int, d: string, t: string, kc2: nat, k2: nat)
    requires |m| > 0 && Aligned(m, code, kc, s, cursor, k)
    requires i == IndexOf(s, m, cursor + 1) && i >= 0
    requires e == IndexOf(s, "--", i + |m|) && e >= 0
    requires dataUrl(s[i + |m|..e]) == Ok(d)
    requires e + 2 <= |s| && t == s[..i] + d + s[e + 2..]
    requires kc2 == e - k + kc + 2 <= |code| && k2 == i + |d| <= |t|
    ensures Prepend(s[..k], Remaining(code, m, kc, dataUrl)) == Prepend(t[..k2], Remaining(code, m, kc2, dataUrl))
  {
    var ic, ec := i - k + kc, e - k + kc;
    ExpandClosed(m, code, kc, s, cursor, k, i, e, ic, ec, kc2);
    assert t[..k2] == s[..k] + (code[kc..ic] + d) by {
      assert t[..k2] == s[..i] + d;
      assert s[..i] == s[..k] + s[k..i];
    }
    GoalStep(code, m, kc, dataUrl, ic, ec, kc2, d, s[..k], t[..k2]);
  }

  /** The data URL spliced in for a marker's name is safe. */
  lemma LookupSafe(dataUrl: string -> Outcome<string>, s: string, from: nat, e: int)
    requires SafeLookups(dataUrl)
    requires e >= 0 && e == IndexOf(s, "--", from)
    ensures from <= e <= |s|
    ensures dataUrl(s[from..e]).Ok? ==> SafeInsert(dataUrl(s[from..e]).value)
  {
    NameDashFree(s, from, e);
  }

  /** The cursor loop and the expansion agree when no marker is left. */
  lemma RewriteDone(m: string, dataUrl: string -> Outcome<string>, code: string, kc: nat, s: string, cursor: int, k: nat, fuel: nat)
    requires |m| > 0 && Aligned(m, code, kc, s, cursor, k)
    requires IndexOf(s, m, cursor + 1) < 0
    ensures Yields(s, m, cursor, dataUrl, fuel, Prepend(s[..k], Remaining(code, m, kc, dataUrl)))
  {
    ExpandDone(m, dataUrl, code, kc, s, cursor, k);
  }

  /** The cursor loop and the expansion agree on an unclosed marker. */
  lemma RewriteUnclosed(m: string, dataUrl: string -> Outcome<string>, code: string, kc: nat, s: string, cursor: int, k: nat, fuel: nat, i: int)
    requires |m| > 0 && Aligned(m, code, kc, s, cursor, k)
    requires i == IndexOf(s, m, cursor + 1) && i >= 0
    requires IndexOf(s, "--", i + |m|) < 0
    ensures Yields(s, m, cursor, dataUrl, fuel, Prepend(s[..k], Remaining(code, m, kc, dataUrl)))
  {
    ExpandFailsUnclosed(m, dataUrl, code, kc, s, cursor, k, i);
  }

  /** The cursor loop and the expansion agree on a failing lookup. */
  lemma RewriteLookupFails(m: string, dataUrl: string -> Outcome<string>, code: string, kc: nat, s: string, cursor: int, k: nat, fuel: nat, i: int, e: int)
    requires |m| > 0 && Aligned(m, code, kc, s, cursor, k)
    requires i == IndexOf(s, m, cursor + 1) && i >= 0
    requires e == IndexOf(s, "--", i + |m|) && e >= 0
    requires dataUrl(s[i + |m|..e]).Fail?
    ensures Yields(s, m, cursor, dataUrl, fuel, Prepend(s[..k], Remaining(code, m, kc, dataUrl)))
  {
    ExpandFailsLookup(m, dataUrl, code, kc, s, cursor, k, i, e);
  }

  /** One splice: what the loop computes from the spliced text, it computes from the text before. */
  lemma RewriteUnfold(s: string, m: string, cursor: int, dataUrl: string -> Outcome<string>, fuel: nat,
                      i: int, e: int, d: string, t: string, r: Outcome<string>, r': Outcome<string>)
    requires |m| > 0 && -1 <= cursor && fuel > 0
    requires i == IndexOf(s, m, cursor + 1) && i >= 0
    requires e == IndexOf(s, "--", i + |m|) && e >= 0
    requires dataUrl(s[i + |m|..e]) == Ok(d)
    requires e + 2 <= |s| && t == s[..i] + d + s[e + 2..]
    requires Yields(t, m, i, dataUrl, fuel - 1, r') && r' == r
    ensures Yields(s, m, cursor, dataUrl, fuel, r)
  {
  }

  /**
   * The cursor loop computes the expansion: from aligned texts, with at least one step of fuel
   * per character of `code` still to read, it ends with the text `s[..k]` followed by the
   * expansion of `code` from `kc`.
   */
  lemma {:induction false} RewriteExpands(m: string, dataUrl: string -> Outcome<string>, code: string, kc: nat,
                                          s: string, cursor: int, k: nat, fuel: nat)
    requires MarkerShape(m) && Aligned(m, code, kc, s, cursor, k) && SafeLookups(dataUrl)
    requires |code| - kc <= fuel
    ensures Yields(s, m, cursor, dataUrl, fuel, Prepend(s[..k], Remaining(code, m, kc, dataUrl)))
    decreases fuel, 1
  {
    var i := IndexOf(s, m, cursor + 1);
    if i < 0 {
      RewriteDone(m, dataUrl, code, kc, s, cursor, k, fuel);
    } else {
      var e := IndexOf(s, "--", i + |m|);
      if e < 0 {
        RewriteUnclosed(m, dataUrl, code, kc, s, cursor, k, fuel, i);
      } else {
        LookupSafe(dataUrl, s, i + |m|, e);
        var d := dataUrl(s[i + |m|..e]);
        if d.Fail? {
          RewriteLookupFails(m, dataUrl, code, kc, s, cursor, k, fuel, i, e);
        } else {
          RewriteSplices(m, dataUrl, code, kc, s, cursor, k, fuel, i, e, d.value);
        }
      }
    }
  }

  /** The splice case of RewriteExpands: align the spliced text, recurse, and step back. */
  lemma {:induction false} RewriteSplices(m: string, dataUrl: string -> Outcome<string>, code: string, kc: nat,
                                          s: string, cursor: int, k: nat, fuel: nat, i: int, e: int, url: string)
    requires MarkerShape(m) && Aligned(m, code, kc, s, cursor, k) && SafeLookups(dataUrl)
    requires |code| - kc <= fuel
    requires i == IndexOf(s, m, cursor + 1) && i >= 0
    requires e == IndexOf(s, "--", i + |m|) && e >= 0
    requires dataUrl(s[i + |m|..e]) == Ok(url) && SafeInsert(url)
    ensures Yields(s, m, cursor, dataUrl, fuel, Prepend(s[..k], Remaining(code, m, kc, dataUrl)))
    decreases fuel, 0
  {
    var t := s[..i] + url + s[e + 2..];
    var kc2, k2 := e - k + kc + 2, i + |url|;
    AdvanceAligned(m, code, kc, s, cursor, k, i, e, url, t, kc2, k2);
    RewriteExpands(m, dataUrl, code, kc2, t, i, k2, fuel - 1);
    AdvanceGoal(m, dataUrl, code, kc, s, cursor, k, i, e, url, t, kc2, k2);
    RewriteUnfold(s, m, cursor, dataUrl, fuel, i, e, url, t,
                  Prepend(s[..k], Remaining(code, m, kc, dataUrl)), Prepend(t[..k2], Remaining(code, m, kc2, dataUrl)));
  }

  /** Run on the whole login code, the cursor loop computes its image expansion. */
  lemma RewriteExpandsImages(code: string, dataUrl: string -> Outcome<string>)
    requires SafeLookups(dataUrl)
    ensures Yields(code, Base64Marker, -1, dataUrl, |code|, ExpandImages(code, dataUrl))
  {
    ExpandStart(code, Base64Marker, dataUrl);
    RewriteExpands(Base64Marker, dataUrl, code, 0, code, -1, 0, |code|);
  }

  /**
   * The cursor loop of rebuildProviders / loadAndRebuildProviders. It searches again from one
   * past the last marker in the rewritten text; the result is the expansion above whenever the
   * data URLs spliced in are safe.
   */
  method ExpandImageMarkers(code: string, dataUrl: string -> Outcome<string>) returns (r: Outcome<string>)
    requires SafeLookups(dataUrl)
    ensures r == ExpandImages(code, dataUrl)
  {
    var loginCode := code;
    if Contains(loginCode, Base64Marker) {
      var cursor := -1;
      ghost var fuel: nat := |code|;
      RewriteExpandsImages(code, dataUrl);
      while true
        invariant -1 <= cursor
        invariant Yields(loginCode, Base64Marker, cursor, dataUrl, fuel, ExpandImages(code, dataUrl))
        decreases fuel
      {
        var next := IndexOf(loginCode, Base64Marker, cursor + 1);
        if next < 0 {
          break;
        }
        var startOfPictName := next + |Base64Marker|;
        var endOfPictName := IndexOf(loginCode, "--", startOfPictName);
        if endOfPictName < 0 {
          return Fail(IndexOutOfBounds);
        }
        var d := dataUrl(loginCode[startOfPictName..endOfPictName]);
        if d.Fail? {
          return Fail(d.error);
        }
        YieldsNext(loginCode, Base64Marker, cursor, dataUrl, fuel, ExpandImages(code, dataUrl), next, endOfPictName, d.value);
        loginCode := loginCode[..next] + d.value + loginCode[endOfPictName + 2..];
        cursor, fuel := next, fuel - 1;
      }
    } else {
      ExpandImagesIdentity(code, dataUrl);
    }
    return Ok(loginCode);
  }

  /**
   * The prepared login code: images expanded, then `replaceAll("-PROVIDER-", name)`, so the
   * name is read as a replacement string where the placeholder occurs. It fails only through
   * a marker or through a name that is not a valid replacement string.
   */
  function PrepareLoginCode(code: string, name: string, dataUrl: string -> Outcome<string>): (r: Outcome<string>)
    ensures r.Fail? ==> Contains(code, Base64Marker) || Replacement(name, ProviderPlaceholder).Fail?
    ensures !Contains(code, Base64Marker) ==> r == RegexReplaceAll(code, ProviderPlaceholder, name)
    ensures !Contains(code, Base64Marker) && PlainReplacement(name) ==> r == Ok(ReplaceAll(code, ProviderPlaceholder, name))
  {
    ExpandImagesIdentity(code, dataUrl);
    RegexReplaceAllPlain(code, ProviderPlaceholder, name);
    var e := ExpandImages(code, dataUrl);
    if e.Fail? then Fail(e.error) else RegexReplaceAll(e.value, ProviderPlaceholder, name)
  }

  /** A code holding the placeholder once between brackets gets the name's replacement text between them. */
  lemma PreparedBetweenBrackets(name: string, dataUrl: string -> Outcome<string>)
    ensures var rep := Replacement(name, ProviderPlaceholder);
      PrepareLoginCode("[-PROVIDER-]", name, dataUrl) == if rep.Fail? then Fail(rep.error) else Ok("[" + rep.value + "]")
  {
    var code := "[-PROVIDER-]";
    assert OccursAt(code, ProviderPlaceholder, 1);
    assert code[..|ProviderPlaceholder|] != ProviderPlaceholder by {
      assert code[0] == '[' && ProviderPlaceholder[0] == '-';
    }
    assert code[1..] == ProviderPlaceholder + "]";
    assert code[1..][..|ProviderPlaceholder|] == ProviderPlaceholder;
    assert code[1..][|ProviderPlaceholder|..] == "]";
    assert !Contains(code, Base64Marker);
    OccurrencesPositive(code, ProviderPlaceholder);
    var rep := Replacement(name, ProviderPlaceholder);
    if rep.Ok? {
      var v := rep.value;
      assert ReplaceAll("]", ProviderPlaceholder, v) == "]";
      assert ReplaceAll(code[1..], ProviderPlaceholder, v) == v + "]";
      assert ReplaceAll(code, ProviderPlaceholder, v) == [code[0]] + (v + "]");
      assert [code[0]] + (v + "]") == "[" + v + "]";
      assert RegexReplaceAll(code, ProviderPlaceholder, name) == Ok("[" + v + "]");
    }
  }

  /**
   * A provider name is read as a replacement string: `x$0` puts the placeholder back, `a\b`
   * loses its backslash, `a$1` and `a$` raise, and a code without the placeholder never reads
   * the name at all.
   */
  lemma NamesAsReplacements(dataUrl: string -> Outcome<string>)
    ensures PrepareLoginCode("[-PROVIDER-]", "x$0", dataUrl) == Ok("[x-PROVIDER-]")
    ensures PrepareLoginCode("[-PROVIDER-]", "a\\b", dataUrl) == Ok("[ab]")
    ensures PrepareLoginCode("[-PROVIDER-]", "a$1", dataUrl) == Fail(IndexOutOfBounds)
    ensures PrepareLoginCode("[-PROVIDER-]", "a$", dataUrl) == Fail(IllegalArgument)
    ensures PrepareLoginCode("[login]", "a$1", dataUrl) == Ok("[login]")
  {
    PreparedBetweenBrackets("x$0", dataUrl);
    PreparedBetweenBrackets("a\\b", dataUrl);
    PreparedBetweenBrackets("a$1", dataUrl);
    PreparedBetweenBrackets("a$", dataUrl);
    ReplacementExamples(ProviderPlaceholder);
    assert "[" + ("x" + ProviderPlaceholder) + "]" == "[x-PROVIDER-]";
    assert "[" + "ab" + "]" == "[ab]";
    assert !Contains("[login]", ProviderPlaceholder) && !Contains("[login]", Base64Marker);
  }
}
