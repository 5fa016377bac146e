/**
 * The stable sort both revisions apply to the loaded configurations: List.sort with a
 * comparator on orderHint, which keeps configurations of equal hint in load order.
 */
module Ordering {
  import opened Providers

  /** Ascending orderHint. */
  predicate SortedByHint(s: seq<ProviderConfig>) {
    forall i, j :: 0 <= i < j < |s| ==> s[i].orderHint <= s[j].orderHint
  }

  /** The configurations carrying hint `h`, in their order in `s`. */
  function WithHint(s: seq<ProviderConfig>, h: int): seq<ProviderConfig> {
    if s == [] then []
    else (if s[0].orderHint == h then [s[0]] else []) + WithHint(s[1..], h)
  }

  /** Places `c` before the first element whose hint is not smaller than its own. */
  function Insert(c: ProviderConfig, s: seq<ProviderConfig>): seq<ProviderConfig> {
    if s == [] || c.orderHint <= s[0].orderHint then [c] + s
    else [s[0]] + Insert(c, s[1..])
  }

  /** The sorted list: each configuration is inserted ahead of the later ones it ties with. */
  function SortByHint(s: seq<ProviderConfig>): seq<ProviderConfig> {
    if s == [] then [] else Insert(s[0], SortByHint(s[1..]))
  }

  lemma {:induction false} InsertHead(c: ProviderConfig, s: seq<ProviderConfig>)
    ensures |Insert(c, s)| == |s| + 1
    ensures Insert(c, s)[0] == c || (s != [] && Insert(c, s)[0] == s[0])
    ensures multiset(Insert(c, s)) == multiset{c} + multiset(s)
    decreases |s|
  {
    if s != [] && c.orderHint > s[0].orderHint {
      InsertHead(c, s[1..]);
      assert s == [s[0]] + s[1..];
    }
  }

  lemma {:induction false} InsertSorted(c: ProviderConfig, s: seq<ProviderConfig>)
    requires SortedByHint(s)
    ensures SortedByHint(Insert(c, s))
    decreases |s|
  {
    if s != [] && c.orderHint > s[0].orderHint {
      InsertSorted(c, s[1..]);
      InsertHead(c, s[1..]);
      var t := Insert(c, s[1..]);
      assert s[0].orderHint <= t[0].orderHint;
      assert forall k :: 0 <= k < |t| ==> t[0].orderHint <= t[k].orderHint;
      var r := [s[0]] + t;
      forall i, j | 0 <= i < j < |r| ensures r[i].orderHint <= r[j].orderHint {
        if i > 0 {
          assert r[i] == t[i - 1] && r[j] == t[j - 1];
        } else {
          assert r[j] == t[j - 1];
        }
      }
    }
  }

  /** The result is ordered by hint and holds exactly the loaded configurations. */
  lemma {:induction false} SortSortedPermutation(s: seq<ProviderConfig>)
    ensures SortedByHint(SortByHint(s))
    ensures multiset(SortByHint(s)) == multiset(s)
    decreases |s|
  {
    if s != [] {
      SortSortedPermutation(s[1..]);
      InsertSorted(s[0], SortByHint(s[1..]));
      InsertHead(s[0], SortByHint(s[1..]));
      assert s == [s[0]] + s[1..];
    }
  }

  lemma {:induction false} WithHintAppend(a: seq<ProviderConfig>, b: seq<ProviderConfig>, h: int)
    ensures WithHint(a + b, h) == WithHint(a, h) + WithHint(b, h)
    decreases |a|
  {
    if a == [] {
      assert a + b == b;
    } else {
      assert (a + b)[1..] == a[1..] + b;
      WithHintAppend(a[1..], b, h);
    }
  }

  lemma {:induction false} InsertWithHint(c: ProviderConfig, s: seq<ProviderConfig>, h: int)
    ensures WithHint(Insert(c, s), h) == WithHint([c], h) + WithHint(s, h)
    decreases |s|
  {
    if s == [] || c.orderHint <= s[0].orderHint {
      WithHintAppend([c], s, h);
    } else {
      InsertWithHint(c, s[1..], h);
      WithHintAppend([s[0]], Insert(c, s[1..]), h);
      assert s == [s[0]] + s[1..];
      WithHintAppend([s[0]], s[1..], h);
      if c.orderHint == h {
        assert WithHint([s[0]], h) == [];
      }
    }
  }

  /** Stability: among configurations of one hint the sort keeps the load order. */
  lemma {:induction false} SortStable(s: seq<ProviderConfig>, h: int)
    ensures WithHint(SortByHint(s), h) == WithHint(s, h)
    decreases |s|
  {
    if s != [] {
      SortStable(s[1..], h);
      InsertWithHint(s[0], SortByHint(s[1..]), h);
      assert s == [s[0]] + s[1..];
      WithHintAppend([s[0]], s[1..], h);
    }
  }
}
