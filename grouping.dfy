/**
 * What the plugin's `defaultdict(list)` keyed by category holds once every
 * normalised entry has been appended to it: the categories in the order a
 * Python dict keeps them (first insertion), and per category the entries in
 * list order.
 */
module Grouping {
  import opened Servers

  /** The distinct categories of `s`, in the order in which each is first seen. */
  function Categories(s: seq<ServerInfo>): seq<string>
  {
    if s == [] then []
    else
      var ks := Categories(s[..|s| - 1]);
      var c := s[|s| - 1].category;
      if c in ks then ks else ks + [c]
  }

  /** The entries of `s` whose category is `c`, in their original order. */
  function InCategory(s: seq<ServerInfo>, c: string): seq<ServerInfo>
  {
    if s == [] then []
    else InCategory(s[..|s| - 1], c) + if s[|s| - 1].category == c then [s[|s| - 1]] else []
  }

  /** The positions in `s` of the entries whose category is `c`, ascending. */
  function Positions(s: seq<ServerInfo>, c: string): seq<int>
  {
    if s == [] then []
    else Positions(s[..|s| - 1], c) + if s[|s| - 1].category == c then [|s| - 1] else []
  }

  /** The groups in emission order: one per category, holding that category's entries. */
  function Groups(s: seq<ServerInfo>): seq<seq<ServerInfo>>
  {
    var ks := Categories(s);
    seq(|ks|, k requires 0 <= k < |ks| => InCategory(s, ks[k]))
  }

  function Concat<T>(g: seq<seq<T>>): seq<T>
  {
    if g == [] then [] else Concat(g[..|g| - 1]) + g[|g| - 1]
  }

  predicate HasCategory(s: seq<ServerInfo>, c: string) {
    exists i :: 0 <= i < |s| && s[i].category == c
  }

  /** The position of the first entry of `s` in category `c`. */
  function FirstIndex(s: seq<ServerInfo>, c: string): (i: nat)
    requires HasCategory(s, c)
    ensures i < |s| && s[i].category == c
    ensures forall j :: 0 <= j < i ==> s[j].category != c
  {
    if s[0].category == c then 0
    else
      assert HasCategory(s[1..], c) by {
        var i :| 0 <= i < |s| && s[i].category == c;
        assert s[1..][i - 1].category == c;
      }
      1 + FirstIndex(s[1..], c)
  }

  lemma CategoriesSnoc(s: seq<ServerInfo>, x: ServerInfo)
    ensures Categories(s + [x]) ==
      if x.category in Categories(s) then Categories(s) else Categories(s) + [x.category]
  {
    assert (s + [x])[..|s|] == s;
  }

  lemma InCategorySnoc(s: seq<ServerInfo>, x: ServerInfo, c: string)
    ensures InCategory(s + [x], c) == InCategory(s, c) + if x.category == c then [x] else []
  {
    assert (s + [x])[..|s|] == s;
  }

  /** A category is listed exactly when some entry has it. */
  lemma {:induction false} CategoriesAreSeen(s: seq<ServerInfo>, c: string)
    ensures c in Categories(s) <==> HasCategory(s, c)
  {
    if s != [] {
      var init := s[..|s| - 1];
      CategoriesAreSeen(init, c);
      if HasCategory(init, c) {
        var i :| 0 <= i < |init| && init[i].category == c;
        assert s[i].category == c;
      }
      if HasCategory(s, c) && s[|s| - 1].category != c {
        var i :| 0 <= i < |s| && s[i].category == c;
        assert init[i].category == c;
      }
    }
  }

  /** No category is listed twice, so no two groups share a category. */
  lemma {:induction false} CategoriesDistinct(s: seq<ServerInfo>)
    ensures forall a, b :: 0 <= a < b < |Categories(s)| ==> Categories(s)[a] != Categories(s)[b]
  {
    if s != [] {
      CategoriesDistinct(s[..|s| - 1]);
    }
  }

  /** Every entry of a group has the group's category, and a group is empty exactly when no entry has it. */
  lemma {:induction false} InCategoryMembers(s: seq<ServerInfo>, c: string)
    ensures forall k :: 0 <= k < |InCategory(s, c)| ==> InCategory(s, c)[k].category == c
    ensures InCategory(s, c) == [] <==> !HasCategory(s, c)
  {
    if s != [] {
      var init := s[..|s| - 1];
      InCategoryMembers(init, c);
      if HasCategory(init, c) {
        var i :| 0 <= i < |init| && init[i].category == c;
        assert s[i].category == c;
      }
      if HasCategory(s, c) && s[|s| - 1].category != c {
        var i :| 0 <= i < |s| && s[i].category == c;
        assert init[i].category == c;
      }
    }
  }

  /**
   * Stability: the group of `c` is `s` read at the ascending positions of exactly
   * the entries of category `c`.
   */
  lemma {:induction false} InCategoryStable(s: seq<ServerInfo>, c: string)
    ensures |Positions(s, c)| == |InCategory(s, c)|
    ensures forall k :: 0 <= k < |Positions(s, c)| ==>
      0 <= Positions(s, c)[k] < |s| && InCategory(s, c)[k] == s[Positions(s, c)[k]]
    ensures forall k, l :: 0 <= k < l < |Positions(s, c)| ==> Positions(s, c)[k] < Positions(s, c)[l]
    ensures forall i :: 0 <= i < |s| ==> (s[i].category == c <==> i in Positions(s, c))
  {
    if s != [] {
      var init := s[..|s| - 1];
      InCategoryStable(init, c);
      forall i | 0 <= i < |init| ensures s[i] == init[i] { }
    }
  }

  lemma FirstIndexOfPrefix(init: seq<ServerInfo>, x: ServerInfo, c: string)
    requires HasCategory(init, c)
    ensures HasCategory(init + [x], c)
    ensures FirstIndex(init + [x], c) == FirstIndex(init, c)
  {
    var s := init + [x];
    var f := FirstIndex(init, c);
    assert s[f] == init[f];
  }

  /** Categories are emitted in the order of the first entry of each. */
  lemma {:induction false} CategoriesInFirstSeenOrder(s: seq<ServerInfo>, a: int, b: int)
    requires 0 <= a < b < |Categories(s)|
    ensures HasCategory(s, Categories(s)[a]) && HasCategory(s, Categories(s)[b])
    ensures FirstIndex(s, Categories(s)[a]) < FirstIndex(s, Categories(s)[b])
  {
    CategoriesAreSeen(s, Categories(s)[a]);
    CategoriesAreSeen(s, Categories(s)[b]);
    var init, x := s[..|s| - 1], s[|s| - 1];
    assert s == init + [x];
    var ks := Categories(init);
    CategoriesAreSeen(init, Categories(s)[a]);
    FirstIndexOfPrefix(init, x, ks[a]);
    if b < |ks| {
      CategoriesInFirstSeenOrder(init, a, b);
      CategoriesAreSeen(init, ks[b]);
      FirstIndexOfPrefix(init, x, ks[b]);
    } else {
      CategoriesAreSeen(init, x.category);
      assert !HasCategory(init, x.category);
    }
  }

  lemma ConcatAppend<T>(g: seq<seq<T>>, h: seq<T>)
    ensures Concat(g + [h]) == Concat(g) + h
  {
    assert (g + [h])[..|g|] == g;
  }

  /** Appending an element to one group adds exactly that element to the whole. */
  lemma {:induction false} ConcatExtendGroup<T>(g: seq<seq<T>>, j: int, x: T)
    requires 0 <= j < |g|
    ensures multiset(Concat(g[j := g[j] + [x]])) == multiset(Concat(g)) + multiset{x}
    decreases |g|
  {
    var n := |g| - 1;
    var g' := g[j := g[j] + [x]];
    assert Concat(g) == Concat(g[..n]) + g[n];
    assert Concat(g') == Concat(g'[..n]) + g'[n];
    if j == n {
      assert g'[..n] == g[..n];
      assert g'[n] == g[n] + [x];
    } else {
      assert g'[..n] == g[..n][j := g[j] + [x]];
      assert g'[n] == g[n];
      ConcatExtendGroup(g[..n], j, x);
    }
  }

  /** An entry of a category already seen joins that category's group. */
  lemma GroupsSnocKnown(s: seq<ServerInfo>, x: ServerInfo, j: int)
    requires 0 <= j < |Categories(s)| && Categories(s)[j] == x.category
    ensures Groups(s + [x]) == Groups(s)[j := Groups(s)[j] + [x]]
  {
    var ks := Categories(s);
    CategoriesSnoc(s, x);
    CategoriesDistinct(s);
    forall k | 0 <= k < |ks|
      ensures Groups(s + [x])[k] == Groups(s)[j := Groups(s)[j] + [x]][k]
    {
      InCategorySnoc(s, x, ks[k]);
    }
  }

  /** An entry of a new category opens a new group, last. */
  lemma GroupsSnocNew(s: seq<ServerInfo>, x: ServerInfo)
    requires x.category !in Categories(s)
    ensures Groups(s + [x]) == Groups(s) + [[x]]
  {
    var ks := Categories(s);
    CategoriesSnoc(s, x);
    CategoriesAreSeen(s, x.category);
    InCategoryMembers(s, x.category);
    forall k | 0 <= k < |ks|
      ensures Groups(s + [x])[k] == Groups(s)[k]
    {
      InCategorySnoc(s, x, ks[k]);
    }
    InCategorySnoc(s, x, x.category);
  }

  /** Grouping loses and duplicates nothing: the groups together are a permutation of the entries. */
  lemma {:induction false} GroupingIsPermutation(s: seq<ServerInfo>)
    ensures multiset(Concat(Groups(s))) == multiset(s)
    ensures |Concat(Groups(s))| == |s|
  {
    if s != [] {
      var init, x := s[..|s| - 1], s[|s| - 1];
      assert s == init + [x];
      GroupingIsPermutation(init);
      var ks := Categories(init);
      if x.category in ks {
        var j :| 0 <= j < |ks| && ks[j] == x.category;
        GroupsSnocKnown(init, x, j);
        ConcatExtendGroup(Groups(init), j, x);
      } else {
        GroupsSnocNew(init, x);
        ConcatAppend(Groups(init), [x]);
      }
      assert |multiset(Concat(Groups(s)))| == |multiset(s)|;
    }
  }
}
