/** The comparison of nodes of html/njs/jquery-1.7.2.js for browsers that offer no position of their own: it walks
  parentNode and nextSibling only. Here it is shown to be document order.

  The nodes of a tree are named by the way to them from the root: the numbers of the children to take.
 */
module DocumentOrder {
  import opened Wrappers

  datatype Tree = Tree(children: seq<Tree>)

  type Path = seq<nat>

  /** The path leads to a node of the tree. */
  predicate In(t: Tree, p: Path)
    decreases |p|
  {
    p == [] || (p[0] < |t.children| && In(t.children[p[0]], p[1..]))
  }

  function ParentNode(p: Path): (r: Option<Path>) {
    if p == [] then None else Some(p[..|p| - 1])
  }

  function NextSibling(t: Tree, p: Path): (r: Option<Path>) {
    if p == [] then None
    else
      var q := p[..|p| - 1] + [p[|p| - 1] + 1];
      if In(t, q) then Some(q) else None
  }

  // ----- document order

  /** All nodes in the order of the document: a node, then what is below it, child by child. */
  ghost function Document(t: Tree): (r: seq<Path>)
    decreases t, 1, 0
  {
    [[]] + Below(t, |t.children|)
  }

  /** The nodes below the first k children, these included. */
  ghost function Below(t: Tree, k: nat): (r: seq<Path>)
    requires k <= |t.children|
    decreases t, 0, k
  {
    if k == 0 then [] else Below(t, k - 1) + Under(k - 1, Document(t.children[k - 1]))
  }

  /** Paths in child number k, seen from the parent. */
  ghost function Under(k: nat, s: seq<Path>): (r: seq<Path>)
    ensures |r| == |s| && forall i :: 0 <= i < |s| ==> r[i] == [k] + s[i]
  {
    seq(|s|, i requires 0 <= i < |s| => [k] + s[i])
  }

  /** p comes before q: at the first child number that differs it has the smaller, or it ends there. */
  predicate Before(p: Path, q: Path)
    decreases |p|
  {
    if q == [] then false
    else if p == [] then true
    else p[0] < q[0] || (p[0] == q[0] && Before(p[1..], q[1..]))
  }

  /** Every node is in the document, once, and nothing else is; and one node stands before another exactly if its path
    does. */
  lemma {:induction false} DocumentIsPreorder(t: Tree)
    ensures forall p :: p in Document(t) <==> In(t, p)
    ensures Sorted(Document(t))
    decreases t, 1, 0
  {
    BelowIsPreorder(t, |t.children|);
    forall p
      ensures p in Document(t) <==> In(t, p)
    {
      if p != [] {
        assert p in Document(t) <==> p in Below(t, |t.children|);
      }
    }
    var d := Document(t);
    forall i, j | 0 <= i < j < |d|
      ensures Before(d[i], d[j])
    {
      assert d[j] in Below(t, |t.children|);
      if i > 0 {
        assert d[i] == Below(t, |t.children|)[i - 1] && d[j] == Below(t, |t.children|)[j - 1];
      }
    }
  }

  predicate Sorted(s: seq<Path>) {
    forall i, j :: 0 <= i < j < |s| ==> Before(s[i], s[j])
  }

  lemma {:induction false} BelowIsPreorder(t: Tree, k: nat)
    requires k <= |t.children|
    ensures forall p :: p in Below(t, k) <==> p != [] && p[0] < k && In(t, p)
    ensures Sorted(Below(t, k))
    decreases t, 0, k
  {
    if k > 0 {
      BelowIsPreorder(t, k - 1);
      DocumentIsPreorder(t.children[k - 1]);
      var d := Document(t.children[k - 1]);
      var a, b := Below(t, k - 1), Under(k - 1, d);
      UnderIs(t, k - 1, d);
      SortedJoin(a, b, k - 1);
    }
  }

  /** The nodes below child number c, as seen from t. */
  lemma UnderIs(t: Tree, c: nat, d: seq<Path>)
    requires c < |t.children| && (forall p :: p in d <==> In(t.children[c], p)) && Sorted(d)
    ensures forall p :: p in Under(c, d) <==> p != [] && p[0] == c && In(t, p)
    ensures Sorted(Under(c, d))
  {
    var b := Under(c, d);
    forall p
      ensures p in b <==> p != [] && p[0] == c && In(t, p)
    {
      if p in b {
        var i :| 0 <= i < |b| && b[i] == p;
        assert p == [c] + d[i] && p[1..] == d[i] && d[i] in d;
      }
      if p != [] && p[0] == c && In(t, p) {
        assert p[1..] in d;
        var i :| 0 <= i < |d| && d[i] == p[1..];
        assert b[i] == p;
      }
    }
    forall i, j | 0 <= i < j < |b|
      ensures Before(b[i], b[j])
    {
      assert b[i][1..] == d[i] && b[j][1..] == d[j];
    }
  }

  lemma SortedJoin(a: seq<Path>, b: seq<Path>, c: nat)
    requires Sorted(a) && Sorted(b) && (forall p :: p in a ==> p != [] && p[0] < c)
    requires forall p :: p in b ==> p != [] && p[0] == c
    ensures Sorted(a + b)
  {
    forall i, j | 0 <= i < j < |a + b|
      ensures Before((a + b)[i], (a + b)[j])
    {
      if i < |a| && j >= |a| {
        assert (a + b)[i] in a && (a + b)[j] in b;
      }
    }
  }

  // ----- the order is a strict total order

  lemma {:induction false} BeforeTotal(p: Path, q: Path)
    ensures p == q || Before(p, q) || Before(q, p)
    ensures !(Before(p, q) && Before(q, p)) && !Before(p, p)
    decreases |p|
  {
    if p != [] && q != [] {
      BeforeTotal(p[1..], q[1..]);
      BeforeTotal(p[1..], p[1..]);
      if p[0] == q[0] && p[1..] == q[1..] {
        assert p == [p[0]] + p[1..] && q == [q[0]] + q[1..];
      }
    } else if p != [] {
      BeforeTotal(p[1..], p[1..]);
    }
  }

  lemma {:induction false} BeforeTransitive(p: Path, q: Path, r: Path)
    requires Before(p, q) && Before(q, r)
    ensures Before(p, r)
    decreases |p|
  {
    if p != [] && p[0] == q[0] == r[0] {
      BeforeTransitive(p[1..], q[1..], r[1..]);
    }
  }

  /** What is to be returned for two nodes. */
  function Order(p: Path, q: Path): int {
    if p == q then 0 else if Before(p, q) then -1 else 1
  }

  /** The comparison is antisymmetric, transitive and total. */
  lemma OrderLaws(p: Path, q: Path, r: Path)
    ensures Order(p, q) == -Order(q, p) && (Order(p, q) == 0 <==> p == q)
    ensures Order(p, q) <= 0 && Order(q, r) <= 0 ==> Order(p, r) <= 0
  {
    BeforeTotal(p, q);
    BeforeTotal(p, r);
    if Before(p, q) && Before(q, r) {
      BeforeTransitive(p, q, r);
    }
  }

  /** The comparison is the order of the nodes in the document. */
  lemma OrderIsDocumentOrder(t: Tree, i: nat, j: nat)
    requires i < |Document(t)| && j < |Document(t)|
    ensures Order(Document(t)[i], Document(t)[j]) == if i == j then 0 else if i < j then -1 else 1
  {
    DocumentIsPreorder(t);
    BeforeTotal(Document(t)[i], Document(t)[j]);
  }

  // ----- siblings and ancestors

  lemma {:induction false} BeforeCommon(c: Path, p: Path, q: Path)
    ensures Before(c + p, c + q) == Before(p, q)
    decreases |c|
  {
    if c == [] {
      assert c + p == p && c + q == q;
    } else {
      assert (c + p)[1..] == c[1..] + p && (c + q)[1..] == c[1..] + q;
      BeforeCommon(c[1..], p, q);
    }
  }

  /** Where two paths first differ decides. */
  lemma BeforeAt(p: Path, q: Path, k: nat)
    requires k < |p| && k < |q| && p[..k] == q[..k] && p[k] != q[k]
    ensures Before(p, q) == (p[k] < q[k])
  {
    assert p == p[..k] + p[k..] && q == p[..k] + q[k..];
    BeforeCommon(p[..k], p[k..], q[k..]);
  }

  lemma BeforeEnd(p: Path, q: Path)
    requires |p| < |q| && p == q[..|p|]
    ensures Before(p, q)
  {
    assert p == p + [] && q == p + q[|p|..];
    BeforeCommon(p, [], q[|p|..]);
  }

  lemma {:induction false} InPrefix(t: Tree, p: Path, k: nat)
    requires In(t, p) && k <= |p|
    ensures In(t, p[..k])
    decreases |p|
  {
    if k > 0 {
      InPrefix(t.children[p[0]], p[1..], k - 1);
      assert p[..k][1..] == p[1..][..k - 1];
    }
  }

  /** The siblings from a given one on are there as long as a later one is. */
  lemma {:induction false} InSibling(t: Tree, p: Path, x: nat, y: nat)
    requires In(t, p + [y]) && x <= y
    ensures In(t, p + [x])
    decreases |p|
  {
    if p == [] {
      assert p + [y] == [y] && p + [x] == [x];
    } else {
      assert (p + [y])[1..] == p[1..] + [y] && (p + [x])[1..] == p[1..] + [x];
      InSibling(t.children[p[0]], p[1..], x, y);
    }
  }

  lemma NextOf(t: Tree, up: Path, x: nat)
    ensures NextSibling(t, up + [x]) == if In(t, up + [x + 1]) then Some(up + [x + 1]) else None
  {
    assert (up + [x])[..|up|] == up;
  }

  /** Whether b is among the siblings that follow a: -1 if so, 1 if not; ret if they are the same node. */
  method SiblingCheck(t: Tree, a: Path, b: Path, ret: int) returns (r: int)
    requires In(t, a) && In(t, b) && |a| == |b| && ParentNode(a) == ParentNode(b)
    ensures r == if a == b then ret else Order(a, b)
  {
    if a == b {
      return ret;
    }
    hide In, Before, NextSibling, Widest;
    ghost var up, n := a[..|a| - 1], |a| - 1;
    assert a == up + [a[n]] && b == up + [b[n]];
    BeforeAt(a, b, n);
    NextOf(t, up, a[n]);
    var cur := NextSibling(t, a);
    ghost var x := a[n] + 1;
    while cur.Some?
      invariant x > a[n] && (cur.Some? ==> cur.value == up + [x] && In(t, cur.value))
      invariant cur.None? ==> !In(t, up + [x])
      invariant a[n] < b[n] ==> x <= b[n]
      decreases Widest(t, up) - x, cur.Some?
    {
      Widest1(t, up, x);
      if cur.value == b {
        assert b[n] == x;
        return -1;
      }
      NextOf(t, up, x);
      cur := NextSibling(t, cur.value);
      x := x + 1;
    }
    if a[n] < b[n] {
      InSibling(t, up, x, b[n]);
    }
    return 1;
  }

  /** How many children the node at p has. */
  ghost function Widest(t: Tree, p: Path): nat
    decreases |p|
  {
    if p == [] then |t.children| else if p[0] < |t.children| then Widest(t.children[p[0]], p[1..]) else 0
  }

  lemma {:induction false} Widest1(t: Tree, p: Path, x: nat)
    requires In(t, p + [x])
    ensures x < Widest(t, p)
    decreases |p|
  {
    if p == [] {
      assert p + [x] == [x];
    } else {
      assert (p + [x])[1..] == p[1..] + [x];
      Widest1(t.children[p[0]], p[1..], x);
    }
  }

  /** The ancestors of a node, the root first. */
  method Ancestors(p: Path) returns (r: seq<Path>)
    ensures |r| == |p| && forall i :: 0 <= i < |p| ==> r[i] == p[..i]
  {
    r := [];
    var cur := ParentNode(p);
    while cur.Some?
      invariant |r| <= |p| && (cur.Some? <==> |r| < |p|) && (cur.Some? ==> cur.value == p[..|p| - |r| - 1])
      invariant forall i :: 0 <= i < |r| ==> r[i] == p[..|p| - |r| + i]
      decreases |p| - |r|
    {
      r := [cur.value] + r;
      cur := ParentNode(cur.value);
    }
  }

  /** The comparison: negative if a comes first, positive if b does, 0 for the same node. */
  method SortOrder(t: Tree, a: Path, b: Path) returns (r: int, hasDuplicate: bool)
    requires In(t, a) && In(t, b)
    ensures r == Order(a, b) && (hasDuplicate <==> a == b)
  {
    hasDuplicate := a == b;
    if a == b {
      return 0, hasDuplicate;
    }
    BeforeTotal(a, b);
    var aup, bup := ParentNode(a), ParentNode(b);
    if aup == bup {
      r := SiblingCheck(t, a, b, 0);
      return;
    } else if aup.None? {
      return -1, hasDuplicate;
    } else if bup.None? {
      return 1, hasDuplicate;
    }
    var ap := Ancestors(a);
    var bp := Ancestors(b);
    var i := 0;
    while i < |ap| && i < |bp|
      invariant i <= |a| && i <= |b|
      invariant forall k :: 0 <= k < i ==> a[..k] == b[..k]
    {
      if ap[i] != bp[i] {
        assert a[..i - 1] == b[..i - 1];
        Parted(t, a, b, i);
        r := SiblingCheck(t, ap[i], bp[i], 0);
        return;
      }
      i := i + 1;
    }
    assert a[..i - 1] == b[..i - 1];
    assert |a| != |b|;
    Parted(t, a, b, i);
    if i == |ap| {
      assert a[..i] == a && bp[i] == b[..i];
      r := SiblingCheck(t, a, bp[i], -1);
    } else {
      assert b[..i] == b && ap[i] == a[..i];
      r := SiblingCheck(t, ap[i], b, 1);
    }
  }

  /** Two nodes that agree up to depth k - 1 are ordered as their ancestors at depth k are, if those differ. */
  lemma Parted(t: Tree, a: Path, b: Path, k: nat)
    requires In(t, a) && In(t, b) && 0 < k <= |a| && k <= |b| && a[..k - 1] == b[..k - 1]
    ensures In(t, a[..k]) && In(t, b[..k]) && ParentNode(a[..k]) == ParentNode(b[..k])
    ensures a[..k] != b[..k] ==> Order(a[..k], b[..k]) == Order(a, b)
    ensures a[..k] == b[..k] && |a| == k < |b| ==> Before(a, b)
    ensures a[..k] == b[..k] && |b| == k < |a| ==> Before(b, a)
  {
    InPrefix(t, a, k);
    InPrefix(t, b, k);
    assert a[..k][..k - 1] == a[..k - 1] && b[..k][..k - 1] == b[..k - 1];
    assert a[..k] == a[..k - 1] + [a[k - 1]] && b[..k] == b[..k - 1] + [b[k - 1]];
    if a[..k] != b[..k] {
      BeforeAt(a, b, k - 1);
      BeforeAt(a[..k], b[..k], k - 1);
    } else if |a| == k < |b| {
      assert a[..k] == a;
      BeforeEnd(a, b);
    } else if |b| == k < |a| {
      assert b[..k] == b;
      BeforeEnd(b, a);
    }
  }
}
