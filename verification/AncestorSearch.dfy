/** dirNodeCheck of html/njs/jquery-1.7.2.js: for each node of a set, the first node of a given name in one direction,
  with marks left on the nodes passed so that no stretch is walked twice.
 */
module AncestorSearch {
  import opened Wrappers

  /** A node as the search sees it: next is the node one step further in the direction dir, and step counts how many
    more there are. */
  class Node {
    const next: Node?
    const name: string        // in lower case
    const element: bool       // nodeType is 1
    ghost const steps: nat
    var mark: int             // the property named by expando
    var sizset: nat

    constructor (next: Node?, name: string, element: bool)
      ensures this.next == next && this.name == name && this.element == element
      ensures steps == (if next == null then 0 else next.steps + 1)
    {
      this.next, this.name, this.element := next, name, element;
      this.steps := if next == null then 0 else next.steps + 1;
      mark, sizset := 0, 0;
    }
  }

  /** Directions lead on from node to node and come to an end. */
  ghost predicate Forest(nodes: set<Node>) {
    forall n :: n in nodes && n.next != null ==> n.next in nodes && n.next.steps < n.steps
  }

  /** The search without marks: the first node of the given name, from n on. */
  ghost function First(nodes: set<Node>, n: Node?, cur: string): (r: Option<Node>)
    requires Forest(nodes) && (n != null ==> n in nodes)
    ensures r.Some? ==> r.value in nodes && r.value.name == cur
    decreases if n == null then 0 else n.steps + 1
  {
    if n == null then None
    else if n.name == cur then Some(n)
    else First(nodes, n.next, cur)
  }

  /** The node k steps further on, or null if there are not that many. */
  ghost function Nth(nodes: set<Node>, n: Node?, k: nat): (r: Node?)
    requires Forest(nodes) && (n != null ==> n in nodes)
    ensures r != null ==> r in nodes
  {
    if n == null || k == 0 then n else Nth(nodes, n.next, k - 1)
  }

  /** First is the nearest node with the name, and None exactly if there is none. */
  lemma {:induction false} FirstIsNearest(nodes: set<Node>, n: Node?, cur: string)
    requires Forest(nodes) && (n != null ==> n in nodes)
    ensures var r := First(nodes, n, cur);
            && (r.Some? ==> exists k: nat :: Nth(nodes, n, k) == r.value && Nameless(nodes, n, k, cur))
            && (r.None? <==> forall k: nat :: Nameless(nodes, n, k, cur))
    decreases if n == null then 0 else n.steps + 1
  {
    if n == null {
      forall k: nat
        ensures Nameless(nodes, n, k, cur)
      {
      }
    } else if n.name == cur {
      assert Nth(nodes, n, 0) == n && Nameless(nodes, n, 0, cur);
      assert !Nameless(nodes, n, 1, cur);
    } else {
      FirstIsNearest(nodes, n.next, cur);
      var r := First(nodes, n, cur);
      forall k: nat
        ensures Nameless(nodes, n, k + 1, cur) <==> Nameless(nodes, n.next, k, cur)
      {
        NamelessNext(nodes, n, k, cur);
      }
      if r.Some? {
        var k: nat :| Nth(nodes, n.next, k) == r.value && Nameless(nodes, n.next, k, cur);
        assert Nth(nodes, n, k + 1) == r.value && Nameless(nodes, n, k + 1, cur);
        var bad: nat :| !Nameless(nodes, n.next, bad, cur);
        assert !Nameless(nodes, n, bad + 1, cur);
      } else {
        forall k: nat
          ensures Nameless(nodes, n, k, cur)
        {
          assert k > 0 ==> Nameless(nodes, n.next, k - 1, cur);
        }
      }
    }
  }

  /** None of the first k nodes from n on has the name. */
  ghost predicate Nameless(nodes: set<Node>, n: Node?, k: nat, cur: string)
    requires Forest(nodes) && (n != null ==> n in nodes)
  {
    forall j: nat :: j < k ==> Nth(nodes, n, j) == null || Nth(nodes, n, j).name != cur
  }

  lemma NamelessNext(nodes: set<Node>, n: Node, k: nat, cur: string)
    requires Forest(nodes) && n in nodes && n.name != cur
    ensures Nameless(nodes, n, k + 1, cur) <==> Nameless(nodes, n.next, k, cur)
  {
    if Nameless(nodes, n, k + 1, cur) {
      forall j: nat | j < k
        ensures Nth(nodes, n.next, j) == null || Nth(nodes, n.next, j).name != cur
      {
        assert Nth(nodes, n, j + 1) == Nth(nodes, n.next, j);
      }
    }
    if Nameless(nodes, n.next, k, cur) {
      forall j: nat | j < k + 1
        ensures Nth(nodes, n, j) == null || Nth(nodes, n, j).name != cur
      {
        if j > 0 {
          assert Nth(nodes, n, j) == Nth(nodes, n.next, j - 1);
        }
      }
    }
  }

  /** What entry e becomes. */
  ghost function Found(nodes: set<Node>, e: Option<Node>, cur: string): (r: Option<Node>)
    requires Forest(nodes) && (e.Some? ==> e.value in nodes)
  {
    if e.None? then None else First(nodes, e.value.next, cur)
  }

  /** r is the nearest node with the name that is at least one step away from n, or None if there is none. */
  ghost predicate NearestAhead(nodes: set<Node>, n: Node, r: Option<Node>, cur: string)
    requires Forest(nodes) && n in nodes
  {
    match r
    case Some(m) => exists k: nat :: k >= 1 && Nth(nodes, n, k) == m && m.name == cur && NamelessAhead(nodes, n, k, cur)
    case None => forall k: nat :: NamelessAhead(nodes, n, k, cur)
  }

  /** None of the nodes from one step away to fewer than k steps has the name. */
  ghost predicate NamelessAhead(nodes: set<Node>, n: Node, k: nat, cur: string)
    requires Forest(nodes) && n in nodes
  {
    forall j: nat :: 1 <= j < k ==> Nth(nodes, n, j) == null || Nth(nodes, n, j).name != cur
  }

  lemma FoundIsNearest(nodes: set<Node>, n: Node, cur: string)
    requires Forest(nodes) && n in nodes
    ensures NearestAhead(nodes, n, Found(nodes, Some(n), cur), cur)
  {
    FirstIsNearest(nodes, n.next, cur);
    var r := First(nodes, n.next, cur);
    forall k: nat
      ensures Nameless(nodes, n.next, k, cur) ==> NamelessAhead(nodes, n, k + 1, cur)
    {
      NamelessFrom(nodes, n, k, cur);
    }
    match r
    case Some(m) =>
      var k: nat :| Nth(nodes, n.next, k) == m && Nameless(nodes, n.next, k, cur);
      assert Nth(nodes, n, k + 1) == m && NamelessAhead(nodes, n, k + 1, cur);
    case None =>
      forall k: nat
        ensures NamelessAhead(nodes, n, k, cur)
      {
        if k > 0 {
          assert Nameless(nodes, n.next, k - 1, cur);
          NamelessFrom(nodes, n, k - 1, cur);
        }
      }
  }

  lemma NamelessFrom(nodes: set<Node>, n: Node, k: nat, cur: string)
    requires Forest(nodes) && n in nodes
    ensures Nameless(nodes, n.next, k, cur) ==> NamelessAhead(nodes, n, k + 1, cur)
  {
    if Nameless(nodes, n.next, k, cur) {
      forall j: nat | 1 <= j < k + 1
        ensures Nth(nodes, n, j) == null || Nth(nodes, n, j).name != cur
      {
        assert Nth(nodes, n, j) == Nth(nodes, n.next, j - 1);
      }
    }
  }

  /** A marked node stands for an entry that has been dealt with, and that entry tells what the search from it finds. */
  ghost predicate MarksOk(nodes: set<Node>, set_: seq<Option<Node>>, doneName: int, upto: nat, cur: string)
    requires Forest(nodes)
    reads nodes
  {
    forall n :: n in nodes && n.mark == doneName && n.sizset != upto ==>
      n.sizset < upto && n.sizset < |set_| && set_[n.sizset] == First(nodes, n, cur)
  }

  /** The nodes marked in the walk under way have been passed, and the search from them finds what the search from
    here does. */
  ghost predicate WalkOk(nodes: set<Node>, elem: Node?, doneName: int, upto: nat, cur: string)
    requires Forest(nodes) && (elem != null ==> elem in nodes)
    reads nodes
  {
    forall n :: n in nodes && n.mark == doneName && n.sizset == upto ==>
      (elem != null ==> elem.steps < n.steps) && First(nodes, n, cur) == First(nodes, elem, cur)
  }

  method DirNodeCheck(cur: string, doneName: int, checkSet: array<Option<Node>>, isXML: bool, ghost nodes: set<Node>)
    requires Forest(nodes) && forall n :: n in nodes ==> n.mark != doneName
    requires forall i :: 0 <= i < checkSet.Length && checkSet[i].Some? ==> checkSet[i].value in nodes
    modifies checkSet, nodes
    ensures forall i :: 0 <= i < checkSet.Length ==> checkSet[i] == Found(nodes, old(checkSet[i]), cur)
    ensures forall i :: 0 <= i < checkSet.Length ==>
      if old(checkSet[i]).None? then checkSet[i].None?
      else NearestAhead(nodes, old(checkSet[i]).value, checkSet[i], cur)
  {
    hide NearestAhead;
    var i := 0;
    while i < checkSet.Length
      invariant i <= checkSet.Length
      invariant forall k :: 0 <= k < i ==> checkSet[k] == Found(nodes, old(checkSet[k]), cur)
      invariant forall k :: i <= k < checkSet.Length ==> checkSet[k] == old(checkSet[k])
      invariant forall n :: n in nodes && n.mark == doneName ==> n.sizset < i
      invariant MarksOk(nodes, checkSet[..i], doneName, i, cur)
    {
      var start := checkSet[i];
      if start.Some? {
        var found := Walk(cur, doneName, checkSet, isXML, i, start.value.next, nodes);
        ghost var before := checkSet[..i];
        checkSet[i] := found;
        assert checkSet[..i] == before;
        assert checkSet[..i + 1] == before + [found];
      } else {
        assert checkSet[..i + 1] == checkSet[..i] + [None];
      }
      i := i + 1;
    }
    EachNearest(nodes, old(checkSet[..]), cur);
    assert forall k :: 0 <= k < checkSet.Length ==> old(checkSet[..])[k] == old(checkSet[k]);
  }

  lemma EachNearest(nodes: set<Node>, starts: seq<Option<Node>>, cur: string)
    requires Forest(nodes) && forall k :: 0 <= k < |starts| && starts[k].Some? ==> starts[k].value in nodes
    ensures forall k :: 0 <= k < |starts| && starts[k].Some? ==>
      NearestAhead(nodes, starts[k].value, Found(nodes, starts[k], cur), cur)
  {
    hide NearestAhead;
    forall k | 0 <= k < |starts| && starts[k].Some?
      ensures NearestAhead(nodes, starts[k].value, Found(nodes, starts[k], cur), cur)
    {
      FoundIsNearest(nodes, starts[k].value, cur);
    }
  }

  /** The walk for entry number i, from elem on. */
  method Walk(cur: string, doneName: int, checkSet: array<Option<Node>>, isXML: bool, i: nat, start: Node?,
      ghost nodes: set<Node>)
    returns (found: Option<Node>)
    requires Forest(nodes) && i < checkSet.Length && (start != null ==> start in nodes)
    requires forall n :: n in nodes && n.mark == doneName ==> n.sizset < i
    requires MarksOk(nodes, checkSet[..i], doneName, i, cur)
    modifies nodes
    ensures found == First(nodes, start, cur)
    ensures forall n :: n in nodes && n.mark == doneName ==> n.sizset <= i
    ensures forall n :: n in nodes && n.mark == doneName && n.sizset == i ==> First(nodes, n, cur) == found
    ensures MarksOk(nodes, checkSet[..i], doneName, i, cur)
  {
    found := None;
    var elem := start;
    while elem != null
      invariant elem != null ==> elem in nodes
      invariant found == None && First(nodes, elem, cur) == First(nodes, start, cur)
      invariant forall n :: n in nodes && n.mark == doneName ==> n.sizset <= i
      invariant MarksOk(nodes, checkSet[..i], doneName, i, cur) && WalkOk(nodes, elem, doneName, i, cur)
      decreases if elem == null then 0 else elem.steps + 1
    {
      if elem.mark == doneName {
        found := checkSet[elem.sizset];
        return;
      }
      if elem.element && !isXML {
        elem.mark := doneName;
        elem.sizset := i;
      }
      if elem.name == cur {
        found := Some(elem);
        return;
      }
      elem := elem.next;
    }
  }
}
