/** Forests of nodes held as child lists, and their rendering line by line. */
module Forests {
  import opened Wrappers

  /** How often x occurs. */
  function Count<T(==)>(s: seq<T>, x: T): (n: nat)
    ensures n > 0 <==> x in s
  {
    if s == [] then 0 else (if s[0] == x then 1 else 0) + Count(s[1..], x)
  }

  lemma {:induction false} CountConcat<T>(a: seq<T>, b: seq<T>, x: T)
    ensures Count(a + b, x) == Count(a, x) + Count(b, x)
  {
    if a == [] {
      assert a + b == b;
    } else {
      CountConcat(a[1..], b, x);
      assert (a + b)[1..] == a[1..] + b;
    }
  }

  lemma {:induction false} CountNodeThenRest<T>(node: T, below: seq<T>, after: seq<T>, x: T)
    ensures Count([node] + below + after, x) == (if node == x then 1 else 0) + Count(below, x) + Count(after, x)
  {
    CountConcat([node] + below, after, x);
    CountConcat([node], below, x);
  }

  function ChildrenOf<T>(children: map<T, seq<T>>, node: T): seq<T> {
    if node in children then children[node] else []
  }

  /** Every child lies deeper than its parent, and nothing lies deeper than the bound. */
  ghost predicate Layered<T(!new)>(children: map<T, seq<T>>, depth: T -> nat, bound: nat) {
    && (forall node: T {:trigger depth(node)} :: depth(node) <= bound)
    && (forall p <- children, x <- children[p] :: depth(p) < depth(x))
  }

  /** The nodes in the order their lines are written: a node, then its children, then its later siblings. */
  function Lines<T(!new)>(children: map<T, seq<T>>, nodes: seq<T>, ghost depth: T -> nat, ghost bound: nat,
      ghost level: nat): seq<T>
    requires Layered(children, depth, bound)
    requires forall node <- nodes :: level <= depth(node)
    decreases bound + 1 - level, |nodes|
  {
    if nodes == [] then []
    else
      var node := nodes[0];
      assert depth(node) <= bound;
      [node] + Lines(children, ChildrenOf(children, node), depth, bound, depth(node) + 1)
      + Lines(children, nodes[1..], depth, bound, level)
  }

  /** x is where `parents` puts it: once among the roots, once among one node's children, or nowhere. */
  ghost predicate StandsOnce<T(!new)>(children: map<T, seq<T>>, roots: seq<T>, parents: map<T, Option<T>>, x: T) {
    && Count(roots, x) == (if x in parents && parents[x] == None then 1 else 0)
    && (forall p: T :: Count(ChildrenOf(children, p), x) == if x in parents && parents[x] == Some(p) then 1 else 0)
  }

  ghost predicate IsForest<T(!new)>(children: map<T, seq<T>>, roots: seq<T>, parents: map<T, Option<T>>) {
    forall x: T :: StandsOnce(children, roots, parents, x)
  }

  /** The lines show x as often as the listed nodes do, plus as often as they show x's parent. */
  ghost predicate ShowsUnderParent<T>(lines: seq<T>, nodes: seq<T>, parents: map<T, Option<T>>, x: T) {
    Count(lines, x) == Count(nodes, x)
                          + (if x in parents && parents[x].Some? then Count(lines, parents[x].value) else 0)
  }

  lemma {:induction false} ShowNothing<T>(parents: map<T, Option<T>>, x: T)
    ensures ShowsUnderParent([], [], parents, x)
  {
  }

  lemma {:induction false} ShowNodeThenRest<T>(node: T, below: seq<T>, kids: seq<T>, after: seq<T>, rest: seq<T>,
      nodes: seq<T>, parents: map<T, Option<T>>, x: T)
    requires ShowsUnderParent(below, kids, parents, x) && ShowsUnderParent(after, rest, parents, x)
    requires Count(kids, x) == if x in parents && parents[x] == Some(node) then 1 else 0
    requires nodes == [node] + rest
    ensures ShowsUnderParent([node] + below + after, nodes, parents, x)
  {
    CountNodeThenRest(node, below, after, x);
    CountNodeThenRest(node, [], rest, x);
    assert [node] + [] + rest == nodes;
    if x in parents && parents[x].Some? {
      CountNodeThenRest(node, below, after, parents[x].value);
    }
  }

  lemma {:induction false} LinesShow<T(!new)>(children: map<T, seq<T>>, roots: seq<T>, parents: map<T, Option<T>>,
      depth: T -> nat, bound: nat, nodes: seq<T>, level: nat, x: T)
    requires Layered(children, depth, bound) && StandsOnce(children, roots, parents, x)
    requires forall node <- nodes :: level <= depth(node)
    ensures ShowsUnderParent(Lines(children, nodes, depth, bound, level), nodes, parents, x)
    decreases bound + 1 - level, |nodes|
  {
    if nodes == [] {
      ShowNothing(parents, x);
    } else {
      var node := nodes[0];
      assert depth(node) <= bound;
      var kids := ChildrenOf(children, node);
      var below := Lines(children, kids, depth, bound, depth(node) + 1);
      var after := Lines(children, nodes[1..], depth, bound, level);
      assert ShowsUnderParent([node] + below + after, nodes, parents, x) by {
        LinesShow(children, roots, parents, depth, bound, kids, depth(node) + 1, x);
        LinesShow(children, roots, parents, depth, bound, nodes[1..], level, x);
        ShowNodeThenRest(node, below, kids, after, nodes[1..], nodes, parents, x);
      }
    }
  }

  /** Rendering a forest whose parents are all placed shows every placed node once, and nothing else. */
  lemma {:induction false} EachPlacedNodeOnce<T(!new)>(children: map<T, seq<T>>, roots: seq<T>,
      parents: map<T, Option<T>>, depth: T -> nat, bound: nat, x: T)
    requires Layered(children, depth, bound) && IsForest(children, roots, parents)
    requires forall y <- parents :: parents[y].Some? ==> parents[y].value in parents
    ensures Count(Lines(children, roots, depth, bound, 0), x) == if x in parents then 1 else 0
    decreases depth(x)
  {
    assert StandsOnce(children, roots, parents, x);
    LinesShow(children, roots, parents, depth, bound, roots, 0, x);
    if x in parents && parents[x].Some? {
      var p := parents[x].value;
      assert Count(ChildrenOf(children, p), x) == 1;
      assert x in ChildrenOf(children, p);
      EachPlacedNodeOnce(children, roots, parents, depth, bound, p);
    }
  }

  // ----- what stands between a node's line and its parent's -----

  /** `p` is the parent of `x`, or the parent of its parent, and so on. */
  ghost predicate Below<T(!new)>(parents: map<T, Option<T>>, depth: T -> nat, p: T, x: T)
    decreases depth(x)
  {
    && x in parents && parents[x].Some? && depth(parents[x].value) < depth(x)
    && (parents[x].value == p || Below(parents, depth, p, parents[x].value))
  }

  /** Line `j` stands under its parent's, with nothing between that is not below that parent. */
  ghost predicate ShownBelow<T(!new)>(lines: seq<T>, j: nat, parents: map<T, Option<T>>, depth: T -> nat)
    requires j < |lines|
  {
    exists i :: 0 <= i < j && lines[j] in parents && parents[lines[j]] == Some(lines[i])
                && forall k :: i < k <= j ==> Below(parents, depth, lines[i], lines[k])
  }

  lemma {:induction false} ChildStands<T(!new)>(children: map<T, seq<T>>, roots: seq<T>, parents: map<T, Option<T>>,
      depth: T -> nat, bound: nat, p: T, x: T)
    requires Layered(children, depth, bound) && IsForest(children, roots, parents) && x in ChildrenOf(children, p)
    ensures x in parents && parents[x] == Some(p) && depth(p) < depth(x)
  {
    assert StandsOnce(children, roots, parents, x);
    assert Count(ChildrenOf(children, p), x) > 0;
  }

  lemma {:induction false} BelowParent<T(!new)>(parents: map<T, Option<T>>, depth: T -> nat, p: T, c: T, x: T)
    requires Below(parents, depth, c, x) && c in parents && parents[c] == Some(p) && depth(p) < depth(c)
    ensures Below(parents, depth, p, x)
    decreases depth(x)
  {
    if parents[x].value != c {
      BelowParent(parents, depth, p, c, parents[x].value);
    }
  }

  ghost predicate AmongOrBelow<T(!new)>(parents: map<T, Option<T>>, depth: T -> nat, nodes: seq<T>, x: T) {
    x in nodes || exists p <- nodes :: Below(parents, depth, p, x)
  }

  /** The lines of some nodes show those nodes and what is below them. */
  lemma {:induction false} LinesDescend<T(!new)>(children: map<T, seq<T>>, roots: seq<T>, parents: map<T, Option<T>>,
      depth: T -> nat, bound: nat, nodes: seq<T>, level: nat)
    requires Layered(children, depth, bound) && IsForest(children, roots, parents)
    requires forall node <- nodes :: level <= depth(node)
    ensures forall x <- Lines(children, nodes, depth, bound, level) :: AmongOrBelow(parents, depth, nodes, x)
    decreases bound + 1 - level, |nodes|, 1
  {
    if nodes != [] {
      var node := nodes[0];
      assert depth(node) <= bound;
      ChildLinesBelow(children, roots, parents, depth, bound, node);
      LinesDescend(children, roots, parents, depth, bound, nodes[1..], level);
      forall x <- Lines(children, nodes, depth, bound, level)
        ensures AmongOrBelow(parents, depth, nodes, x)
      {
        assert Below(parents, depth, node, x) || x == node || AmongOrBelow(parents, depth, nodes[1..], x);
        assert forall p <- nodes[1..] :: p in nodes;
      }
    }
  }

  /** The lines of a node's children show only what is below the node. */
  lemma {:induction false} ChildLinesBelow<T(!new)>(children: map<T, seq<T>>, roots: seq<T>,
      parents: map<T, Option<T>>, depth: T -> nat, bound: nat, node: T)
    requires Layered(children, depth, bound) && IsForest(children, roots, parents) && depth(node) <= bound
    ensures forall x <- Lines(children, ChildrenOf(children, node), depth, bound, depth(node) + 1) ::
              Below(parents, depth, node, x)
    decreases bound + 1 - depth(node), 0
  {
    var kids := ChildrenOf(children, node);
    var below := Lines(children, kids, depth, bound, depth(node) + 1);
    LinesDescend(children, roots, parents, depth, bound, kids, depth(node) + 1);
    forall x | x in below
      ensures Below(parents, depth, node, x)
    {
      assert AmongOrBelow(parents, depth, kids, x);
      if x in kids {
        ChildStands(children, roots, parents, depth, bound, node, x);
      } else {
        var c :| c in kids && Below(parents, depth, c, x);
        ChildStands(children, roots, parents, depth, bound, node, c);
        BelowParent(parents, depth, node, c, x);
      }
    }
  }

  lemma {:induction false} ShownWithin<T(!new)>(before: seq<T>, lines: seq<T>, after: seq<T>, j: nat,
      parents: map<T, Option<T>>, depth: T -> nat)
    requires j < |lines| && ShownBelow(lines, j, parents, depth)
    ensures ShownBelow(before + lines + after, |before| + j, parents, depth)
  {
    var all, n := before + lines + after, |before|;
    var i :| 0 <= i < j && lines[j] in parents && parents[lines[j]] == Some(lines[i])
             && forall k :: i < k <= j ==> Below(parents, depth, lines[i], lines[k]);
    assert all[n + i] == lines[i] && all[n + j] == lines[j];
    forall k | n + i < k <= n + j
      ensures Below(parents, depth, all[n + i], all[k])
    {
      assert all[k] == lines[k - n];
    }
  }

  lemma {:induction false} FirstIsParent<T(!new)>(node: T, below: seq<T>, after: seq<T>, j: nat,
      parents: map<T, Option<T>>, depth: T -> nat)
    requires 0 < j <= |below| && below[j - 1] in parents && parents[below[j - 1]] == Some(node)
    requires forall x <- below :: Below(parents, depth, node, x)
    ensures ShownBelow([node] + below + after, j, parents, depth)
  {
    var all := [node] + below + after;
    assert all[0] == node && all[j] == below[j - 1];
    forall k | 0 < k <= j
      ensures Below(parents, depth, all[0], all[k])
    {
      assert all[k] == below[k - 1];
    }
  }

  /** A line below the first node, given where it stands among the lines of that node's children. */
  lemma {:induction false} NestsBelowFirst<T(!new)>(children: map<T, seq<T>>, roots: seq<T>,
      parents: map<T, Option<T>>, depth: T -> nat, bound: nat, node: T, below: seq<T>, after: seq<T>, j: nat)
    requires Layered(children, depth, bound) && IsForest(children, roots, parents) && depth(node) <= bound
    requires below == Lines(children, ChildrenOf(children, node), depth, bound, depth(node) + 1)
    requires 0 < j <= |below|
    requires below[j - 1] in ChildrenOf(children, node) || ShownBelow(below, j - 1, parents, depth)
    ensures ShownBelow([node] + below + after, j, parents, depth)
  {
    if below[j - 1] in ChildrenOf(children, node) {
      ChildLinesBelow(children, roots, parents, depth, bound, node);
      ChildStands(children, roots, parents, depth, bound, node, below[j - 1]);
      FirstIsParent(node, below, after, j, parents, depth);
    } else {
      ShownWithin([node], below, after, j - 1, parents, depth);
    }
  }

  /** Every line but those of the listed nodes stands under its parent's. */
  lemma {:induction false} LinesNest<T(!new)>(children: map<T, seq<T>>, roots: seq<T>, parents: map<T, Option<T>>,
      depth: T -> nat, bound: nat, nodes: seq<T>, level: nat, j: nat)
    requires Layered(children, depth, bound) && IsForest(children, roots, parents)
    requires forall node <- nodes :: level <= depth(node)
    requires j < |Lines(children, nodes, depth, bound, level)|
    ensures var lines := Lines(children, nodes, depth, bound, level);
            lines[j] in nodes || ShownBelow(lines, j, parents, depth)
    decreases bound + 1 - level, |nodes|
  {
    var node, lines := nodes[0], Lines(children, nodes, depth, bound, level);
    assert depth(node) <= bound;
    var kids := ChildrenOf(children, node);
    var below := Lines(children, kids, depth, bound, depth(node) + 1);
    var after := Lines(children, nodes[1..], depth, bound, level);
    assert lines == [node] + below + after;
    if 0 < j <= |below| {
      LinesNest(children, roots, parents, depth, bound, kids, depth(node) + 1, j - 1);
      NestsBelowFirst(children, roots, parents, depth, bound, node, below, after, j);
    } else if j > |below| {
      var m := j - 1 - |below|;
      assert lines[j] == after[m];
      LinesNest(children, roots, parents, depth, bound, nodes[1..], level, m);
      if after[m] !in nodes[1..] {
        ShownWithin([node] + below, after, [], m, parents, depth);
        assert [node] + below + after + [] == lines;
      }
    }
  }

  // ----- growing a forest -----

  lemma {:induction false} AppendRoot<T(!new)>(children: map<T, seq<T>>, roots: seq<T>, parents: map<T, Option<T>>,
      node: T)
    requires IsForest(children, roots, parents) && node !in parents
    ensures IsForest(children, roots + [node], parents[node := None])
  {
    var longer, moved := roots + [node], parents[node := None];
    forall x: T
      ensures StandsOnce(children, longer, moved, x)
    {
      assert StandsOnce(children, roots, parents, x);
      CountConcat(roots, [node], x);
    }
  }

  lemma {:induction false} AppendChild<T(!new)>(children: map<T, seq<T>>, roots: seq<T>, parents: map<T, Option<T>>,
      node: T, parent: T, later: map<T, seq<T>>)
    requires IsForest(children, roots, parents) && node !in parents
    requires later == children[parent := ChildrenOf(children, parent) + [node]]
    ensures IsForest(later, roots, parents[node := Some(parent)])
  {
    var moved := parents[node := Some(parent)];
    forall x: T
      ensures StandsOnce(later, roots, moved, x)
    {
      assert StandsOnce(children, roots, parents, x);
      CountConcat(ChildrenOf(children, parent), [node], x);
      forall p: T
        ensures Count(ChildrenOf(later, p), x)
                == Count(ChildrenOf(children, p), x) + (if p == parent && x == node then 1 else 0)
      {
        if p != parent {
          assert ChildrenOf(later, p) == ChildrenOf(children, p);
        }
      }
    }
  }

  lemma {:induction false} AppendDeeperChild<T(!new)>(children: map<T, seq<T>>, depth: T -> nat, bound: nat, node: T,
      parent: T)
    requires Layered(children, depth, bound) && depth(parent) < depth(node)
    ensures Layered(children[parent := ChildrenOf(children, parent) + [node]], depth, bound)
  {
    var later := children[parent := ChildrenOf(children, parent) + [node]];
    forall p <- later, x <- later[p]
      ensures depth(p) < depth(x)
    {
      assert p != parent ==> later[p] == children[p];
      assert p == parent && x != node ==> x in ChildrenOf(children, parent);
    }
  }
}
