/**
 * The block-ancestor resolver: the body-invocation block a node is
 * attributed to (`getParentBlock`) and the chain of such blocks, outermost
 * first (`getBranch`), which becomes the node's context.
 */
module BlockResolver {
  import opened Wrappers
  import opened FlowGraph

  /** Every entry of `ps` names a node of `g`. */
  predicate AllIn(g: Graph, ps: seq<nat>)
  {
    forall k | 0 <= k < |ps| :: ps[k] < |g.nodes|
  }

  /**
   * The first loop of getParentBlock: the position, at or after `k`, of the
   * first parent that is a body-invocation StepStartNode.
   */
  function FirstBodyStart(g: Graph, ps: seq<nat>, k: nat): (r: Option<nat>)
    requires AllIn(g, ps) && k <= |ps|
    ensures r.Some? ==> k <= r.value < |ps| && IsBodyStart(g, ps[r.value])
    ensures r.Some? ==> forall j | k <= j < r.value :: !IsBodyStart(g, ps[j])
    ensures r.None? ==> forall j | k <= j < |ps| :: !IsBodyStart(g, ps[j])
    decreases |ps| - k
  {
    if k == |ps| then None
    else if IsBodyStart(g, ps[k]) then Some(k)
    else FirstBodyStart(g, ps, k + 1)
  }

  /**
   * getParentBlock: a direct body-invocation parent wins outright; otherwise
   * the parents are searched depth-first in their given order. Any block
   * found is an earlier node, which is what makes getBranch terminate.
   */
  function ParentBlock(g: Graph, i: nat): (r: Option<nat>)
    requires WellFormed(g) && i < |g.nodes|
    ensures r.Some? ==> r.value < i && IsBodyStart(g, r.value)
    decreases i, 1
  {
    var ps := Parents(g, i);
    match FirstBodyStart(g, ps, 0)
    case Some(k) => Some(ps[k])
    case None => SearchParents(g, i, 0)
  }

  /**
   * The second loop of getParentBlock, from parent position `k` on: end-node
   * parents are skipped, and the first parent whose own parent block exists
   * supplies the answer.
   */
  function SearchParents(g: Graph, i: nat, k: nat): (r: Option<nat>)
    requires WellFormed(g) && i < |g.nodes| && k <= |g.nodes[i].parents|
    ensures r.Some? ==> r.value < i && IsBodyStart(g, r.value)
    decreases i, 0, |g.nodes[i].parents| - k
  {
    var ps := Parents(g, i);
    if k == |ps| then None
    else if IsEnd(g, ps[k]) then SearchParents(g, i, k + 1)
    else match ParentBlock(g, ps[k])
      case Some(b) => Some(b)
      case None => SearchParents(g, i, k + 1)
  }

  /**
   * Reference definition of the blocks getParentBlock can reach: `b` is
   * reachable from `i` when a path of parent edges leads from `i` to the
   * body-invocation start `b` and every intermediate node on it is not a
   * StepEndNode. This is the resolver's own search rule stated as paths,
   * not block nesting: a node whose parents are all end nodes reaches no
   * block even when an outer body is still open (see EndParentsHideBlocks).
   */
  ghost predicate Reaches(g: Graph, i: nat, b: nat)
    requires WellFormed(g) && i < |g.nodes|
    decreases i
  {
    var ps := Parents(g, i);
    exists k | 0 <= k < |ps| ::
      || (ps[k] == b && IsBodyStart(g, b))
      || (!IsEnd(g, ps[k]) && Reaches(g, ps[k], b))
  }

  /** Parent `p` is entered by the depth-first phase and yields a block. */
  predicate Yields(g: Graph, p: nat)
    requires WellFormed(g) && p < |g.nodes|
  {
    !IsEnd(g, p) && ParentBlock(g, p).Some?
  }

  /** When some direct parent is a body-invocation start, the first such parent is the answer. */
  lemma DirectBodyStartWins(g: Graph, i: nat, k: nat)
    requires WellFormed(g) && i < |g.nodes|
    requires k < |g.nodes[i].parents| && IsBodyStart(g, g.nodes[i].parents[k])
    requires forall j | 0 <= j < k :: !IsBodyStart(g, g.nodes[i].parents[j])
    ensures ParentBlock(g, i) == Some(g.nodes[i].parents[k])
  {
    var ps := Parents(g, i);
    var r := FirstBodyStart(g, ps, 0);
  }

  /** The depth-first phase from position `k` returns the first yielding parent's block, or nothing. */
  lemma {:induction false} SearchParentsFirstYield(g: Graph, i: nat, k: nat)
    requires WellFormed(g) && i < |g.nodes| && k <= |g.nodes[i].parents|
    ensures var ps := g.nodes[i].parents;
      SearchParents(g, i, k).None? <==> forall j | k <= j < |ps| :: !Yields(g, ps[j])
    ensures var ps := g.nodes[i].parents;
      forall j | k <= j < |ps| && Yields(g, ps[j]) && (forall m | k <= m < j :: !Yields(g, ps[m])) ::
        SearchParents(g, i, k) == ParentBlock(g, ps[j])
    decreases |g.nodes[i].parents| - k
  {
    var ps := Parents(g, i);
    if k < |ps| {
      SearchParentsFirstYield(g, i, k + 1);
      if !Yields(g, ps[k]) {
        forall j | k < j < |ps| && Yields(g, ps[j]) && (forall m | k <= m < j :: !Yields(g, ps[m]))
          ensures SearchParents(g, i, k) == ParentBlock(g, ps[j])
        {
          assert forall m | k + 1 <= m < j :: !Yields(g, ps[m]);
        }
      }
    }
  }

  /**
   * When no direct parent is a body-invocation start, getParentBlock finds
   * nothing exactly when no non-end parent yields a block, and otherwise
   * returns the block of the first parent, in list order, that yields one.
   */
  lemma SearchInParentOrder(g: Graph, i: nat)
    requires WellFormed(g) && i < |g.nodes|
    requires forall j | 0 <= j < |g.nodes[i].parents| :: !IsBodyStart(g, g.nodes[i].parents[j])
    ensures var ps := g.nodes[i].parents;
      ParentBlock(g, i).None? <==> forall j | 0 <= j < |ps| :: !Yields(g, ps[j])
    ensures var ps := g.nodes[i].parents;
      forall j | 0 <= j < |ps| && Yields(g, ps[j]) && (forall m | 0 <= m < j :: !Yields(g, ps[m])) ::
        ParentBlock(g, i) == ParentBlock(g, ps[j])
  {
    var ps := Parents(g, i);
    var r := FirstBodyStart(g, ps, 0);
    SearchParentsFirstYield(g, i, 0);
  }

  /** Whatever getParentBlock returns is reachable from the node through non-end parents. */
  lemma {:induction false} ParentBlockSound(g: Graph, i: nat)
    requires WellFormed(g) && i < |g.nodes|
    ensures ParentBlock(g, i).Some? ==> Reaches(g, i, ParentBlock(g, i).value)
    decreases i, 1
  {
    var ps := Parents(g, i);
    match FirstBodyStart(g, ps, 0)
    case Some(k) =>
      assert ps[k] == ParentBlock(g, i).value;
    case None =>
      SearchParentsSound(g, i, 0);
  }

  /** The depth-first phase only returns blocks reachable from the node through non-end parents. */
  lemma {:induction false} SearchParentsSound(g: Graph, i: nat, k: nat)
    requires WellFormed(g) && i < |g.nodes| && k <= |g.nodes[i].parents|
    ensures SearchParents(g, i, k).Some? ==> Reaches(g, i, SearchParents(g, i, k).value)
    decreases i, 0, |g.nodes[i].parents| - k
  {
    var ps := Parents(g, i);
    if k < |ps| {
      if IsEnd(g, ps[k]) {
        SearchParentsSound(g, i, k + 1);
      } else {
        match ParentBlock(g, ps[k])
        case Some(b) =>
          ParentBlockSound(g, ps[k]);
          assert Reaches(g, ps[k], b);
        case None =>
          SearchParentsSound(g, i, k + 1);
      }
    }
  }

  /** A node from which any body-invocation start is reachable through non-end parents gets a block from getParentBlock. */
  lemma {:induction false} ParentBlockComplete(g: Graph, i: nat, b: nat)
    requires WellFormed(g) && i < |g.nodes|
    requires Reaches(g, i, b)
    ensures ParentBlock(g, i).Some?
    decreases i
  {
    var ps := Parents(g, i);
    var k :| 0 <= k < |ps| && ((ps[k] == b && IsBodyStart(g, b)) || (!IsEnd(g, ps[k]) && Reaches(g, ps[k], b)));
    var first := FirstBodyStart(g, ps, 0);
    if first.None? {
      assert !IsBodyStart(g, ps[k]);
      ParentBlockComplete(g, ps[k], b);
      assert Yields(g, ps[k]);
      SearchParentsFirstYield(g, i, 0);
    }
  }

  /** getParentBlock returns null exactly for the nodes from which no block is reachable through non-end parents. */
  lemma ParentBlockNoneIff(g: Graph, i: nat)
    requires WellFormed(g) && i < |g.nodes|
    ensures ParentBlock(g, i).None? <==> forall b :: !Reaches(g, i, b)
  {
    if ParentBlock(g, i).Some? {
      ParentBlockSound(g, i);
      var b := ParentBlock(g, i).value;
      assert Reaches(g, i, b);
    } else {
      forall b ensures !Reaches(g, i, b) {
        if Reaches(g, i, b) {
          ParentBlockComplete(g, i, b);
        }
      }
    }
  }

  /**
   * A node whose parents are all end nodes is attributed to no block and
   * has an empty branch, however deeply those end nodes are nested: the
   * resolver never looks behind a StepEndNode.
   */
  lemma EndParentsHideBlocks(g: Graph, i: nat)
    requires WellFormed(g) && i < |g.nodes|
    requires forall k | 0 <= k < |g.nodes[i].parents| :: IsEnd(g, g.nodes[i].parents[k])
    ensures ParentBlock(g, i).None? && BranchNodes(g, i) == []
  {
    SearchParentsFirstYield(g, i, 0);
  }

  /**
   * The blocks node `i` is attributed to, outermost first, as node indices:
   * the chain getBranch builds by repeatedly taking the parent block.
   */
  function BranchNodes(g: Graph, i: nat): (r: seq<nat>)
    requires WellFormed(g) && i < |g.nodes|
    ensures forall k | 0 <= k < |r| :: r[k] < i && IsBodyStart(g, r[k])
    ensures forall a, b | 0 <= a < b < |r| :: r[a] < r[b]
    decreases i
  {
    match ParentBlock(g, i)
    case None => []
    case Some(b) => BranchNodes(g, b) + [b]
  }

  /**
   * `s` is a chain of parent blocks for `i`: its last element is the parent
   * block of `i`, each earlier element is the parent block of the one after
   * it, and the first has no parent block. The empty chain belongs to a node
   * without a parent block.
   */
  ghost predicate IsBlockChain(g: Graph, i: nat, s: seq<nat>)
    requires WellFormed(g) && i < |g.nodes|
  {
    && AllIn(g, s)
    && if s == [] then ParentBlock(g, i).None?
       else
         && ParentBlock(g, i) == Some(s[|s| - 1])
         && ParentBlock(g, s[0]).None?
         && forall k | 0 <= k < |s| - 1 :: ParentBlock(g, s[k + 1]) == Some(s[k])
  }

  /** The branch of a node is a chain of parent blocks. */
  lemma {:induction false} BranchIsChain(g: Graph, i: nat)
    requires WellFormed(g) && i < |g.nodes|
    ensures IsBlockChain(g, i, BranchNodes(g, i))
    decreases i
  {
    match ParentBlock(g, i)
    case None =>
    case Some(b) =>
      BranchIsChain(g, b);
      var prefix := BranchNodes(g, b);
      var r := prefix + [b];
      assert r == BranchNodes(g, i);
      forall k | 0 <= k < |r| - 1
        ensures ParentBlock(g, r[k + 1]) == Some(r[k])
      {
        if k + 1 < |prefix| {
          assert r[k + 1] == prefix[k + 1] && r[k] == prefix[k];
        }
      }
  }

  /** A chain of parent blocks is the branch: the branch is the only such chain. */
  lemma {:induction false} ChainIsBranch(g: Graph, i: nat, s: seq<nat>)
    requires WellFormed(g) && i < |g.nodes|
    requires IsBlockChain(g, i, s)
    ensures s == BranchNodes(g, i)
    decreases i
  {
    if s != [] {
      var b := s[|s| - 1];
      var prefix := s[..|s| - 1];
      assert s == prefix + [b];
      assert IsBlockChain(g, b, prefix);
      ChainIsBranch(g, b, prefix);
    }
  }

  /** The identifiers of the nodes listed in `s`. */
  function Ids(g: Graph, s: seq<nat>): (r: seq<string>)
    requires AllIn(g, s)
    ensures |r| == |s| && forall k | 0 <= k < |s| :: r[k] == g.nodes[s[k]].id
  {
    seq(|s|, k requires 0 <= k < |s| => g.nodes[s[k]].id)
  }

  /** The value of getBranch: the ids of the node's chain of parent blocks, outermost first. */
  function Branch(g: Graph, i: nat): (r: seq<string>)
    requires WellFormed(g) && i < |g.nodes|
  {
    Ids(g, BranchNodes(g, i))
  }

  /** The chain still to be collected once getBranch holds `parentBlock`: its branch, then itself. */
  function Pending(g: Graph, parentBlock: Option<nat>): (r: seq<nat>)
    requires WellFormed(g) && (parentBlock.Some? ==> parentBlock.value < |g.nodes|)
    ensures AllIn(g, r)
  {
    match parentBlock
    case None => []
    case Some(b) => BranchNodes(g, b) + [b]
  }

  /** One iteration of getBranch moves the block `b` from the pending chain to the collected part. */
  lemma PendingStep(g: Graph, b: nat, done: seq<nat>)
    requires WellFormed(g) && b < |g.nodes|
    ensures Pending(g, Some(b)) + done == Pending(g, ParentBlock(g, b)) + ([b] + done)
  {
    assert BranchNodes(g, b) == Pending(g, ParentBlock(g, b));
  }

  /**
   * getBranch as the source writes it: follow getParentBlock upwards,
   * putting each block's id at the front of the list.
   */
  method GetBranch(g: Graph, i: nat) returns (branch: seq<string>)
    requires WellFormed(g) && i < |g.nodes|
    ensures branch == Branch(g, i)
  {
    branch := [];
    ghost var done: seq<nat> := [];
    var parentBlock: Option<nat> := ParentBlock(g, i);
    assert BranchNodes(g, i) == Pending(g, parentBlock) + done;
    while parentBlock.Some?
      invariant parentBlock.Some? ==> parentBlock.value < |g.nodes|
      invariant AllIn(g, done) && branch == Ids(g, done)
      invariant BranchNodes(g, i) == Pending(g, parentBlock) + done
      decreases if parentBlock.Some? then parentBlock.value + 1 else 0
    {
      var b := parentBlock.value;
      IdsCons(g, b, done);
      PendingStep(g, b, done);
      branch := [g.nodes[b].id] + branch;
      done := [b] + done;
      parentBlock := ParentBlock(g, b);
    }
  }

  /** Prepending a node prepends its id. */
  lemma IdsCons(g: Graph, b: nat, s: seq<nat>)
    requires b < |g.nodes| && AllIn(g, s)
    ensures AllIn(g, [b] + s) && Ids(g, [b] + s) == [g.nodes[b].id] + Ids(g, s)
  {
    var l := Ids(g, [b] + s);
    var r := [g.nodes[b].id] + Ids(g, s);
    forall k | 0 <= k < |l|
      ensures l[k] == r[k]
    {
      if k > 0 {
        assert ([b] + s)[k] == s[k - 1];
      }
    }
  }

  /** Appending a node appends its id. */
  lemma IdsSnoc(g: Graph, s: seq<nat>, b: nat)
    requires AllIn(g, s) && b < |g.nodes|
    ensures AllIn(g, s + [b]) && Ids(g, s + [b]) == Ids(g, s) + [g.nodes[b].id]
  {
  }

  /**
   * The branch is empty exactly for a node without a parent block, and
   * otherwise ends with the id of that parent block.
   */
  lemma BranchEndsWithParentBlock(g: Graph, i: nat)
    requires WellFormed(g) && i < |g.nodes|
    ensures Branch(g, i) == [] <==> ParentBlock(g, i).None?
    ensures ParentBlock(g, i).Some? ==> Branch(g, i)[|Branch(g, i)| - 1] == g.nodes[ParentBlock(g, i).value].id
  {
  }
}
