/**
 * toPath: the `/`-joined form of a branch, and the splitting that recovers
 * the branch from it.
 */
module ContextPath {

  /** One iteration of toPath's loop: a separator only once the builder holds something. */
  function AppendLeaf(builder: string, leaf: string): string
  {
    if |builder| > 0 then builder + "/" + leaf else leaf
  }

  /**
   * toPath, folding AppendLeaf over the branch from the left, exactly as the
   * StringBuilder loop does. The path is empty exactly when every leaf is.
   */
  function ToPath(branch: seq<string>): (r: string)
    ensures r == "" <==> forall k | 0 <= k < |branch| :: branch[k] == ""
    decreases |branch|
  {
    if branch == [] then ""
    else
      var prefix := branch[..|branch| - 1];
      assert forall k | 0 <= k < |prefix| :: prefix[k] == branch[k];
      AppendLeaf(ToPath(prefix), branch[|branch| - 1])
  }

  /** A path segment as node ids are: non-empty and free of the separator. */
  predicate IsSegment(s: string)
  {
    |s| > 0 && '/' !in s
  }

  /** The position of the last separator in `s`. */
  function LastSlash(s: string): (k: nat)
    requires '/' in s
    ensures k < |s| && s[k] == '/'
    ensures forall j | k < j < |s| :: s[j] != '/'
  {
    if s[|s| - 1] == '/' then |s| - 1
    else
      var j :| 0 <= j < |s| && s[j] == '/';
      assert s[..|s| - 1][j] == '/';
      LastSlash(s[..|s| - 1])
  }

  /** Cuts a path at its separators; the inverse of toPath on segment lists. */
  function Split(s: string): (r: seq<string>)
    decreases |s|
  {
    if s == "" then []
    else if '/' !in s then [s]
    else
      var k := LastSlash(s);
      Split(s[..k]) + [s[k + 1..]]
  }

  /** toPath maps the empty branch to "" and a one-element branch to its element. */
  lemma ToPathShort(x: string)
    ensures ToPath([]) == ""
    ensures ToPath([x]) == x
  {
    assert [x][..0] == [];
  }

  /** Once the path so far is non-empty, the next leaf follows a separator. */
  lemma ToPathSnoc(xs: seq<string>, y: string)
    requires exists k | 0 <= k < |xs| :: xs[k] != ""
    ensures ToPath(xs + [y]) == ToPath(xs) + "/" + y
  {
    assert (xs + [y])[..|xs|] == xs;
  }

  /** Splitting the path of a list of segments gives the list back. */
  lemma {:induction false} SplitToPath(xs: seq<string>)
    requires forall k | 0 <= k < |xs| :: IsSegment(xs[k])
    ensures Split(ToPath(xs)) == xs
    decreases |xs|
  {
    if |xs| == 1 {
      ToPathShort(xs[0]);
      assert xs == [xs[0]];
    } else if |xs| > 1 {
      var prefix := xs[..|xs| - 1];
      var y := xs[|xs| - 1];
      assert xs == prefix + [y];
      assert IsSegment(prefix[0]);
      ToPathSnoc(prefix, y);
      var p := ToPath(prefix);
      var s := p + "/" + y;
      assert s[|p|] == '/';
      assert forall j | |p| < j < |s| :: s[j] == y[j - |p| - 1];
      var k := LastSlash(s);
      assert k == |p|;
      assert s[..k] == p && s[k + 1..] == y;
      SplitToPath(prefix);
    }
  }

  /** Distinct segment lists have distinct paths. */
  lemma ToPathInjective(xs: seq<string>, ys: seq<string>)
    requires forall k | 0 <= k < |xs| :: IsSegment(xs[k])
    requires forall k | 0 <= k < |ys| :: IsSegment(ys[k])
    requires ToPath(xs) == ToPath(ys)
    ensures xs == ys
  {
    SplitToPath(xs);
    SplitToPath(ys);
  }
}
