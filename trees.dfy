/** `TreeNode<T>` of rust/sample3.rs. A node owns its children by value
    (a `Vec<TreeNode<T>>`), so the tree is a value here and `add_child`
    returns the updated node. */
module Trees {

  datatype TreeNode<T> = TreeNode(value: T, children: seq<TreeNode<T>>)

  /** `TreeNode::new`: a leaf. */
  function NewNode<T>(value: T): (t: TreeNode<T>)
    ensures t.value == value && t.children == []
  {
    TreeNode(value, [])
  }

  /** `add_child`: the child goes last; the value and earlier children stay. */
  function AddChild<T>(t: TreeNode<T>, child: TreeNode<T>): (r: TreeNode<T>)
    ensures r.value == t.value && |r.children| == |t.children| + 1
    ensures r.children[..|t.children|] == t.children && r.children[|t.children|] == child
  {
    t.(children := t.children + [child])
  }

  /** `count_nodes`: the node itself plus every node below it; so at least
      one, and at least one more per direct child. */
  function CountNodes<T>(t: TreeNode<T>): (n: nat)
    ensures n >= 1 + |t.children|
    decreases t
  {
    1 + SumCounts(t.children)
  }

  /** The sum of `count_nodes` over a list of children, left to right. */
  function SumCounts<T>(cs: seq<TreeNode<T>>): (n: nat)
    ensures n >= |cs|
    decreases cs
  {
    if cs == [] then 0 else CountNodes(cs[0]) + SumCounts(cs[1..])
  }

  /** Summing over `cs + [c]` adds `c`'s count to the sum over `cs`. */
  lemma {:induction false} SumCountsAppend<T>(cs: seq<TreeNode<T>>, c: TreeNode<T>)
    ensures SumCounts(cs + [c]) == SumCounts(cs) + CountNodes(c)
    decreases |cs|
  {
    if cs == [] {
      assert [c][1..] == [];
    } else {
      assert (cs + [c])[1..] == cs[1..] + [c];
      SumCountsAppend(cs[1..], c);
    }
  }

  /** `add_child(c)` raises `count_nodes` by exactly `c.count_nodes()`. */
  lemma AddChildCount<T>(t: TreeNode<T>, c: TreeNode<T>)
    ensures CountNodes(AddChild(t, c)) == CountNodes(t) + CountNodes(c)
  {
    SumCountsAppend(t.children, c);
  }

  /** A leaf counts one node. */
  lemma LeafCount<T>(v: T)
    ensures CountNodes(NewNode(v)) == 1
  {
  }
}
