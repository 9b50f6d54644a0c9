/** Height of a valid red-black tree, which bounds every descent loop of src/rbtree.rs. */
module TreeHeight {
  import opened Topology
  import opened Coloring

  // The number of nodes on the longest downward path from `n`.
  ghost function Height(t: Topo, n: Addr): nat
    requires Shape(t) && (n == NULL || n in t.span)
    decreases if n != NULL && n in t.span then t.span[n].hi - t.span[n].lo else 0
  {
    if n == NULL then 0 else
      assert Linked(t, n);
      assert Get(t.left, n) != NULL ==> Linked(t, Get(t.left, n));
      assert Get(t.right, n) != NULL ==> Linked(t, Get(t.right, n));
      1 + Max(Height(t, Get(t.left, n)), Height(t, Get(t.right, n)))
  }

  lemma KidsLower(t: Topo, n: Addr)
    requires Shape(t) && n != NULL && n in t.span
    ensures Get(t.left, n) == NULL || Get(t.left, n) in t.span
    ensures Get(t.right, n) == NULL || Get(t.right, n) in t.span
    ensures Height(t, Get(t.left, n)) < Height(t, n) && Height(t, Get(t.right, n)) < Height(t, n)
  {
    assert Linked(t, n);
  }

  // The number of links between the root and `n`: how often a descent loop has turned when it reaches `n`.
  ghost function Depth(t: Topo, n: Addr): nat
    requires Shape(t) && n in t.span
    decreases |t.nodes| - (t.span[n].hi - t.span[n].lo)
  {
    assert Linked(t, n);
    if Up(t, n) == NULL then 0 else assert Linked(t, Up(t, n)); 1 + Depth(t, Up(t, n))
  }

  function Max(a: nat, b: nat): nat { if a < b then b else a }

  ghost function Pow2(n: nat): nat { if n == 0 then 1 else 2 * Pow2(n - 1) }

  lemma {:induction false} Pow2Monotone(m: nat, n: nat)
    requires m <= n
    ensures Pow2(m) <= Pow2(n)
    decreases n
  {
    if m < n { Pow2Monotone(m, n - 1); }
  }

  // Along any path at least every other node is black, and a subtree of black height b has at least 2^b - 1 nodes.
  lemma {:induction false} SubtreeBounds(t: Topo, c: Colors, h: Heights, n: Addr)
    requires RedBlack(t, c, h) && (n == NULL || n in t.span)
    ensures 0 <= H(h, n) && Height(t, n) <= 2 * H(h, n) + (if IsRed(c, n) then 1 else 0)
    ensures Pow2(H(h, n)) <= 1 + (if n == NULL then 0 else t.span[n].hi - t.span[n].lo)
    decreases if n != NULL && n in t.span then t.span[n].hi - t.span[n].lo else 0
  {
    if n != NULL {
      assert Linked(t, n);
      var l, r := Get(t.left, n), Get(t.right, n);
      if l != NULL { assert Linked(t, l); }
      if r != NULL { assert Linked(t, r); }
      SubtreeBounds(t, c, h, l);
      SubtreeBounds(t, c, h, r);
    }
  }

  lemma {:induction false} DepthBelowHeight(t: Topo, n: Addr)
    requires Shape(t) && n in t.span
    ensures Depth(t, n) + Height(t, n) <= Height(t, t.root)
    decreases |t.nodes| - (t.span[n].hi - t.span[n].lo)
  {
    assert Linked(t, n);
    if Up(t, n) != NULL {
      assert Linked(t, Up(t, n));
      DepthBelowHeight(t, Up(t, n));
    }
  }

  // Height and depth are logarithmic: the height is at most 2 log2(len + 1).
  lemma LogarithmicHeight(t: Topo, c: Colors, h: Heights)
    requires RedBlack(t, c, h)
    ensures Pow2((Height(t, t.root) + 1) / 2) <= |t.nodes| + 1
    ensures forall n :: n in t.span ==> Pow2((Depth(t, n) + 2) / 2) <= |t.nodes| + 1
  {
    SubtreeBounds(t, c, h, t.root);
    Pow2Monotone((Height(t, t.root) + 1) / 2, H(h, t.root));
    forall n | n in t.span ensures Pow2((Depth(t, n) + 2) / 2) <= |t.nodes| + 1 {
      assert Linked(t, n);
      DepthBelowHeight(t, n);
      Pow2Monotone((Depth(t, n) + 2) / 2, (Height(t, t.root) + 1) / 2);
    }
  }
}
