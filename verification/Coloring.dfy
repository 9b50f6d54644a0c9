/** Colours and black heights over a tree topology: what each fix-up step of
    insertion and removal (src/rbtree.rs) repairs and keeps. */
module Coloring {
  import opened Topology

  datatype Color = Red | Black
  type Colors = map<Addr, Color>
  type Heights = map<Addr, int>

  // Null links count as black, as `color_of` does.
  predicate IsRed(c: Colors, n: Addr) { n != NULL && n in c && c[n].Red? }

  ghost function H(h: Heights, n: Addr): int { if n != NULL && n in h then h[n] else 0 }

  // Both subtrees of `n` have the same black height, and `n` counts itself when it is black.
  ghost predicate Bal(t: Topo, c: Colors, h: Heights, n: Addr) {
    && 0 <= H(h, Get(t.left, n)) == H(h, Get(t.right, n))
    && H(h, n) == H(h, Get(t.left, n)) + (if IsRed(c, n) then 0 else 1)
  }

  // A red node has no red child, except possibly `z`.
  ghost predicate Calm(t: Topo, c: Colors, n: Addr, z: Addr) {
    IsRed(c, n) ==>
      && (IsRed(c, Get(t.left, n)) ==> Get(t.left, n) == z)
      && (IsRed(c, Get(t.right, n)) ==> Get(t.right, n) == z)
  }

  ghost predicate Balanced(t: Topo, c: Colors, h: Heights) {
    forall n {:trigger Linked(t, n)} {:trigger Bal(t, c, h, n)} :: n in t.span ==> Bal(t, c, h, n)
  }

  ghost predicate RedFree(t: Topo, c: Colors, z: Addr) {
    forall n {:trigger Linked(t, n)} {:trigger Calm(t, c, n, z)} :: n in t.span ==> Calm(t, c, n, z)
  }

  ghost predicate RedBlack(t: Topo, c: Colors, h: Heights) {
    && Shape(t) && Balanced(t, c, h) && RedFree(t, c, NULL) && !IsRed(c, t.root)
  }

  // ---------- Insertion ----------

  // A valid tree except that `z`, which is red, may have a red parent or be the root.
  ghost predicate Inserting(t: Topo, c: Colors, h: Heights, z: Addr) {
    && Shape(t) && Balanced(t, c, h) && RedFree(t, c, z)
    && z in t.span && IsRed(c, z) && (IsRed(c, t.root) ==> t.root == z)
  }

  lemma PlantedColors(t: Topo, c: Colors, h: Heights, z: Addr)
    requires z != NULL
    ensures Inserting(Planted(t, z), c[z := Red], h[z := 0], z)
  {
  }

  lemma AttachedBalAt(t: Topo, c: Colors, h: Heights, p: Addr, d: Side, z: Addr, n: Addr)
    requires FreeSlot(t, p, d) && z != NULL && z !in t.span && Linked(t, n) && Bal(t, c, h, n)
    ensures Bal(Attached(t, p, d, z), c[z := Red], h[z := 0], n)
  {
  }

  lemma AttachedBal(t: Topo, c: Colors, h: Heights, p: Addr, d: Side, z: Addr)
    requires Shape(t) && Balanced(t, c, h) && FreeSlot(t, p, d) && z != NULL && z !in t.span
    ensures Balanced(Attached(t, p, d, z), c[z := Red], h[z := 0])
  {
    var t', c', h' := Attached(t, p, d, z), c[z := Red], h[z := 0];
    forall n | n in t'.span ensures Bal(t', c', h', n) {
      if n != z {
        assert Linked(t, n);
        AttachedBalAt(t, c, h, p, d, z, n);
      }
    }
  }

  lemma AttachedCalm(t: Topo, c: Colors, p: Addr, d: Side, z: Addr)
    requires Shape(t) && RedFree(t, c, NULL) && FreeSlot(t, p, d) && z != NULL && z !in t.span
    ensures RedFree(Attached(t, p, d, z), c[z := Red], z)
  {
    var t', c' := Attached(t, p, d, z), c[z := Red];
    forall n | n in t'.span ensures Calm(t', c', n, z) {
      if n != z { assert Linked(t, n); }
    }
  }

  lemma AttachedColors(t: Topo, c: Colors, h: Heights, p: Addr, d: Side, z: Addr)
    requires RedBlack(t, c, h) && FreeSlot(t, p, d) && z != NULL && z !in t.span
    ensures Inserting(Attached(t, p, d, z), c[z := Red], h[z := 0], z)
  {
    AttachedShape(t, p, d, z);
    AttachedBal(t, c, h, p, d, z);
    AttachedCalm(t, c, p, d, z);
  }

  lemma GrandparentExists(t: Topo, c: Colors, h: Heights, z: Addr)
    requires Inserting(t, c, h, z) && IsRed(c, Up(t, z))
    ensures var p := Up(t, z); var g := Up(t, p);
      p in t.span && g in t.span && !IsRed(c, g) && z != p && p != g && z != g
  {
    assert Linked(t, z);
    var p := Up(t, z);
    assert Linked(t, p);
    var g := Up(t, p);
    assert Linked(t, g);
  }

  lemma RecoloredBal(t: Topo, c: Colors, h: Heights, p: Addr, g: Addr, u: Addr)
    requires Shape(t) && Balanced(t, c, h) && p in t.span && u in t.span && u != p && p != g && u != g
    requires Up(t, p) == g == Up(t, u) && IsRed(c, p) && IsRed(c, u) && !IsRed(c, g) && g in t.span
    ensures Balanced(t, c[p := Black][u := Black][g := Red], h[p := H(h, p) + 1][u := H(h, u) + 1])
  {
    var c', h' := c[p := Black][u := Black][g := Red], h[p := H(h, p) + 1][u := H(h, u) + 1];
    assert Linked(t, p) && Linked(t, g) && Linked(t, u);
    forall n | n in t.span ensures Bal(t, c', h', n) {
      assert Linked(t, n);
    }
  }

  lemma Recolored(t: Topo, c: Colors, h: Heights, z: Addr, u: Addr)
    requires Inserting(t, c, h, z) && IsRed(c, Up(t, z)) && IsRed(c, u)
    requires var p := Up(t, z); var g := Up(t, p); u != p && (Get(t.left, g) == u || Get(t.right, g) == u)
    ensures var p := Up(t, z); var g := Up(t, p);
      && Inserting(t, c[p := Black][u := Black][g := Red], h[p := H(h, p) + 1][u := H(h, u) + 1], g)
      && t.span[g].hi - t.span[g].lo > t.span[z].hi - t.span[z].lo
  {
    GrandparentExists(t, c, h, z);
    var p := Up(t, z);
    var g := Up(t, p);
    var c' := c[p := Black][u := Black][g := Red];
    assert Linked(t, z) && Linked(t, p) && Linked(t, g) && Linked(t, u);
    RecoloredBal(t, c, h, p, g, u);
    forall n | n in t.span ensures Calm(t, c', n, g) {
      assert Linked(t, n);
    }
  }

  lemma RotatedInner(t: Topo, t': Topo, c: Colors, h: Heights, z: Addr, d: Side)
    requires Inserting(t, c, h, z) && IsRed(c, Up(t, z)) && Shape(t')
    requires Pivoted(t, t', Up(t, z), d) && Kid(t, Up(t, z), Other(d)) == z
    ensures Inserting(t', c, h, Up(t, z))
  {
    GrandparentExists(t, c, h, z);
    var p := Up(t, z);
    assert Linked(t, z) && Linked(t, p);
    forall n | n in t'.span ensures Bal(t', c, h, n) && Calm(t', c, n, p) {
      assert Linked(t, n);
    }
  }

  // A valid tree is a finished insertion.
  lemma Settled(t: Topo, c: Colors, h: Heights, z: Addr)
    requires RedBlack(t, c, h) && z in t.span && IsRed(c, z)
    ensures Inserting(t, c, h, z) && !IsRed(c, Up(t, z))
  {
    assert Linked(t, z);
    if Up(t, z) != NULL { assert Linked(t, Up(t, z)); }
    forall n | n in t.span ensures Calm(t, c, n, z) { assert Linked(t, n); }
  }

  // The last step of the fix-up: the root turns black.
  lemma RootBlackened(t: Topo, c: Colors, h: Heights, z: Addr)
    requires Inserting(t, c, h, z) && !IsRed(c, Up(t, z))
    ensures RedBlack(t, c[t.root := Black], if IsRed(c, t.root) then h[t.root := H(h, t.root) + 1] else h)
  {
    var c', h' := c[t.root := Black], if IsRed(c, t.root) then h[t.root := H(h, t.root) + 1] else h;
    assert Linked(t, z) && Linked(t, t.root);
    forall n | n in t.span ensures Bal(t, c', h', n) && Calm(t, c', n, NULL) {
      assert Linked(t, n);
    }
  }

  ghost predicate OuterCase(t: Topo, t': Topo, c: Colors, z: Addr, d: Side, p: Addr, g: Addr) {
    && p == Up(t, z) && g == Up(t, p) && z in t.span && p in t.span && g in t.span && z != p && p != g && z != g
    && Kid(t, g, Other(d)) == p && Kid(t, p, Other(d)) == z
    && IsRed(c, z) && IsRed(c, p) && !IsRed(c, g) && !IsRed(c, Kid(t, g, d))
    && Shape(t) && Pivoted(t, t', g, d)
  }

  lemma OuterBalAt(t: Topo, t': Topo, c: Colors, h: Heights, d: Side, p: Addr, g: Addr, n: Addr)
    requires Linked(t, p) && Linked(t, g) && Linked(t, n) && p == Kid(t, g, Other(d)) && n != p && n != g
    requires Pivoted(t, t', g, d) && Bal(t, c, h, n)
    ensures Bal(t', c[p := Black][g := Red], h[p := H(h, g)][g := H(h, g) - 1], n)
  {
    assert Elsewhere(t, t', g, p, n);
    assert p !in {Get(t.left, n), Get(t.right, n)};
  }

  lemma OuterBal(t: Topo, t': Topo, c: Colors, h: Heights, z: Addr, d: Side, p: Addr, g: Addr)
    requires OuterCase(t, t', c, z, d, p, g) && Balanced(t, c, h)
    ensures Balanced(t', c[p := Black][g := Red], h[p := H(h, g)][g := H(h, g) - 1])
  {
    var c', h' := c[p := Black][g := Red], h[p := H(h, g)][g := H(h, g) - 1];
    assert Linked(t, z) && Linked(t, p) && Linked(t, g);
    forall n | n in t'.span ensures Bal(t', c', h', n) {
      assert Linked(t, n);
      if n != p && n != g { OuterBalAt(t, t', c, h, d, p, g, n); }
    }
  }

  lemma OuterCalm(t: Topo, t': Topo, c: Colors, z: Addr, d: Side, p: Addr, g: Addr)
    requires OuterCase(t, t', c, z, d, p, g) && RedFree(t, c, z)
    ensures RedFree(t', c[p := Black][g := Red], NULL)
  {
    var c' := c[p := Black][g := Red];
    assert Linked(t, z) && Linked(t, p) && Linked(t, g);
    forall n | n in t'.span ensures Calm(t', c', n, NULL) {
      assert Linked(t, n);
    }
  }

  lemma RotatedOuter(t: Topo, t': Topo, c: Colors, h: Heights, z: Addr, d: Side, p: Addr, g: Addr)
    requires Inserting(t, c, h, z) && Shape(t') && OuterCase(t, t', c, z, d, p, g)
    ensures RedBlack(t', c[p := Black][g := Red], h[p := H(h, g)][g := H(h, g) - 1])
  {
    OuterBal(t, t', c, h, z, d, p, g);
    OuterCalm(t, t', c, z, d, p, g);
    assert Linked(t, g) && Linked(t, p);
  }

  // ---------- Removal ----------

  // The subtree `x` hanging on side `d` of `p` is one black node short; everything else is balanced.
  // A null `p` means that nothing is short and `x` is the root. A red `x` is about to turn black.
  ghost predicate Removing(t: Topo, c: Colors, h: Heights, x: Addr, p: Addr, d: Side) {
    && Shape(t)
    && BalancedBut(t, c, h, p) && CalmBut(t, c, x)
    && (IsRed(c, t.root) ==> t.root == x)
    && (if p == NULL then x == t.root else p in t.span && Short(t, c, h, x, p, d))
  }

  ghost predicate BalancedBut(t: Topo, c: Colors, h: Heights, p: Addr) {
    forall n {:trigger Linked(t, n)} {:trigger Bal(t, c, h, n)} :: n in t.span && n != p ==> Bal(t, c, h, n)
  }

  ghost predicate CalmBut(t: Topo, c: Colors, x: Addr) {
    forall n {:trigger Linked(t, n)} {:trigger Calm(t, c, n, x)} :: n in t.span && n != x ==> Calm(t, c, n, x)
  }

  ghost predicate Short(t: Topo, c: Colors, h: Heights, x: Addr, p: Addr, d: Side) {
    && Kid(t, p, d) == x
    && H(h, x) + 1 == H(h, Kid(t, p, Other(d)))
    && H(h, p) == H(h, x) + (if IsRed(c, p) then 1 else 2)
  }

  ghost function SideOf(t: Topo, n: Addr): Side { if Get(t.left, Up(t, n)) == n then Left else Right }

  // A short subtree has a sibling, so the fix-up never dereferences null.
  lemma SiblingExists(t: Topo, c: Colors, h: Heights, x: Addr, p: Addr, d: Side)
    requires Removing(t, c, h, x, p, d) && p != NULL
    ensures var w := Kid(t, p, Other(d)); w in t.span && w != p && w != x && Up(t, w) == p && 0 <= H(h, x)
    ensures x != NULL ==> x in t.span && Up(t, x) == p
    ensures x != t.root
  {
    assert Linked(t, p);
    if x != NULL { assert Linked(t, x); }
    var w := Kid(t, p, Other(d));
    if w != NULL { assert Linked(t, w); }
  }

  // The sibling `w` of a short `x` is red.
  ghost predicate RedCase(t: Topo, t': Topo, c: Colors, h: Heights, x: Addr, p: Addr, d: Side, w: Addr) {
    && Shape(t) && p in t.span && p != NULL && Short(t, c, h, x, p, d) && 0 <= H(h, x) && !IsRed(c, x)
    && w == Kid(t, p, Other(d)) && w in t.span && w != p && w != x && IsRed(c, w) && Pivoted(t, t', p, d)
  }

  lemma RedSiblingBalAt(t: Topo, t': Topo, c: Colors, h: Heights, x: Addr, p: Addr, d: Side, w: Addr, n: Addr)
    requires w == Kid(t, p, Other(d)) && w != NULL && Short(t, c, h, x, p, d)
    requires Linked(t, p) && Linked(t, w) && Linked(t, n) && n != p && Bal(t, c, h, n) && Bal(t, c, h, w)
    requires IsRed(c, w) && !IsRed(c, p) && Pivoted(t, t', p, d)
    ensures Bal(t', c[w := Black][p := Red], h[w := H(h, p)][p := H(h, p) - 1], n)
  {
    if n != w {
      assert Elsewhere(t, t', p, w, n);
      assert w !in {Get(t.left, n), Get(t.right, n)};
    }
  }

  lemma RedSiblingBal(t: Topo, t': Topo, c: Colors, h: Heights, x: Addr, p: Addr, d: Side, w: Addr)
    requires RedCase(t, t', c, h, x, p, d, w) && BalancedBut(t, c, h, p) && !IsRed(c, p)
    ensures var c', h' := c[w := Black][p := Red], h[w := H(h, p)][p := H(h, p) - 1];
      BalancedBut(t', c', h', p) && Short(t', c', h', x, p, d)
  {
    var c', h' := c[w := Black][p := Red], h[w := H(h, p)][p := H(h, p) - 1];
    assert Linked(t, p) && Linked(t, w);
    forall n | n in t'.span && n != p ensures Bal(t', c', h', n) {
      assert Linked(t, n);
      RedSiblingBalAt(t, t', c, h, x, p, d, w, n);
    }
  }

  lemma RedSiblingCalm(t: Topo, t': Topo, c: Colors, h: Heights, x: Addr, p: Addr, d: Side, w: Addr)
    requires RedCase(t, t', c, h, x, p, d, w) && CalmBut(t, c, x)
    ensures CalmBut(t', c[w := Black][p := Red], x)
  {
    var c' := c[w := Black][p := Red];
    assert Linked(t, p) && Linked(t, w);
    forall n | n in t'.span && n != x ensures Calm(t', c', n, x) { assert Linked(t, n); }
  }

  lemma RedSibling(t: Topo, t': Topo, c: Colors, h: Heights, x: Addr, p: Addr, d: Side)
    requires Removing(t, c, h, x, p, d) && p != NULL && !IsRed(c, x) && Shape(t')
    requires IsRed(c, Kid(t, p, Other(d))) && Pivoted(t, t', p, d)
    ensures var w := Kid(t, p, Other(d));
      && Removing(t', c[w := Black][p := Red], h[w := H(h, p)][p := H(h, p) - 1], x, p, d)
      && !IsRed(c[w := Black][p := Red], Kid(t', p, Other(d))) && IsRed(c[w := Black][p := Red], p)
  {
    SiblingExists(t, c, h, x, p, d);
    var w := Kid(t, p, Other(d));
    assert Calm(t, c, p, x);
    RedSiblingBal(t, t', c, h, x, p, d, w);
    RedSiblingCalm(t, t', c, h, x, p, d, w);
    assert Linked(t, p) && Linked(t, w);
  }

  lemma BlackNephewsBalAt(t: Topo, c: Colors, h: Heights, x: Addr, p: Addr, d: Side, w: Addr, n: Addr)
    requires Linked(t, p) && Linked(t, w) && Linked(t, n) && n != Up(t, p) && (n == p || Bal(t, c, h, n))
    requires Short(t, c, h, x, p, d) && 0 <= H(h, x)
    requires w == Kid(t, p, Other(d)) && w != NULL && w != x && !IsRed(c, w)
    ensures Bal(t, c[w := Red], h[w := H(h, w) - 1][p := H(h, p) - 1], n)
  {
    if n != p {
      assert {w, p} !! {Get(t.left, n), Get(t.right, n)};
    }
  }

  lemma BlackNephewsBal(t: Topo, c: Colors, h: Heights, x: Addr, p: Addr, d: Side, w: Addr)
    requires Shape(t) && BalancedBut(t, c, h, p) && p in t.span && Short(t, c, h, x, p, d)
    requires w == Kid(t, p, Other(d)) && w in t.span && w != x && !IsRed(c, w) && 0 <= H(h, x)
    ensures BalancedBut(t, c[w := Red], h[w := H(h, w) - 1][p := H(h, p) - 1], Up(t, p))
  {
    var c', h' := c[w := Red], h[w := H(h, w) - 1][p := H(h, p) - 1];
    assert Linked(t, p) && Linked(t, w);
    forall n | n in t.span && n != Up(t, p) ensures Bal(t, c', h', n) {
      assert Linked(t, n);
      BlackNephewsBalAt(t, c, h, x, p, d, w, n);
    }
  }

  lemma BlackNephewsShort(t: Topo, c: Colors, h: Heights, p: Addr, d: Side, w: Addr, g: Addr)
    requires Linked(t, g) && Linked(t, p) && g == Up(t, p) && Bal(t, c, h, g)
    requires w == Kid(t, p, Other(d)) && w != NULL && Linked(t, w)
    ensures Short(t, c[w := Red], h[w := H(h, w) - 1][p := H(h, p) - 1], p, g, SideOf(t, p))
  {
    assert w != g && w !in {Get(t.left, g), Get(t.right, g)};
  }

  lemma BlackNephewsCalm(t: Topo, c: Colors, x: Addr, p: Addr, w: Addr)
    requires Shape(t) && CalmBut(t, c, x) && p in t.span && w in t.span && Up(t, w) == p && w != x && !IsRed(c, x)
    requires !IsRed(c, Get(t.left, w)) && !IsRed(c, Get(t.right, w))
    ensures CalmBut(t, c[w := Red], p)
  {
    assert Linked(t, w);
    forall n | n in t.span && n != p ensures Calm(t, c[w := Red], n, p) { assert Linked(t, n); }
  }

  lemma BlackNephews(t: Topo, c: Colors, h: Heights, x: Addr, p: Addr, d: Side, w: Addr)
    requires Removing(t, c, h, x, p, d) && p != NULL && !IsRed(c, x) && w == Kid(t, p, Other(d))
    requires !IsRed(c, w) && !IsRed(c, Get(t.left, w)) && !IsRed(c, Get(t.right, w))
    ensures Removing(t, c[w := Red], h[w := H(h, w) - 1][p := H(h, p) - 1], p, Up(t, p), SideOf(t, p))
  {
    SiblingExists(t, c, h, x, p, d);
    BlackNephewsBal(t, c, h, x, p, d, w);
    BlackNephewsCalm(t, c, x, p, w);
    assert Linked(t, p) && Linked(t, w);
    if Up(t, p) != NULL {
      assert Linked(t, Up(t, p));
      BlackNephewsShort(t, c, h, p, d, w, Up(t, p));
    }
  }

  // Preconditions of the two rotations around the sibling `w` of a short `x`.
  ghost predicate NearCase(t: Topo, t': Topo, c: Colors, h: Heights, x: Addr, p: Addr, d: Side, w: Addr, l: Addr) {
    && w == Kid(t, p, Other(d)) && l == Kid(t, w, d) && w != NULL && p != NULL && x != w && x != l
    && Shape(t) && p in t.span && Short(t, c, h, x, p, d)
    && !IsRed(c, w) && IsRed(c, l) && !IsRed(c, Kid(t, w, Other(d)))
    && Pivoted(t, t', w, Other(d))
  }

  lemma NearNephewBalAt(t: Topo, t': Topo, c: Colors, h: Heights, x: Addr, p: Addr, d: Side, w: Addr, l: Addr, n: Addr)
    requires w == Kid(t, p, Other(d)) && l == Kid(t, w, d) && w != NULL && l != NULL
    requires Linked(t, p) && Linked(t, w) && Linked(t, l) && Linked(t, n) && n != p
    requires Bal(t, c, h, n) && Bal(t, c, h, w) && Bal(t, c, h, l)
    requires !IsRed(c, w) && IsRed(c, l) && Pivoted(t, t', w, Other(d))
    ensures Bal(t', c[l := Black][w := Red], h[l := H(h, w)][w := H(h, w) - 1], n)
  {
    if n != w && n != l {
      assert Elsewhere(t, t', w, l, n);
      assert {w, l} !! {Get(t.left, n), Get(t.right, n)};
    }
  }

  lemma NearNephewBal(t: Topo, t': Topo, c: Colors, h: Heights, x: Addr, p: Addr, d: Side, w: Addr, l: Addr)
    requires NearCase(t, t', c, h, x, p, d, w, l) && BalancedBut(t, c, h, p)
    ensures var c', h' := c[l := Black][w := Red], h[l := H(h, w)][w := H(h, w) - 1];
      BalancedBut(t', c', h', p) && Short(t', c', h', x, p, d)
  {
    var c', h' := c[l := Black][w := Red], h[l := H(h, w)][w := H(h, w) - 1];
    assert Linked(t, p) && Linked(t, w) && Linked(t, l);
    forall n | n in t'.span && n != p ensures Bal(t', c', h', n) {
      assert Linked(t, n);
      NearNephewBalAt(t, t', c, h, x, p, d, w, l, n);
    }
  }

  lemma NearNephewCalmAt(t: Topo, t': Topo, c: Colors, x: Addr, w: Addr, d: Side, l: Addr, n: Addr)
    requires w != NULL && l != NULL && l == Kid(t, w, d) && Linked(t, w) && Linked(t, l) && Linked(t, n)
    requires !IsRed(c, Kid(t, w, Other(d))) && IsRed(c, l) && !IsRed(c, w) && Pivoted(t, t', w, Other(d)) && x != w
    requires x != l && n != x && Calm(t, c, l, x) && Calm(t, c, n, x)
    ensures Calm(t', c[l := Black][w := Red], n, x)
  {
    if n != w && n != l {
      assert Elsewhere(t, t', w, l, n);
    }
  }

  lemma NearNephewCalm(t: Topo, t': Topo, c: Colors, h: Heights, x: Addr, p: Addr, d: Side, w: Addr, l: Addr)
    requires NearCase(t, t', c, h, x, p, d, w, l) && CalmBut(t, c, x)
    ensures CalmBut(t', c[l := Black][w := Red], x)
  {
    var c' := c[l := Black][w := Red];
    assert Linked(t, p) && Linked(t, w) && Linked(t, l);
    forall n | n in t'.span && n != x ensures Calm(t', c', n, x) {
      assert Linked(t, n);
      NearNephewCalmAt(t, t', c, x, w, d, l, n);
    }
  }

  lemma NearNephewRed(t: Topo, t': Topo, c: Colors, h: Heights, x: Addr, p: Addr, d: Side, w: Addr, l: Addr)
    requires Removing(t, c, h, x, p, d) && Shape(t') && NearCase(t, t', c, h, x, p, d, w, l)
    ensures var c' := c[l := Black][w := Red];
      && Removing(t', c', h[l := H(h, w)][w := H(h, w) - 1], x, p, d)
      && Kid(t', p, Other(d)) == l && !IsRed(c', l) && IsRed(c', Kid(t', l, Other(d))) && (IsRed(c', x) ==> IsRed(c, x))
  {
    assert Linked(t, p) && Linked(t, w) && Linked(t, l);
    NearNephewBal(t, t', c, h, x, p, d, w, l);
    NearNephewCalm(t, t', c, h, x, p, d, w, l);
  }

  ghost predicate FarCase(t: Topo, t': Topo, c: Colors, h: Heights, x: Addr, p: Addr, d: Side, w: Addr, r: Addr) {
    && w == Kid(t, p, Other(d)) && r == Kid(t, w, Other(d)) && w != NULL && p != NULL && x != w
    && Shape(t) && p in t.span && p in c && Short(t, c, h, x, p, d)
    && !IsRed(c, x) && !IsRed(c, w) && IsRed(c, r)
    && Pivoted(t, t', p, d)
  }

  lemma FarNephewBalTop(t: Topo, t': Topo, c: Colors, h: Heights, x: Addr, p: Addr, d: Side, w: Addr, r: Addr)
    requires w == Kid(t, p, Other(d)) && r == Kid(t, w, Other(d)) && w != NULL && r != NULL && w != x
    requires Linked(t, p) && Linked(t, w) && Linked(t, r) && Bal(t, c, h, w)
    requires p in c && Short(t, c, h, x, p, d) && 0 <= H(h, x) && (x != NULL ==> Linked(t, x))
    requires !IsRed(c, w) && IsRed(c, r) && Pivoted(t, t', p, d)
    ensures var c', h' := c[w := c[p]][p := Black][r := Black], h[w := H(h, p)][p := H(h, w)][r := H(h, r) + 1];
      Bal(t', c', h', p) && Bal(t', c', h', w)
  {
  }

  lemma FarNephewBalAt(t: Topo, t': Topo, c: Colors, h: Heights, p: Addr, d: Side, w: Addr, r: Addr, n: Addr)
    requires w == Kid(t, p, Other(d)) && r == Kid(t, w, Other(d)) && w != NULL && r != NULL && n != p && n != w
    requires Linked(t, p) && Linked(t, w) && Linked(t, r) && Linked(t, n) && Bal(t, c, h, n)
    requires p in c && IsRed(c, r) && Pivoted(t, t', p, d)
    ensures Bal(t', c[w := c[p]][p := Black][r := Black], h[w := H(h, p)][p := H(h, w)][r := H(h, r) + 1], n)
  {
    assert Elsewhere(t, t', p, w, n);
    assert {w, r} !! {Get(t.left, n), Get(t.right, n)};
  }

  lemma FarNephewBal(t: Topo, t': Topo, c: Colors, h: Heights, x: Addr, p: Addr, d: Side, w: Addr, r: Addr)
    requires FarCase(t, t', c, h, x, p, d, w, r) && BalancedBut(t, c, h, p)
    ensures Balanced(t', c[w := c[p]][p := Black][r := Black], h[w := H(h, p)][p := H(h, w)][r := H(h, r) + 1])
  {
    var c', h' := c[w := c[p]][p := Black][r := Black], h[w := H(h, p)][p := H(h, w)][r := H(h, r) + 1];
    assert Linked(t, p) && Linked(t, w) && Linked(t, r);
    if x != NULL { assert Linked(t, x); }
    FarNephewBalTop(t, t', c, h, x, p, d, w, r);
    forall n | n in t'.span ensures Bal(t', c', h', n) {
      assert Linked(t, n);
      if n != p && n != w { FarNephewBalAt(t, t', c, h, p, d, w, r, n); }
    }
  }

  lemma FarNephewCalm(t: Topo, t': Topo, c: Colors, h: Heights, x: Addr, p: Addr, d: Side, w: Addr, r: Addr)
    requires FarCase(t, t', c, h, x, p, d, w, r) && CalmBut(t, c, x)
    ensures RedFree(t', c[w := c[p]][p := Black][r := Black], NULL)
  {
    var c' := c[w := c[p]][p := Black][r := Black];
    assert Linked(t, p) && Linked(t, w) && Linked(t, r);
    if x != NULL { assert Linked(t, x); }
    forall n | n in t'.span ensures Calm(t', c', n, NULL) {
      assert Linked(t, n);
    }
  }

  lemma FarNephewRed(t: Topo, t': Topo, c: Colors, h: Heights, x: Addr, p: Addr, d: Side, w: Addr, r: Addr)
    requires Removing(t, c, h, x, p, d) && Shape(t') && FarCase(t, t', c, h, x, p, d, w, r)
    ensures RedBlack(t', c[w := c[p]][p := Black][r := Black], h[w := H(h, p)][p := H(h, w)][r := H(h, r) + 1])
  {
    assert Linked(t, p) && Linked(t, w) && Linked(t, r);
    FarNephewBal(t, t', c, h, x, p, d, w, r);
    FarNephewCalm(t, t', c, h, x, p, d, w, r);
  }

  // The last step of the fix-up: `x` turns black.
  lemma BlackenedBalAt(t: Topo, c: Colors, h: Heights, x: Addr, p: Addr, d: Side, n: Addr)
    requires Linked(t, x) && Linked(t, n) && x != NULL && (n != p ==> Bal(t, c, h, n))
    requires p != NULL ==> Linked(t, p) && Short(t, c, h, x, p, d) && Up(t, x) == p && IsRed(c, x) && 0 <= H(h, x)
    requires p == NULL ==> x == t.root && Up(t, x) == NULL
    ensures Bal(t, c[x := Black], if IsRed(c, x) then h[x := H(h, x) + 1] else h, n)
  {
  }

  lemma BlackenedCalm(t: Topo, c: Colors, x: Addr)
    requires Shape(t) && CalmBut(t, c, x) && x != NULL
    ensures RedFree(t, c[x := Black], NULL)
  {
    forall n | n in t.span ensures Calm(t, c[x := Black], n, NULL) { assert Linked(t, n); }
  }

  lemma Blackened(t: Topo, c: Colors, h: Heights, x: Addr, p: Addr, d: Side)
    requires Removing(t, c, h, x, p, d) && (x == t.root || IsRed(c, x))
    ensures x == NULL ==> RedBlack(t, c, h)
    ensures x != NULL ==> RedBlack(t, c[x := Black], if IsRed(c, x) then h[x := H(h, x) + 1] else h)
  {
    if p != NULL { SiblingExists(t, c, h, x, p, d); }
    if x == NULL {
      Empty(t);
    } else {
      assert Linked(t, x);
      if p != NULL { assert Linked(t, p); }
      BlackenedCalm(t, c, x);
      forall n | n in t.span ensures Bal(t, c[x := Black], if IsRed(c, x) then h[x := H(h, x) + 1] else h, n) {
        assert Linked(t, n);
        BlackenedBalAt(t, c, h, x, p, d, n);
      }
    }
  }

  // Splicing out a red node keeps every balance; splicing out a black one leaves its child short.
  lemma SplicedBal(t: Topo, c: Colors, h: Heights, n: Addr)
    requires Shape(t) && Balanced(t, c, h) && CanSplice(t, n)
    ensures BalancedBut(Spliced(t, n), c, h, if IsRed(c, n) then NULL else Up(t, n))
    ensures !IsRed(c, n) && Up(t, n) != NULL ==> Short(Spliced(t, n), c, h, OnlyKid(t, n), Up(t, n), SideOf(t, n))
  {
    var t', p := Spliced(t, n), Up(t, n);
    assert Linked(t, n) && (p != NULL ==> Linked(t, p));
    forall m | m in t'.span && (m != p || IsRed(c, n)) ensures Bal(t', c, h, m) {
      assert Linked(t, m);
    }
  }

  lemma SplicedCalm(t: Topo, c: Colors, n: Addr)
    requires Shape(t) && RedFree(t, c, NULL) && CanSplice(t, n)
    ensures var x := OnlyKid(t, n);
      CalmBut(Spliced(t, n), c, x) && (IsRed(c, n) ==> RedFree(Spliced(t, n), c, NULL))
  {
    var t' := Spliced(t, n);
    assert Linked(t, n);
    forall m | m in t'.span ensures Calm(t', c, m, if IsRed(c, n) then NULL else OnlyKid(t, n)) {
      assert Linked(t, m);
    }
  }

  lemma SplicedColors(t: Topo, c: Colors, h: Heights, n: Addr)
    requires RedBlack(t, c, h) && CanSplice(t, n)
    ensures IsRed(c, n) ==> RedBlack(Spliced(t, n), c, h)
    ensures !IsRed(c, n) ==> Removing(Spliced(t, n), c, h, OnlyKid(t, n), Up(t, n), SideOf(t, n))
  {
    SplicedShape(t, n);
    SplicedBal(t, c, h, n);
    SplicedCalm(t, c, n);
    assert Linked(t, n);
    forall m | m in Spliced(t, n).span ensures m != NULL { assert Linked(t, m); }
  }

  // `y` takes the place, the colour and the height of `n`.
  lemma ReplacedBal(t: Topo, c: Colors, h: Heights, n: Addr, y: Addr, p: Addr)
    requires Shape(t) && BalancedBut(t, c, h, p) && CanReplace(t, n, y) && n in c
    ensures BalancedBut(Replaced(t, n, y), c[y := c[n]], h[y := H(h, n)], if p == n then y else p)
  {
    var t', c', h', p' := Replaced(t, n, y), c[y := c[n]], h[y := H(h, n)], if p == n then y else p;
    assert Linked(t, n);
    forall m | m in t'.span && m != p' ensures Bal(t', c', h', m) {
      if m != y { assert Linked(t, m); }
    }
  }

  lemma ReplacedCalm(t: Topo, c: Colors, n: Addr, y: Addr, x: Addr)
    requires Shape(t) && CalmBut(t, c, x) && CanReplace(t, n, y) && x != n && n in c
    ensures CalmBut(Replaced(t, n, y), c[y := c[n]], x)
  {
    var t', c' := Replaced(t, n, y), c[y := c[n]];
    assert Linked(t, n);
    forall m | m in t'.span && m != x ensures Calm(t', c', m, x) {
      if m != y { assert Linked(t, m); }
    }
  }

  // The short child keeps its side, also when `y` becomes its parent.
  lemma ReplacedShort(t: Topo, c: Colors, h: Heights, n: Addr, y: Addr, x: Addr, p: Addr, d: Side)
    requires CanReplace(t, n, y) && n in c && Linked(t, p) && p != NULL && Short(t, c, h, x, p, d) && x != n
    requires Kid(t, p, Other(d)) != x && (x != NULL ==> x in t.span) && Kid(t, p, Other(d)) in t.span
    ensures Short(Replaced(t, n, y), c[y := c[n]], h[y := H(h, n)], x, if p == n then y else p, d)
  {
  }

  lemma ReplacedColors(t: Topo, c: Colors, h: Heights, n: Addr, y: Addr, x: Addr, p: Addr, d: Side)
    requires Removing(t, c, h, x, p, d) && CanReplace(t, n, y) && x != n && n in c
    ensures Removing(Replaced(t, n, y), c[y := c[n]], h[y := H(h, n)], x, if p == n then y else p, d)
  {
    ReplacedShape(t, n, y);
    ReplacedBal(t, c, h, n, y, p);
    ReplacedCalm(t, c, n, y, x);
    assert Linked(t, n);
    if p != NULL {
      SiblingExists(t, c, h, x, p, d);
      assert Linked(t, p);
      ReplacedShort(t, c, h, n, y, x, p, d);
    }
  }

  lemma AgreeBal(t: Topo, t': Topo, c: Colors, h: Heights, p: Addr)
    requires Agree(t, t') && Shape(t) && BalancedBut(t, c, h, p)
    ensures BalancedBut(t', c, h, p)
  {
    forall n | n in t'.span && n != p ensures Bal(t', c, h, n) { assert Linked(t, n); }
  }

  lemma AgreeCalm(t: Topo, t': Topo, c: Colors, x: Addr)
    requires Agree(t, t') && Shape(t) && CalmBut(t, c, x)
    ensures CalmBut(t', c, x)
  {
    forall n | n in t'.span && n != x ensures Calm(t', c, n, x) { assert Linked(t, n); }
  }

  lemma AgreeColors(t: Topo, t': Topo, c: Colors, h: Heights, x: Addr, p: Addr, d: Side)
    requires Agree(t, t') && Removing(t, c, h, x, p, d)
    ensures Removing(t', c, h, x, p, d)
  {
    AgreeShape(t, t');
    AgreeBal(t, t', c, h, p);
    AgreeCalm(t, t', c, x);
    if p != NULL { assert Linked(t, p); }
  }

  lemma AgreeRedBlack(t: Topo, t': Topo, c: Colors, h: Heights)
    requires Agree(t, t') && RedBlack(t, c, h)
    ensures RedBlack(t', c, h)
  {
    AgreeShape(t, t');
    forall n | n in t'.span ensures Bal(t', c, h, n) && Calm(t', c, n, NULL) {
      assert Linked(t, n);
    }
  }

  // Nothing is short in a valid tree.
  lemma NothingShort(t: Topo, c: Colors, h: Heights, d: Side)
    requires RedBlack(t, c, h)
    ensures Removing(t, c, h, t.root, NULL, d)
  {
    forall n | n in t.span ensures Calm(t, c, n, t.root) {
      assert Linked(t, n);
    }
  }

  // Which side is short can be read off the links, even when `x` is null.
  lemma ShortSide(t: Topo, c: Colors, h: Heights, x: Addr, p: Addr, d: Side)
    requires Removing(t, c, h, x, p, d) && p != NULL
    ensures d == if Get(t.left, p) == x then Left else Right
  {
  }
}
