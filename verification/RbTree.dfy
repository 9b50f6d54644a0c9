/** The intrusive red-black tree of src/rbtree.rs.

    A tree owns the link fields of the entities linked into it, indexed by entity
    address. `nodes` is the abstract value: the linked entities in ascending
    (key, address) order. */
module RbTrees {
  import opened KeyOrder
  import opened Topology
  import opened Coloring
  import TreeHeight

  type Keys = map<Addr, int>

  function KeyAt(key: Keys, n: Addr): int { if n in key then key[n] else 0 }

  ghost predicate Sorted(nodes: seq<Addr>, key: Keys) {
    forall i, j :: 0 <= i < j < |nodes| ==> Less(KeyAt(key, nodes[i]), nodes[i], KeyAt(key, nodes[j]), nodes[j])
  }

  // The entity at position `i` of the order, or null past its end.
  ghost function Nth(nodes: seq<Addr>, i: nat): Addr { if i < |nodes| then nodes[i] else NULL }

  class RbTree {
    var root: Addr
    var len: nat
    var parent: Field
    var left: Field
    var right: Field
    var color: Colors
    var key: Keys
    ghost var nodes: seq<Addr>
    ghost var span: map<Addr, Span>
    ghost var height: Heights

    ghost function T(): Topo
      reads this
    { Topo(root, parent, left, right, nodes, span) }

    ghost predicate Valid()
      reads this
    {
      && RedBlack(T(), color, height) && Sorted(nodes, key) && len == |nodes|
      && forall n :: n in span ==> n in color && n in key
    }

    constructor ()
      ensures Valid() && nodes == []
    {
      root, len, parent, left, right, color, key := NULL, 0, map[], map[], map[], map[], map[];
      nodes, span, height := [], map[], map[];
    }

    function KidOf(n: Addr, d: Side): Addr
      reads this
    { if d.Left? then Get(left, n) else Get(right, n) }

    // `turns` counts the turns of a descent loop: no more than the height of the tree it starts in.
    method Minimum(node: Addr) returns (m: Addr, ghost turns: nat)
      requires Shape(T()) && (node != NULL ==> node in span)
      ensures turns <= TreeHeight.Height(T(), node)
      ensures node == NULL ==> m == NULL
      ensures node != NULL ==> m in span && Get(left, m) == NULL && span[m].pos == span[m].lo == span[node].lo
    {
      m, turns := node, 0;
      while m != NULL && Get(left, m) != NULL
        invariant node == NULL ==> m == NULL
        invariant node != NULL ==> m in span && span[m].lo == span[node].lo
        invariant turns + TreeHeight.Height(T(), m) <= TreeHeight.Height(T(), node)
        decreases if m in span then span[m].hi else 0
      {
        assert Linked(T(), m);
        TreeHeight.KidsLower(T(), m);
        m, turns := Get(left, m), turns + 1;
        assert Linked(T(), m);
      }
      if m != NULL { assert Linked(T(), m); }
    }

    method First() returns (m: Addr)
      requires Valid()
      ensures m == Nth(nodes, 0)
    {
      ghost var turns;
      m, turns := Minimum(root);
      if root != NULL { assert Linked(T(), m) && Linked(T(), root); }
    }

    // The in-order successor of a linked entity.
    method Next(e: Addr) returns (m: Addr)
      requires Valid() && (e == NULL || e in nodes)
      ensures e == NULL ==> m == NULL
      ensures forall i :: 0 <= i < |nodes| && nodes[i] == e ==> m == Nth(nodes, i + 1)
    {
      if e == NULL {
        NoNullNode();
        return NULL;
      }
      var node := e;
      assert Linked(T(), node);
      if Get(right, node) != NULL {
        ghost var turns;
        m, turns := Minimum(Get(right, node));
        assert Linked(T(), m);
        return m;
      }
      m := Get(parent, node);
      while m != NULL && node == Get(right, m)
        invariant node in span && m == Get(parent, node) && span[node].hi == span[e].pos + 1
        decreases |nodes| - (span[node].hi - span[node].lo)
      {
        assert Linked(T(), node) && Linked(T(), m);
        node := m;
        m := Get(parent, m);
        assert Linked(T(), node);
      }
      assert Linked(T(), node);
      if m != NULL { assert Linked(T(), m); }
    }

    // The first entity ordered strictly after (k, e), whether or not that entity is linked here.
    method UpperBound(k: int, e: Addr) returns (m: Addr, ghost turns: nat)
      requires Valid()
      ensures turns <= TreeHeight.Height(T(), root)
      ensures m != NULL ==> m in nodes && Less(k, e, KeyAt(key, m), m)
      ensures forall n :: n in nodes && Less(k, e, KeyAt(key, n), n) ==>
        m != NULL && (n == m || Less(KeyAt(key, m), m, KeyAt(key, n), n))
    {
      var current := root;
      m, turns := NULL, 0;
      ghost var lo, j: nat := 0, |nodes|;
      while current != NULL
        invariant 0 <= lo <= j <= |nodes|
        invariant current == NULL ==> lo == j
        invariant current != NULL ==> current in span && span[current].lo == lo && span[current].hi == j
        invariant m == Nth(nodes, j)
        invariant forall i :: 0 <= i < lo ==> !Less(k, e, KeyAt(key, nodes[i]), nodes[i])
        invariant forall i :: j <= i < |nodes| ==> Less(k, e, KeyAt(key, nodes[i]), nodes[i])
        invariant turns + TreeHeight.Height(T(), current) <= TreeHeight.Height(T(), root)
        decreases j - lo
      {
        assert Linked(T(), current);
        TreeHeight.KidsLower(T(), current);
        turns := turns + 1;
        if Less(k, e, KeyAt(key, current), current) {
          m, j := current, span[current].pos;
          current := Get(left, current);
        } else {
          lo := span[current].pos + 1;
          current := Get(right, current);
        }
        if current != NULL { assert Linked(T(), current); }
      }
      NoNullNode();
      UpperLeast(nodes, key, k, e, j);
    }

    lemma NoNullNode()
      requires Shape(T())
      ensures NULL !in nodes
    {
      assert NULL in span ==> Linked(T(), NULL);
    }

    method Contains(e: Addr) returns (found: bool)
      requires Valid()
      ensures found <==> e in nodes
    {
      NoNullNode();
      var current := First();
      ghost var i := 0;
      while current != NULL
        invariant 0 <= i <= |nodes| && e !in nodes[..i]
        invariant if current == NULL then i == |nodes| else i < |nodes| && current == nodes[i]
        decreases |nodes| - i
      {
        if current == e { return true; }
        assert nodes[..i + 1] == nodes[..i] + [nodes[i]] && nodes[i] == current;
        current := Next(current);
        assert i + 1 < |nodes| ==> nodes[i + 1] in nodes;
        i := i + 1;
      }
      return false;
    }

    // ---------- Rotations ----------

    method LeftRotate(x: Addr)
      requires CanRotateLeft(T(), x)
      modifies this`root, this`parent, this`left, this`right, this`span
      ensures T() == RotatedLeft(old(T()), x)
    {
      var y := Get(right, x);
      right := right[x := Get(left, y)];
      if Get(left, y) != NULL {
        parent := parent[Get(left, y) := x];
      }
      parent := parent[y := Get(parent, x)];
      if Get(parent, x) == NULL {
        root := y;
      } else if x == Get(left, Get(parent, x)) {
        left := left[Get(parent, x) := y];
      } else {
        right := right[Get(parent, x) := y];
      }
      left := left[y := x];
      parent := parent[x := y];
      span := span[x := span[x].(hi := span[y].pos)][y := span[y].(lo := span[x].lo, hi := span[x].hi)];
    }

    method RightRotate(y: Addr)
      requires CanRotateRight(T(), y)
      modifies this`root, this`parent, this`left, this`right, this`span
      ensures T() == RotatedRight(old(T()), y)
    {
      var x := Get(left, y);
      left := left[y := Get(right, x)];
      if Get(right, x) != NULL {
        parent := parent[Get(right, x) := y];
      }
      parent := parent[x := Get(parent, y)];
      if Get(parent, y) == NULL {
        root := x;
      } else if y == Get(right, Get(parent, y)) {
        right := right[Get(parent, y) := x];
      } else {
        left := left[Get(parent, y) := x];
      }
      right := right[x := y];
      parent := parent[y := x];
      span := span[y := span[y].(lo := span[x].pos + 1)][x := span[x].(lo := span[y].lo, hi := span[y].hi)];
    }

    // The rotation of `x` towards side `d`.
    method Rotate(x: Addr, d: Side)
      requires Shape(T()) && x in span && KidOf(x, Other(d)) != NULL
      modifies this`root, this`parent, this`left, this`right, this`span
      ensures Shape(T()) && Pivoted(old(T()), T(), x, d)
    {
      assert Linked(T(), x) && Linked(T(), KidOf(x, Other(d)));
      if Get(parent, x) != NULL { assert Linked(T(), Get(parent, x)); }
      if d.Left? {
        RotatedLeftShape(T(), x);
        RotatedLeftPivots(T(), x);
        LeftRotate(x);
      } else {
        RotatedRightShape(T(), x);
        RotatedRightPivots(T(), x);
        RightRotate(x);
      }
    }

    // ---------- Insertion ----------

    // The uncle of `z` is black: first make `z` an outer grandchild ...
    method RotateInner(z0: Addr, d: Side) returns (z: Addr)
      requires Inserting(T(), color, height, z0)
      requires var p := Get(parent, z0); var g := Get(parent, p);
        IsRed(color, p) && KidOf(g, d) == p && !IsRed(color, KidOf(g, Other(d)))
      modifies this`root, this`parent, this`left, this`right, this`span
      ensures Inserting(T(), color, height, z) && span.Keys == old(span.Keys)
      ensures var p := Get(parent, z); var g := Get(parent, p);
        && IsRed(color, p) && KidOf(g, d) == p && KidOf(p, d) == z && !IsRed(color, KidOf(g, Other(d)))
    {
      z := z0;
      var p := Get(parent, z);
      ghost var t, g := T(), Get(parent, p);
      GrandparentExists(t, color, height, z);
      assert Linked(t, z) && Linked(t, p) && Linked(t, g);
      if z == KidOf(p, Other(d)) {
        z := p;
        Rotate(z, d);
        RotatedInner(t, T(), color, height, z0, d);
        assert Elsewhere(t, T(), p, z0, g);
      }
    }

    // ... then lift its parent over its grandparent.
    method RotateOuter(z: Addr, d: Side)
      requires Inserting(T(), color, height, z)
      requires var p := Get(parent, z); var g := Get(parent, p);
        && IsRed(color, p) && KidOf(g, d) == p && KidOf(p, d) == z && !IsRed(color, KidOf(g, Other(d)))
      modifies this`root, this`parent, this`left, this`right, this`span, this`color, this`height
      ensures RedBlack(T(), color, height) && IsRed(color, z)
      ensures span.Keys == old(span.Keys) && color.Keys >= old(color.Keys)
    {
      var p := Get(parent, z);
      var g := Get(parent, p);
      ghost var t, c, h := T(), color, height;
      GrandparentExists(t, c, h, z);
      color := color[p := Black];
      color := color[g := Red];
      Rotate(g, Other(d));
      height := height[p := H(height, g)][g := H(height, g) - 1];
      RotatedOuter(t, T(), c, h, z, Other(d), p, g);
    }

    // The uncle of `z` is red: the two generations above `z` swap colours.
    method Recolor(z: Addr, p: Addr, g: Addr, u: Addr)
      requires Inserting(T(), color, height, z) && p == Get(parent, z) && g == Get(parent, p)
      requires IsRed(color, p) && IsRed(color, u) && u != p && (Get(left, g) == u || Get(right, g) == u)
      modifies this`color, this`height
      ensures Inserting(T(), color, height, g) && color.Keys >= old(color.Keys)
      ensures z in span && span[g].hi - span[g].lo > span[z].hi - span[z].lo
    {
      Recolored(T(), color, height, z, u);
      height := height[p := H(height, p) + 1][u := H(height, u) + 1];
      color := color[p := Black];
      color := color[u := Black];
      color := color[g := Red];
    }

    method InsertFixup(z0: Addr)
      requires Inserting(T(), color, height, z0)
      modifies this`root, this`parent, this`left, this`right, this`span, this`color, this`height
      ensures RedBlack(T(), color, height)
      ensures span.Keys == old(span.Keys) && color.Keys >= old(color.Keys)
    {
      var z := z0;
      while IsRed(color, Get(parent, z))
        invariant Inserting(T(), color, height, z)
        invariant span.Keys == old(span.Keys) && color.Keys >= old(color.Keys)
        decreases if IsRed(color, Get(parent, z)) then |nodes| + 1 - (span[z].hi - span[z].lo) else 0
      {
        var p := Get(parent, z);
        var g := Get(parent, p);
        GrandparentExists(T(), color, height, z);
        assert Linked(T(), z) && Linked(T(), p) && Linked(T(), g);
        var d := if p == Get(left, g) then Left else Right;
        var uncle := KidOf(g, Other(d));
        if IsRed(color, uncle) {
          Recolor(z, p, g, uncle);
          z := g;
        } else {
          z := RotateInner(z, d);
          RotateOuter(z, d);
          Settled(T(), color, height, z);
        }
        assert Linked(T(), z);
      }
      BlackenRoot(z);
    }

    method BlackenRoot(ghost z: Addr)
      requires Inserting(T(), color, height, z) && !IsRed(color, Get(parent, z))
      modifies this`color, this`height
      ensures RedBlack(T(), color, height) && color.Keys >= old(color.Keys)
    {
      RootBlackened(T(), color, height, z);
      assert Linked(T(), z);
      if root != NULL {
        if IsRed(color, root) { height := height[root := H(height, root) + 1]; }
        color := color[root := Black];
      }
    }

    // Where the descent for (k, e) falls off the tree: below `p` on side `d`, between j-1 and j in order.
    method Descend(k: int, e: Addr) returns (p: Addr, d: Side, ghost j: nat, ghost turns: nat)
      requires Shape(T()) && e !in span
      ensures turns <= TreeHeight.Height(T(), root)
      ensures p == NULL ==> root == NULL && j == 0
      ensures p != NULL ==> FreeSlot(T(), p, d) && GapAt(T(), p, d) == j
      ensures p != NULL ==> d == if Less(k, e, KeyAt(key, p), p) then Left else Right
      ensures j <= |nodes|
      ensures j > 0 ==> Less(KeyAt(key, nodes[j - 1]), nodes[j - 1], k, e)
      ensures j < |nodes| ==> Less(k, e, KeyAt(key, nodes[j]), nodes[j])
    {
      p := NULL;
      var current := root;
      ghost var lo, hi := 0, |nodes|;
      ghost var t := T();
      d, turns := Right, 0;
      if root != NULL { assert Linked(t, root); }
      while current != NULL
        invariant Descending(t, key, k, e, p, d, current, lo, hi)
        invariant turns + TreeHeight.Height(t, current) <= TreeHeight.Height(t, root)
        decreases hi - lo
      {
        DescendsOn(t, key, k, e, p, d, current, lo, hi);
        TreeHeight.KidsLower(t, current);
        turns := turns + 1;
        p := current;
        if Less(k, e, KeyAt(key, current), current) {
          current, d, hi := Get(left, current), Left, span[current].pos;
        } else {
          current, d, lo := Get(right, current), Right, span[current].pos + 1;
        }
      }
      j := lo;
      if p != NULL { assert Linked(t, p); }
    }

    // The pointer writes of an insertion, before any recolouring.
    method Attach(e: Addr, k: int, p: Addr, d: Side)
      requires e !in span && (p == NULL ==> nodes == [])
      requires p != NULL ==> p in span && 0 <= span[p].pos < |nodes| && p in key && p != e
      requires p != NULL ==> d == if Less(k, e, key[p], p) then Left else Right
      modifies this`root, this`parent, this`left, this`right, this`color, this`key, this`nodes, this`span, this`height
      ensures T() == if p == NULL then Planted(old(T()), e) else Attached(old(T()), p, d, e)
      ensures key == old(key)[e := k] && color == old(color)[e := Red] && height == old(height)[e := 0]
    {
      ghost var t := T();
      // reset_links
      parent, left, right, color := parent[e := NULL], left[e := NULL], right[e := NULL], color[e := Red];
      key := key[e := k];
      parent := parent[e := p];
      assert parent == t.parent[e := p];
      LinkBelow(e, k, p, d);
      ghost var t' := if p == NULL then Planted(t, e) else Attached(t, p, d, e);
      nodes, span, height := t'.nodes, t'.span, height[e := 0];
    }

    // The one write that makes `e` reachable.
    method LinkBelow(e: Addr, k: int, p: Addr, ghost d: Side)
      requires p != NULL ==> p in key && d == if Less(k, e, key[p], p) then Left else Right
      modifies this`root, this`left, this`right
      ensures root == if p == NULL then e else old(root)
      ensures left == if p != NULL && d.Left? then old(left)[p := e] else old(left)
      ensures right == if p != NULL && d.Right? then old(right)[p := e] else old(right)
    {
      if p == NULL {
        root := e;
      } else if Less(k, e, key[p], p) {
        left := left[p := e];
      } else {
        right := right[p := e];
      }
    }

    // Links the detached entity `e` under key `k`. Everything else keeps its place in the order.
    method Insert(e: Addr, k: int) returns (ghost j: nat)
      requires Valid() && e != NULL && e !in nodes
      modifies this
      ensures Valid()
      ensures j <= |old(nodes)| && nodes == old(nodes)[..j] + [e] + old(nodes)[j..]
      ensures key == old(key)[e := k]
    {
      Membership();
      var p, d;
      ghost var turns;
      p, d, j, turns := Descend(k, e);
      if p != NULL {
        assert Linked(T(), p);
        AttachedColors(T(), color, height, p, d, e);
      } else {
        Empty(T());
        PlantedColors(T(), color, height, e);
      }
      Attach(e, k, p, d);
      InsertFixup(e);
      len := len + 1;
      SortedInsert(old(nodes), old(key), j, e, k);
    }

    // ---------- Removal ----------

    method Transplant(u: Addr, v: Addr)
      requires u != NULL
      modifies this`root, this`parent, this`left, this`right
      ensures T() == Transplanted(old(T()), u, v)
    {
      if Get(parent, u) == NULL {
        root := v;
      } else if u == Get(left, Get(parent, u)) {
        left := left[Get(parent, u) := v];
      } else {
        right := right[Get(parent, u) := v];
      }
      if v != NULL {
        parent := parent[v := Get(parent, u)];
      }
    }

    // `x` has a red sibling: make the sibling black and the parent red.
    method LowerRedSibling(x: Addr, p: Addr, d: Side)
      requires Removing(T(), color, height, x, p, d) && p != NULL && !IsRed(color, x)
      requires IsRed(color, KidOf(p, Other(d)))
      modifies this`root, this`parent, this`left, this`right, this`span, this`color, this`height
      ensures Removing(T(), color, height, x, p, d) && !IsRed(color, KidOf(p, Other(d))) && IsRed(color, p)
      ensures !IsRed(color, x)
      ensures span.Keys == old(span.Keys) && color.Keys >= old(color.Keys)
    {
      ghost var t, c, h := T(), color, height;
      SiblingExists(t, c, h, x, p, d);
      var w := KidOf(p, Other(d));
      color := color[w := Black];
      color := color[p := Red];
      Rotate(p, d);
      height := height[w := H(height, p)][p := H(height, p) - 1];
      RedSibling(t, T(), c, h, x, p, d);
    }

    // The black sibling has a red child: one or two rotations finish the fix-up.
    method BorrowFromSibling(x: Addr, p: Addr, d: Side)
      requires Removing(T(), color, height, x, p, d) && p != NULL && !IsRed(color, x) && p in color
      requires var w := KidOf(p, Other(d));
        !IsRed(color, w) && (IsRed(color, KidOf(w, d)) || IsRed(color, KidOf(w, Other(d))))
      modifies this`root, this`parent, this`left, this`right, this`span, this`color, this`height
      ensures RedBlack(T(), color, height)
      ensures span.Keys == old(span.Keys) && color.Keys >= old(color.Keys)
    {
      if !IsRed(color, KidOf(KidOf(p, Other(d)), Other(d))) {
        RaiseNearNephew(x, p, d);
      }
      RaiseSibling(x, p, d);
    }

    method RaiseNearNephew(x: Addr, p: Addr, d: Side)
      requires Removing(T(), color, height, x, p, d) && p != NULL && !IsRed(color, x) && p in color
      requires var w := KidOf(p, Other(d));
        !IsRed(color, w) && IsRed(color, KidOf(w, d)) && !IsRed(color, KidOf(w, Other(d)))
      modifies this`root, this`parent, this`left, this`right, this`span, this`color, this`height
      ensures Removing(T(), color, height, x, p, d) && !IsRed(color, x)
      ensures var w := KidOf(p, Other(d)); !IsRed(color, w) && IsRed(color, KidOf(w, Other(d)))
      ensures span.Keys == old(span.Keys) && color.Keys >= old(color.Keys)
    {
      ghost var t, c, h := T(), color, height;
      SiblingExists(t, c, h, x, p, d);
      var w := KidOf(p, Other(d));
      assert Linked(t, w) && Linked(t, p);
      var l := KidOf(w, d);
      assert Linked(t, l);
      color := color[l := Black];
      color := color[w := Red];
      Rotate(w, Other(d));
      height := height[l := H(height, w)][w := H(height, w) - 1];
      NearNephewRed(t, T(), c, h, x, p, d, w, l);
    }

    method RaiseSibling(x: Addr, p: Addr, d: Side)
      requires Removing(T(), color, height, x, p, d) && p != NULL && !IsRed(color, x) && p in color
      requires var w := KidOf(p, Other(d)); !IsRed(color, w) && IsRed(color, KidOf(w, Other(d)))
      modifies this`root, this`parent, this`left, this`right, this`span, this`color, this`height
      ensures RedBlack(T(), color, height)
      ensures span.Keys == old(span.Keys) && color.Keys >= old(color.Keys)
    {
      ghost var t, c, h := T(), color, height;
      SiblingExists(t, c, h, x, p, d);
      var w := KidOf(p, Other(d));
      var r := KidOf(w, Other(d));
      color := color[w := color[p]];
      color := color[p := Black];
      color := color[r := Black];
      Rotate(p, d);
      height := height[w := H(height, p)][p := H(height, w)][r := H(height, r) + 1];
      FarNephewRed(t, T(), c, h, x, p, d, w, r);
    }

    method RemoveFixup(x0: Addr, p0: Addr, ghost d0: Side)
      requires Removing(T(), color, height, x0, p0, d0)
      requires forall n :: n in span ==> n in color
      modifies this`root, this`parent, this`left, this`right, this`span, this`color, this`height
      ensures RedBlack(T(), color, height)
      ensures span.Keys == old(span.Keys) && color.Keys >= old(color.Keys)
    {
      var x, p := x0, p0;
      ghost var d := d0;
      while x != root && !IsRed(color, x)
        invariant Removing(T(), color, height, x, p, d)
        invariant span.Keys == old(span.Keys) && color.Keys >= old(color.Keys)
        decreases if x != root && !IsRed(color, x) then |nodes| + 1 - (span[p].hi - span[p].lo) else 0
      {
        assert Linked(T(), p);
        x, p, d := RemoveFixupStep(x, p, d);
        if p != NULL { assert Linked(T(), p); }
      }
      Blackened(T(), color, height, x, p, d);
      if x != NULL {
        if IsRed(color, x) { height := height[x := H(height, x) + 1]; }
        color := color[x := Black];
      }
    }

    // Both nephews are black: the sibling turns red and the shortage moves up to `p`.
    method PushUp(x: Addr, p: Addr, d: Side, w: Addr)
      requires Removing(T(), color, height, x, p, d) && p != NULL && !IsRed(color, x) && w == KidOf(p, Other(d))
      requires !IsRed(color, w) && !IsRed(color, Get(left, w)) && !IsRed(color, Get(right, w))
      modifies this`color, this`height
      ensures var g := Get(parent, p);
        && Removing(T(), color, height, p, g, SideOf(T(), p)) && IsRed(color, p) == IsRed(old(color), p)
        && (g != NULL ==> g in span && span[g].hi - span[g].lo > span[p].hi - span[p].lo)
      ensures color.Keys >= old(color.Keys)
    {
      SiblingExists(T(), color, height, x, p, d);
      BlackNephews(T(), color, height, x, p, d, w);
      assert Linked(T(), p);
      if Get(parent, p) != NULL { assert Linked(T(), Get(parent, p)); }
      height := height[w := H(height, w) - 1][p := H(height, p) - 1];
      color := color[w := Red];
    }

    // One iteration of the fix-up: the short subtree moves up, or the tree is repaired.
    method RemoveFixupStep(x0: Addr, p0: Addr, ghost d0: Side) returns (x: Addr, p: Addr, ghost d: Side)
      requires Removing(T(), color, height, x0, p0, d0) && x0 != root && !IsRed(color, x0)
      requires forall n :: n in span ==> n in color
      modifies this`root, this`parent, this`left, this`right, this`span, this`color, this`height
      ensures Removing(T(), color, height, x, p, d)
      ensures span.Keys == old(span.Keys) && color.Keys >= old(color.Keys)
      ensures x != root && !IsRed(color, x) ==> span[p].hi - span[p].lo > old(span[p0].hi - span[p0].lo)
    {
      x, p, d := x0, p0, d0;
      ShortSide(T(), color, height, x, p, d);
      var side := if x == Get(left, p) then Left else Right;
      if IsRed(color, KidOf(p, Other(side))) {
        LowerRedSibling(x, p, side);
      }
      var w := KidOf(p, Other(side));
      assert p in color && !IsRed(color, w) && !IsRed(color, x);
      if !IsRed(color, Get(left, w)) && !IsRed(color, Get(right, w)) {
        PushUp(x, p, side, w);
        x, p, d := p, Get(parent, p), SideOf(T(), p);
      } else {
        BorrowFromSibling(x, p, side);
        NothingShort(T(), color, height, d);
        x, p := root, NULL;
      }
    }

    // Unlinks a node with at most one child.
    method SpliceOut(n: Addr) returns (x: Addr, p: Addr)
      requires n != NULL
      requires CanSplice(T(), n)
      modifies this`root, this`parent, this`left, this`right, this`nodes, this`span
      ensures T() == Spliced(old(T()), n) && x == OnlyKid(old(T()), n) && p == Up(old(T()), n)
    {
      ghost var t := T();
      p := Get(parent, n);
      if Get(left, n) == NULL {
        x := Get(right, n);
        Transplant(n, Get(right, n));
      } else {
        x := Get(left, n);
        Transplant(n, Get(left, n));
      }
      nodes, span := Spliced(t, n).nodes, Spliced(t, n).span;
    }

    // Unlinks a node with two children by moving its in-order successor `y` into its place.
    method SpliceSuccessor(n: Addr, y: Addr) returns (x: Addr, p: Addr)
      requires n != NULL && y != NULL && y != n && Get(left, n) != NULL && Get(right, n) != NULL
      requires Get(parent, n) != n && Get(parent, n) != y && Get(parent, y) != y
      modifies this`root, this`parent, this`left, this`right
      ensures T() == Moved(old(T()), n, y)
      ensures x == Get(old(right), y) && p == if Get(old(parent), y) == n then y else Get(old(parent), y)
    {
      x := Get(right, y);
      if Get(parent, y) == n {
        p := y;
        if x != NULL {
          parent := parent[x := y];
        }
      } else {
        p := Get(parent, y);
        Transplant(y, Get(right, y));
        right := right[y := Get(right, n)];
        assert Get(right, y) != NULL;
        parent := parent[Get(right, y) := y];
      }
      Transplant(n, y);
      left := left[y := Get(left, n)];
      assert Get(left, y) != NULL;
      parent := parent[Get(left, y) := y];
    }

    method UnlinkSingle(n: Addr) returns (x: Addr, p: Addr, black: bool, ghost d: Side)
      requires RedBlack(T(), color, height) && n in span && (Get(left, n) == NULL || Get(right, n) == NULL)
      modifies this`root, this`parent, this`left, this`right, this`nodes, this`span
      ensures if black then Removing(T(), color, height, x, p, d) else RedBlack(T(), color, height)
      ensures span.Keys == old(span.Keys) - {n}
      ensures var j := old(span)[n].pos; 0 <= j < |old(nodes)| && nodes == old(nodes)[..j] + old(nodes)[j + 1..]
    {
      assert Linked(T(), n);
      if Get(parent, n) != NULL { assert Linked(T(), Get(parent, n)); }
      SplicedColors(T(), color, height, n);
      d := SideOf(T(), n);
      black := !IsRed(color, n);
      x, p := SpliceOut(n);
    }

    method UnlinkDouble(n: Addr) returns (x: Addr, p: Addr, black: bool, ghost d: Side)
      requires RedBlack(T(), color, height) && n in span && Get(left, n) != NULL && Get(right, n) != NULL
      requires forall m :: m in span ==> m in color
      modifies this`root, this`parent, this`left, this`right, this`nodes, this`span, this`color, this`height
      ensures if black then Removing(T(), color, height, x, p, d) else RedBlack(T(), color, height)
      ensures span.Keys == old(span.Keys) - {n} && color.Keys >= old(color.Keys)
      ensures var j := old(span)[n].pos; 0 <= j < |old(nodes)| && nodes == old(nodes)[..j] + old(nodes)[j + 1..]
    {
      var y := Successor(n);
      black := !IsRed(color, y);
      d := SideOf(T(), y);
      x, p := MoveSuccessor(n, y);
    }

    method Successor(n: Addr) returns (y: Addr)
      requires Shape(T()) && n in span && Get(right, n) != NULL
      ensures y in span && Get(left, y) == NULL && span[y].pos == span[n].pos + 1
    {
      assert Linked(T(), n);
      ghost var turns;
      y, turns := Minimum(Get(right, n));
    }

    method MoveSuccessor(n: Addr, y: Addr) returns (x: Addr, p: Addr)
      requires RedBlack(T(), color, height) && n in span && y in span && n in color
      requires Get(left, n) != NULL && Get(right, n) != NULL && Get(left, y) == NULL && span[y].pos == span[n].pos + 1
      modifies this`root, this`parent, this`left, this`right, this`nodes, this`span, this`color, this`height
      ensures if IsRed(old(color), y) then RedBlack(T(), color, height)
        else Removing(T(), color, height, x, p, SideOf(old(T()), y))
      ensures span.Keys == old(span.Keys) - {n} && color.Keys >= old(color.Keys)
      ensures var j := old(span)[n].pos; 0 <= j < |old(nodes)| && nodes == old(nodes)[..j] + old(nodes)[j + 1..]
    {
      ghost var t' := SuccessorRemoved(T(), color, height, n, y);
      SpliceSafe(T(), n, y);
      x, p := SpliceSuccessor(n, y);
      nodes, span := t'.nodes, t'.span;
      color := color[y := color[n]];
      height := height[y := H(height, n)];
      assert T() == t';
    }

    method Unlink(e: Addr)
      requires RedBlack(T(), color, height) && e in span
      requires forall n :: n in span ==> n in color
      modifies this`root, this`parent, this`left, this`right, this`nodes, this`span, this`color, this`height
      ensures RedBlack(T(), color, height) && span.Keys == old(span.Keys) - {e} && color.Keys >= old(color.Keys)
      ensures var j := old(span)[e].pos; 0 <= j < |old(nodes)| && nodes == old(nodes)[..j] + old(nodes)[j + 1..]
    {
      var x, p, black;
      ghost var d;
      if Get(left, e) == NULL || Get(right, e) == NULL {
        x, p, black, d := UnlinkSingle(e);
      } else {
        x, p, black, d := UnlinkDouble(e);
      }
      if black {
        RemoveFixup(x, p, d);
      }
    }

    // Unlinks `e`. Everything else keeps its place in the order; a null `e` is returned unchanged.
    method Remove(e: Addr) returns (r: Addr, ghost j: nat)
      requires Valid() && (e == NULL || e in nodes)
      modifies this
      ensures Valid() && r == e && key == old(key)
      ensures e == NULL ==> nodes == old(nodes)
      ensures e != NULL ==> j < |old(nodes)| && old(nodes)[j] == e && nodes == old(nodes)[..j] + old(nodes)[j + 1..]
      ensures e != NULL ==> Get(parent, e) == Get(left, e) == Get(right, e) == NULL
    {
      r, j := e, 0;
      if e == NULL { return; }
      ghost var i := IndexOf(e);
      j := i;
      Unlink(e);
      ResetLinks(e);
      len := len - 1;
      SortedRemove(old(nodes), key, j);
    }

    // Unlinks and returns the least entity.
    method PopFirst() returns (e: Addr)
      requires Valid()
      modifies this
      ensures Valid() && key == old(key)
      ensures old(nodes) == [] ==> e == NULL && nodes == []
      ensures old(nodes) != [] ==> e == old(nodes)[0] && e != NULL && nodes == old(nodes)[1..]
    {
      NoNullNode();
      e := First();
      if e == NULL { return; }
      ghost var j;
      ghost var r;
      r, j := Remove(e);
    }

    method ResetLinks(e: Addr)
      requires RedBlack(T(), color, height) && e !in span && e != NULL
      modifies this`parent, this`left, this`right, this`color
      ensures RedBlack(T(), color, height) && color == old(color)[e := Red]
      ensures Get(parent, e) == Get(left, e) == Get(right, e) == NULL
    {
      Detached(T(), color, height, e);
      parent, left, right, color := parent[e := NULL], left[e := NULL], right[e := NULL], color[e := Red];
    }

    lemma IndexOf(e: Addr) returns (j: nat)
      requires Shape(T()) && e in nodes
      ensures e in span && j == span[e].pos && j < |nodes| && nodes[j] == e && e != NULL
    {
      j :| j < |nodes| && nodes[j] == e;
      assert Linked(T(), e);
    }

    lemma Membership()
      requires Shape(T())
      ensures forall n :: n in span <==> n in nodes
    {
      forall n | n in span ensures n in nodes { assert Linked(T(), n); }
    }
  }

  // The descent for (k, e) is at `current`, whose subtree covers the gap between positions lo and hi; it came from
  // side `d` of `p`.
  ghost predicate Descending(t: Topo, key: Keys, k: int, e: Addr, p: Addr, d: Side, current: Addr, lo: int, hi: int) {
    && 0 <= lo <= hi <= |t.nodes| && (current == NULL ==> lo == hi)
    && (current != NULL ==> current in t.span && t.span[current].lo == lo && t.span[current].hi == hi)
    && (p == NULL ==> current == t.root && lo == 0 && hi == |t.nodes|)
    && (p != NULL ==> p in t.span && Kid(t, p, d) == current)
    && (p != NULL ==> if d.Left? then t.span[p].pos == hi else t.span[p].pos + 1 == lo)
    && (p != NULL ==> d == if Less(k, e, KeyAt(key, p), p) then Left else Right)
    && (lo > 0 && (d.Left? || p != t.nodes[lo - 1]) ==> Get(t.right, t.nodes[lo - 1]) != NULL)
    && (hi < |t.nodes| && (d.Right? || p != t.nodes[hi]) ==> Get(t.left, t.nodes[hi]) != NULL)
    && (lo > 0 ==> Less(KeyAt(key, t.nodes[lo - 1]), t.nodes[lo - 1], k, e))
    && (hi < |t.nodes| ==> Less(k, e, KeyAt(key, t.nodes[hi]), t.nodes[hi]))
  }

  // One turn of the descent.
  lemma DescendsOn(t: Topo, key: Keys, k: int, e: Addr, p: Addr, d: Side, current: Addr, lo: int, hi: int)
    requires Shape(t) && e !in t.span && current != NULL && Descending(t, key, k, e, p, d, current, lo, hi)
    ensures lo <= t.span[current].pos < hi
    ensures if Less(k, e, KeyAt(key, current), current)
      then Descending(t, key, k, e, current, Left, Get(t.left, current), lo, t.span[current].pos)
      else Descending(t, key, k, e, current, Right, Get(t.right, current), t.span[current].pos + 1, hi)
  {
    assert Linked(t, current);
    if p != NULL { assert Linked(t, p); }
    if Get(t.left, current) != NULL { assert Linked(t, Get(t.left, current)); }
    if Get(t.right, current) != NULL { assert Linked(t, Get(t.right, current)); }
  }

  lemma SortedInsert(nodes: seq<Addr>, key: Keys, j: nat, e: Addr, k: int)
    requires Sorted(nodes, key) && j <= |nodes| && e !in nodes
    requires j > 0 ==> Less(KeyAt(key, nodes[j - 1]), nodes[j - 1], k, e)
    requires j < |nodes| ==> Less(k, e, KeyAt(key, nodes[j]), nodes[j])
    ensures Sorted(nodes[..j] + [e] + nodes[j..], key[e := k])
  {
  }

  lemma UpperLeast(nodes: seq<Addr>, key: Keys, k: int, e: Addr, j: nat)
    requires Sorted(nodes, key) && j <= |nodes| && NULL !in nodes
    requires forall i :: 0 <= i < |nodes| ==> (Less(k, e, KeyAt(key, nodes[i]), nodes[i]) <==> j <= i)
    ensures var m := Nth(nodes, j);
      && (m != NULL ==> m in nodes && Less(k, e, KeyAt(key, m), m))
      && forall t :: t in nodes && Less(k, e, KeyAt(key, t), t) ==>
           m != NULL && (t == m || Less(KeyAt(key, m), m, KeyAt(key, t), t))
  {
    assert j < |nodes| ==> nodes[j] in nodes;
  }

  lemma InsertedMembers(nodes: seq<Addr>, j: nat, e: Addr)
    requires j <= |nodes|
    ensures forall u :: u in nodes[..j] + [e] + nodes[j..] <==> u in nodes || u == e
  {
    assert nodes == nodes[..j] + nodes[j..];
  }

  lemma RemovedMembers(nodes: seq<Addr>, key: Keys, j: nat)
    requires Sorted(nodes, key) && j < |nodes|
    ensures forall u :: u in nodes[..j] + nodes[j + 1..] <==> u in nodes && u != nodes[j]
  {
    assert nodes == nodes[..j] + [nodes[j]] + nodes[j + 1..];
  }

  lemma SortedRemove(nodes: seq<Addr>, key: Keys, j: nat)
    requires Sorted(nodes, key) && j < |nodes|
    ensures Sorted(nodes[..j] + nodes[j + 1..], key)
  {
  }

  // The in-order successor `y` of a node with two children can be unlinked and moved into its place.
  lemma SuccessorSplices(t: Topo, n: Addr, y: Addr)
    requires Shape(t) && n in t.span && y in t.span && Get(t.left, n) != NULL && Get(t.right, n) != NULL
    requires Get(t.left, y) == NULL && t.span[y].pos == t.span[n].pos + 1
    ensures IsSuccessor(t, n, y) && CanSplice(t, y) && CanReplace(Spliced(t, y), n, y)
    ensures var t2, k := Replaced(Spliced(t, y), n, y), t.span[n].pos;
      && Agree(t2, Moved(t, n, y).(nodes := t2.nodes, span := t2.span))
      && t2.nodes == t.nodes[..k] + t.nodes[k + 1..] && t2.span.Keys == t.span.Keys - {n}
  {
    SuccessorLinked(t, n, y);
    SuccessorMoves(t, n, y);
    SuccessorApart(t, n, y);
    var t2 := Replaced(Spliced(t, y), n, y);
    var t' := Moved(t, n, y).(nodes := t2.nodes, span := t2.span);
    MovedUp(t, n, y, y);
    forall m | m in t2.span ensures SameLinks(t2, t', m) {
      MovedLeft(t, n, y, m);
      MovedRight(t, n, y, m);
      MovedUp(t, n, y, m);
    }
  }

  // Every pointer that the splice writes through is non-null.
  lemma SpliceSafe(t: Topo, n: Addr, y: Addr)
    requires Shape(t) && n in t.span && y in t.span && Get(t.left, y) == NULL && t.span[y].pos == t.span[n].pos + 1
    ensures n != NULL && y != NULL && y != n && Up(t, n) != n && Up(t, n) != y && Up(t, y) != y
  {
    assert Linked(t, n) && Linked(t, y);
    if Up(t, n) != NULL { assert Linked(t, Up(t, n)); }
    if Up(t, y) != NULL { assert Linked(t, Up(t, y)); }
  }

  lemma SuccessorLinked(t: Topo, n: Addr, y: Addr)
    requires Shape(t) && n in t.span && y in t.span && Get(t.left, n) != NULL && Get(t.right, n) != NULL
    requires Get(t.left, y) == NULL && t.span[y].pos == t.span[n].pos + 1
    ensures IsSuccessor(t, n, y) && CanSplice(t, y) && CanReplace(Spliced(t, y), n, y)
  {
    assert Linked(t, n) && Linked(t, y) && Linked(t, Get(t.left, n)) && Linked(t, Get(t.right, n));
    if Up(t, y) != NULL { assert Linked(t, Up(t, y)); }
    if Up(t, n) != NULL { assert Linked(t, Up(t, n)); }
    SplicedShape(t, y);
    assert Linked(Spliced(t, y), n);
    if Up(Spliced(t, y), n) != NULL { assert Linked(Spliced(t, y), Up(Spliced(t, y), n)); }
  }

  lemma SuccessorRemoved(t: Topo, c: Colors, h: Heights, n: Addr, y: Addr) returns (t': Topo)
    requires RedBlack(t, c, h) && n in c && n in t.span && y in t.span && Get(t.left, n) != NULL
    requires Get(t.right, n) != NULL
    requires Get(t.left, y) == NULL && t.span[y].pos == t.span[n].pos + 1
    ensures t' == Moved(t, n, y).(nodes := t'.nodes, span := t'.span) && n != y
    ensures var c', h' := c[y := c[n]], h[y := H(h, n)];
      if IsRed(c, y) then RedBlack(t', c', h')
      else Removing(t', c', h', Get(t.right, y), if Up(t, y) == n then y else Up(t, y), SideOf(t, y))
    ensures var k := t.span[n].pos;
      0 <= k < |t.nodes| && t'.nodes == t.nodes[..k] + t.nodes[k + 1..] && t'.span.Keys == t.span.Keys - {n}
  {
    assert Linked(t, n) && Linked(t, y);
    SuccessorSplices(t, n, y);
    SuccessorColors(t, c, h, n, y);
    var t2, c', h' := Replaced(Spliced(t, y), n, y), c[y := c[n]], h[y := H(h, n)];
    t' := Moved(t, n, y).(nodes := t2.nodes, span := t2.span);
    if IsRed(c, y) {
      AgreeRedBlack(t2, t', c', h');
    } else {
      AgreeColors(t2, t', c', h', Get(t.right, y), if Up(t, y) == n then y else Up(t, y), SideOf(t, y));
    }
  }

  lemma SuccessorColors(t: Topo, c: Colors, h: Heights, n: Addr, y: Addr)
    requires RedBlack(t, c, h) && n in t.span && n in c
    requires CanSplice(t, y) && CanReplace(Spliced(t, y), n, y)
    requires Get(t.left, y) == NULL && t.span[y].pos == t.span[n].pos + 1
    ensures var t2, c2, h2 := Replaced(Spliced(t, y), n, y), c[y := c[n]], h[y := H(h, n)];
      if IsRed(c, y) then RedBlack(t2, c2, h2)
      else Removing(t2, c2, h2, OnlyKid(t, y), if Up(t, y) == n then y else Up(t, y), SideOf(t, y))
  {
    SplicedColors(t, c, h, y);
    var t1 := Spliced(t, y);
    if IsRed(c, y) {
      ReplacedShape(t1, n, y);
      ReplacedBal(t1, c, h, n, y, NULL);
      ReplacedCalm(t1, c, n, y, NULL);
      assert Linked(t1, n);
      var t2, c2, h2 := Replaced(t1, n, y), c[y := c[n]], h[y := H(h, n)];
      forall m | m in t2.span ensures Bal(t2, c2, h2, m) && Calm(t2, c2, m, NULL) { assert Linked(t2, m); }
    } else {
      assert Linked(t, n) && Linked(t, y);
      if OnlyKid(t, y) != NULL { assert Linked(t, OnlyKid(t, y)); }
      ReplacedColors(t1, c, h, n, y, OnlyKid(t, y), Up(t, y), SideOf(t, y));
    }
  }

  // Clearing the links of an unlinked node leaves the tree alone.
  lemma Detached(t: Topo, c: Colors, h: Heights, e: Addr)
    requires RedBlack(t, c, h) && e !in t.span && e != NULL
    ensures RedBlack(t.(parent := t.parent[e := NULL], left := t.left[e := NULL], right := t.right[e := NULL]),
      c[e := Red], h)
  {
    var t' := t.(parent := t.parent[e := NULL], left := t.left[e := NULL], right := t.right[e := NULL]);
    AgreeShape(t, t');
    forall n | n in t'.span ensures Bal(t', c[e := Red], h, n) && Calm(t', c[e := Red], n, NULL) {
      assert Linked(t, n);
    }
  }
}
