/** Pointer topology of the intrusive red-black tree (src/rbtree.rs).

    Nodes live at addresses; each link field of the node records is a map from
    address to address, and address 0 is the null pointer. A ghost in-order
    sequence and one in-order interval per node turn "these pointers form a
    tree" into conditions that each mention a node and its neighbours only. */
module Topology {
  type Addr = int
  const NULL: Addr := 0
  type Field = map<Addr, Addr>
  datatype Side = Left | Right

  function Other(d: Side): Side { if d.Left? then Right else Left }

  function Get(f: Field, n: Addr): Addr { if n in f then f[n] else NULL }

  // `pos` is the node's in-order index; its subtree holds exactly the indices in [lo, hi).
  datatype Span = Span(pos: int, lo: int, hi: int)

  datatype Topo = Topo(root: Addr, parent: Field, left: Field, right: Field,
                       nodes: seq<Addr>, span: map<Addr, Span>)

  function Kid(t: Topo, n: Addr, d: Side): Addr { if d.Left? then Get(t.left, n) else Get(t.right, n) }

  function Up(t: Topo, n: Addr): Addr { Get(t.parent, n) }

  ghost predicate At(t: Topo, n: Addr) {
    && n != NULL && n in t.span
    && 0 <= t.span[n].lo <= t.span[n].pos < t.span[n].hi <= |t.nodes|
    && t.nodes[t.span[n].pos] == n
  }

  ghost predicate LeftOk(t: Topo, n: Addr)
    requires n in t.span
  {
    var l := Get(t.left, n);
    if l == NULL then t.span[n].lo == t.span[n].pos
    else l in t.span && Up(t, l) == n && t.span[l].lo == t.span[n].lo && t.span[l].hi == t.span[n].pos
  }

  ghost predicate RightOk(t: Topo, n: Addr)
    requires n in t.span
  {
    var r := Get(t.right, n);
    if r == NULL then t.span[n].hi == t.span[n].pos + 1
    else r in t.span && Up(t, r) == n && t.span[r].lo == t.span[n].pos + 1 && t.span[r].hi == t.span[n].hi
  }

  ghost predicate UpOk(t: Topo, n: Addr) {
    var p := Up(t, n);
    if p == NULL then t.root == n else p in t.span && (Get(t.left, p) == n || Get(t.right, p) == n)
  }

  ghost predicate Linked(t: Topo, n: Addr) {
    At(t, n) && LeftOk(t, n) && RightOk(t, n) && UpOk(t, n)
  }

  ghost predicate RootOk(t: Topo) {
    if t.root == NULL then t.nodes == []
    else t.root in t.span && Up(t, t.root) == NULL && t.span[t.root].lo == 0 && t.span[t.root].hi == |t.nodes|
  }

  ghost predicate Listed(t: Topo) {
    forall i :: 0 <= i < |t.nodes| ==> t.nodes[i] in t.span && t.span[t.nodes[i]].pos == i
  }

  ghost predicate Shape(t: Topo) {
    && RootOk(t)
    && (forall n {:trigger Linked(t, n)} :: n in t.span ==> Linked(t, n))
    && Listed(t)
  }

  lemma Empty(t: Topo)
    requires Shape(t) && t.root == NULL
    ensures t.span == map[]
  {
    forall n ensures n !in t.span {
      assert n in t.span ==> Linked(t, n);
    }
  }

  // ---------- Left rotation ----------

  ghost predicate CanRotateLeft(t: Topo, x: Addr) {
    && Linked(t, x) && Get(t.right, x) != NULL && Linked(t, Get(t.right, x))
    && (Up(t, x) == NULL <==> x == t.root)
    && (Up(t, x) != NULL ==> Linked(t, Up(t, x)))
  }

  ghost function RotatedLeft(t: Topo, x: Addr): (t': Topo)
    requires CanRotateLeft(t, x)
  {
    var y := Get(t.right, x);
    var b, p := Get(t.left, y), Up(t, x);
    Topo(if p == NULL then y else t.root,
         (if b == NULL then t.parent else t.parent[b := x])[y := p][x := y],
         (if p != NULL && Get(t.left, p) == x then t.left[p := y] else t.left)[y := x],
         if p != NULL && Get(t.left, p) != x then t.right[x := b][p := y] else t.right[x := b],
         t.nodes,
         t.span[x := t.span[x].(hi := t.span[y].pos)][y := t.span[y].(lo := t.span[x].lo, hi := t.span[x].hi)])
  }

  lemma RotatedLeftLeft(t: Topo, x: Addr, n: Addr)
    requires CanRotateLeft(t, x) && Linked(t, n)
    ensures At(RotatedLeft(t, x), n) && LeftOk(RotatedLeft(t, x), n)
  {
  }

  lemma RotatedLeftRight(t: Topo, x: Addr, n: Addr)
    requires CanRotateLeft(t, x) && Linked(t, n)
    ensures At(RotatedLeft(t, x), n) && RightOk(RotatedLeft(t, x), n)
  {
  }

  lemma RotatedLeftUp(t: Topo, x: Addr, n: Addr)
    requires CanRotateLeft(t, x) && Linked(t, n)
    ensures UpOk(RotatedLeft(t, x), n)
  {
  }

  lemma RotatedLeftLinked(t: Topo, x: Addr, n: Addr)
    requires CanRotateLeft(t, x) && Linked(t, n)
    ensures Linked(RotatedLeft(t, x), n)
  {
    RotatedLeftLeft(t, x, n);
    RotatedLeftRight(t, x, n);
    RotatedLeftUp(t, x, n);
  }

  lemma RotatedLeftShape(t: Topo, x: Addr)
    requires Shape(t) && CanRotateLeft(t, x)
    ensures Shape(RotatedLeft(t, x))
  {
    var t' := RotatedLeft(t, x);
    forall n | n in t'.span ensures Linked(t', n) {
      assert Linked(t, n);
      RotatedLeftLinked(t, x, n);
    }
  }

  // ---------- Right rotation, by reflection ----------

  ghost function Reflected(k: int, s: Span): Span { Span(k - 1 - s.pos, k - s.hi, k - s.lo) }

  ghost function Mirror(t: Topo): Topo {
    Topo(t.root, t.parent, t.right, t.left,
         seq(|t.nodes|, i requires 0 <= i < |t.nodes| => t.nodes[|t.nodes| - 1 - i]),
         map n | n in t.span :: Reflected(|t.nodes|, t.span[n]))
  }

  lemma MirrorLinked(t: Topo, n: Addr)
    requires Linked(t, n)
    ensures Linked(Mirror(t), n)
  {
  }

  lemma MirrorShape(t: Topo)
    requires Shape(t)
    ensures Shape(Mirror(t))
  {
    var t' := Mirror(t);
    forall n | n in t'.span ensures Linked(t', n) {
      assert Linked(t, n);
      MirrorLinked(t, n);
    }
    forall i | 0 <= i < |t'.nodes| ensures t'.nodes[i] in t'.span && t'.span[t'.nodes[i]].pos == i {
      assert t'.nodes[i] == t.nodes[|t.nodes| - 1 - i];
    }
  }

  ghost predicate CanRotateRight(t: Topo, x: Addr) {
    && Linked(t, x) && Get(t.left, x) != NULL && Linked(t, Get(t.left, x))
    && (Up(t, x) == NULL <==> x == t.root)
    && (Up(t, x) != NULL ==> Linked(t, Up(t, x)))
  }

  ghost function RotatedRight(t: Topo, x: Addr): (t': Topo)
    requires CanRotateRight(t, x)
  {
    var y := Get(t.left, x);
    var b, p := Get(t.right, y), Up(t, x);
    Topo(if p == NULL then y else t.root,
         (if b == NULL then t.parent else t.parent[b := x])[y := p][x := y],
         if p != NULL && Get(t.right, p) != x then t.left[x := b][p := y] else t.left[x := b],
         (if p != NULL && Get(t.right, p) == x then t.right[p := y] else t.right)[y := x],
         t.nodes,
         t.span[x := t.span[x].(lo := t.span[y].pos + 1)][y := t.span[y].(lo := t.span[x].lo, hi := t.span[x].hi)])
  }

  lemma MirrorCanRotate(t: Topo, x: Addr)
    requires CanRotateRight(t, x)
    ensures CanRotateLeft(Mirror(t), x)
  {
    MirrorLinked(t, x);
    MirrorLinked(t, Get(t.left, x));
    if Up(t, x) != NULL { MirrorLinked(t, Up(t, x)); }
  }

  lemma RotatedRightMirrorsLinks(t: Topo, x: Addr)
    requires CanRotateRight(t, x) && CanRotateLeft(Mirror(t), x)
    ensures var t1, t2 := RotatedRight(t, x), Mirror(RotatedLeft(Mirror(t), x));
      t1.root == t2.root && t1.parent == t2.parent && t1.left == t2.left && t1.right == t2.right
  {
  }

  lemma RotatedRightMirrorsNodes(t: Topo, x: Addr)
    requires CanRotateRight(t, x) && CanRotateLeft(Mirror(t), x)
    ensures RotatedRight(t, x).nodes == Mirror(RotatedLeft(Mirror(t), x)).nodes
  {
  }

  lemma ReflectedTwice(k: int, s: Span)
    ensures Reflected(k, Reflected(k, s)) == s
  {
  }

  lemma RotatedRightMirrorsSpans(t: Topo, x: Addr)
    requires CanRotateRight(t, x) && CanRotateLeft(Mirror(t), x)
    ensures RotatedRight(t, x).span == Mirror(RotatedLeft(Mirror(t), x)).span
  {
    var t1, y := RotatedLeft(Mirror(t), x), Get(t.left, x);
    var t2, t3 := Mirror(t1), RotatedRight(t, x);
    assert |t1.nodes| == |t.nodes| && t2.span.Keys == t3.span.Keys;
    forall n | n in t3.span ensures t2.span[n] == t3.span[n] {
      if n != x && n != y { ReflectedTwice(|t.nodes|, t.span[n]); }
    }
  }

  lemma RotatedRightMirrors(t: Topo, x: Addr)
    requires CanRotateRight(t, x) && CanRotateLeft(Mirror(t), x)
    ensures RotatedRight(t, x) == Mirror(RotatedLeft(Mirror(t), x))
  {
    RotatedRightMirrorsLinks(t, x);
    RotatedRightMirrorsNodes(t, x);
    RotatedRightMirrorsSpans(t, x);
  }

  lemma RotatedRightShape(t: Topo, x: Addr)
    requires Shape(t) && CanRotateRight(t, x)
    ensures Shape(RotatedRight(t, x))
  {
    MirrorShape(t);
    MirrorCanRotate(t, x);
    RotatedLeftShape(Mirror(t), x);
    MirrorShape(RotatedLeft(Mirror(t), x));
    RotatedRightMirrors(t, x);
  }

  // ---------- Hanging a new leaf ----------

  ghost function GapAt(t: Topo, p: Addr, d: Side): int
    requires p in t.span
  {
    if d.Left? then t.span[p].pos else t.span[p].pos + 1
  }

  // The null link on side `d` of `p` is the one between in-order neighbours k-1 and k.
  ghost predicate FreeSlot(t: Topo, p: Addr, d: Side) {
    && Linked(t, p) && Kid(t, p, d) == NULL
    && var k := GapAt(t, p, d);
    && (d.Left? && k > 0 ==> Get(t.right, t.nodes[k - 1]) != NULL)
    && (d.Right? && k < |t.nodes| ==> Get(t.left, t.nodes[k]) != NULL)
  }

  ghost function Widened(s: Span, k: int): Span {
    Span(if s.pos >= k then s.pos + 1 else s.pos,
         if s.lo > k then s.lo + 1 else s.lo,
         if s.hi >= k then s.hi + 1 else s.hi)
  }

  // `z` becomes the child of `p` on side `d`.
  ghost function Attached(t: Topo, p: Addr, d: Side, z: Addr): (t': Topo)
    requires p in t.span && 0 <= t.span[p].pos < |t.nodes|
  {
    var k := GapAt(t, p, d);
    Topo(t.root,
         t.parent[z := p],
         if d.Left? then t.left[z := NULL][p := z] else t.left[z := NULL],
         if d.Right? then t.right[z := NULL][p := z] else t.right[z := NULL],
         t.nodes[..k] + [z] + t.nodes[k..],
         (map n | n in t.span :: Widened(t.span[n], k))[z := Span(k, k, k + 1)])
  }

  lemma AttachedLeft(t: Topo, p: Addr, d: Side, z: Addr, n: Addr)
    requires FreeSlot(t, p, d) && z != NULL && z !in t.span && Linked(t, n)
    ensures var t' := Attached(t, p, d, z); At(t', n) && LeftOk(t', n)
  {
    var t' := Attached(t, p, d, z);
    assert t'.nodes[t'.span[n].pos] == n;
  }

  lemma AttachedRight(t: Topo, p: Addr, d: Side, z: Addr, n: Addr)
    requires FreeSlot(t, p, d) && z != NULL && z !in t.span && Linked(t, n)
    ensures var t' := Attached(t, p, d, z); n in t'.span && RightOk(t', n)
  {
  }

  lemma AttachedUp(t: Topo, p: Addr, d: Side, z: Addr, n: Addr)
    requires FreeSlot(t, p, d) && z != NULL && z !in t.span && Linked(t, n)
    ensures UpOk(Attached(t, p, d, z), n)
  {
  }

  lemma AttachedLeaf(t: Topo, p: Addr, d: Side, z: Addr)
    requires FreeSlot(t, p, d) && z != NULL && z !in t.span
    ensures Linked(Attached(t, p, d, z), z)
  {
  }

  lemma AttachedListed(t: Topo, p: Addr, d: Side, z: Addr)
    requires Listed(t) && FreeSlot(t, p, d) && z !in t.span
    ensures Listed(Attached(t, p, d, z))
  {
    var k, t' := GapAt(t, p, d), Attached(t, p, d, z);
    forall i | 0 <= i < |t'.nodes| ensures t'.nodes[i] in t'.span && t'.span[t'.nodes[i]].pos == i {
      if i > k { assert t'.nodes[i] == t.nodes[i - 1]; } else if i < k { assert t'.nodes[i] == t.nodes[i]; }
    }
  }

  lemma AttachedShape(t: Topo, p: Addr, d: Side, z: Addr)
    requires Shape(t) && z != NULL && z !in t.span && FreeSlot(t, p, d)
    ensures Shape(Attached(t, p, d, z))
  {
    var t' := Attached(t, p, d, z);
    AttachedListed(t, p, d, z);
    AttachedLeaf(t, p, d, z);
    forall n | n in t'.span ensures Linked(t', n) {
      if n != z {
        assert Linked(t, n);
        AttachedLeft(t, p, d, z, n);
        AttachedRight(t, p, d, z, n);
        AttachedUp(t, p, d, z, n);
      }
    }
  }

  // The first node of an empty tree.
  ghost function Planted(t: Topo, z: Addr): Topo {
    Topo(z, t.parent[z := NULL], t.left[z := NULL], t.right[z := NULL], [z], map[z := Span(0, 0, 1)])
  }

  // ---------- Splicing out a node with at most one child ----------

  ghost function Narrowed(s: Span, k: int): Span {
    Span(if s.pos > k then s.pos - 1 else s.pos,
         if s.lo > k then s.lo - 1 else s.lo,
         if s.hi > k then s.hi - 1 else s.hi)
  }

  ghost function OnlyKid(t: Topo, n: Addr): Addr {
    if Get(t.left, n) == NULL then Get(t.right, n) else Get(t.left, n)
  }

  ghost predicate CanSplice(t: Topo, n: Addr) {
    && Linked(t, n) && (Get(t.left, n) == NULL || Get(t.right, n) == NULL)
    && (Up(t, n) == NULL <==> n == t.root)
    && (Up(t, n) != NULL ==> Linked(t, Up(t, n)))
  }

  ghost function Spliced(t: Topo, n: Addr): (t': Topo)
    requires n in t.span && 0 <= t.span[n].pos < |t.nodes|
  {
    var x, p, k := OnlyKid(t, n), Up(t, n), t.span[n].pos;
    Topo(if p == NULL then x else t.root,
         if x == NULL then t.parent else t.parent[x := p],
         if p != NULL && Get(t.left, p) == n then t.left[p := x] else t.left,
         if p != NULL && Get(t.left, p) != n then t.right[p := x] else t.right,
         t.nodes[..k] + t.nodes[k + 1..],
         map m | m in t.span && m != n :: Narrowed(t.span[m], k))
  }

  lemma SplicedLeft(t: Topo, n: Addr, m: Addr)
    requires CanSplice(t, n) && Linked(t, m) && m != n
    ensures LeftOk(Spliced(t, n), m)
  {
  }

  lemma SplicedAt(t: Topo, n: Addr, m: Addr)
    requires CanSplice(t, n) && Linked(t, m) && m != n
    ensures At(Spliced(t, n), m)
  {
  }

  lemma SplicedRight(t: Topo, n: Addr, m: Addr)
    requires CanSplice(t, n) && Linked(t, m) && m != n
    ensures RightOk(Spliced(t, n), m)
  {
  }

  lemma SplicedUp(t: Topo, n: Addr, m: Addr)
    requires CanSplice(t, n) && Linked(t, m) && m != n
    ensures UpOk(Spliced(t, n), m)
  {
  }

  lemma SplicedListed(t: Topo, n: Addr)
    requires Listed(t) && CanSplice(t, n)
    ensures Listed(Spliced(t, n))
  {
    var k, t' := t.span[n].pos, Spliced(t, n);
    forall i | 0 <= i < |t'.nodes| ensures t'.nodes[i] in t'.span && t'.span[t'.nodes[i]].pos == i {
      if i >= k { assert t'.nodes[i] == t.nodes[i + 1]; } else { assert t'.nodes[i] == t.nodes[i]; }
    }
  }

  lemma SplicedShape(t: Topo, n: Addr)
    requires Shape(t) && CanSplice(t, n)
    ensures Shape(Spliced(t, n))
  {
    var t' := Spliced(t, n);
    SplicedListed(t, n);
    forall m | m in t'.span ensures Linked(t', m) {
      assert Linked(t, m);
      SplicedAt(t, n, m);
      SplicedLeft(t, n, m);
      SplicedRight(t, n, m);
      SplicedUp(t, n, m);
    }
  }

  // ---------- One node taking the place of another ----------

  ghost predicate CanReplace(t: Topo, n: Addr, y: Addr) {
    && Linked(t, n) && y != NULL && y !in t.span
    && (Up(t, n) == NULL <==> n == t.root)
    && (Up(t, n) != NULL ==> Linked(t, Up(t, n)))
    && Get(t.left, n) != NULL
  }

  ghost function Replaced(t: Topo, n: Addr, y: Addr): (t': Topo)
    requires n in t.span && 0 <= t.span[n].pos < |t.nodes|
  {
    var p, l, r, k := Up(t, n), Get(t.left, n), Get(t.right, n), t.span[n].pos;
    Topo(if p == NULL then y else t.root,
         (if r == NULL then t.parent else t.parent[r := y])[y := p][l := y],
         (if p != NULL && Get(t.left, p) == n then t.left[p := y] else t.left)[y := l],
         (if p != NULL && Get(t.left, p) != n then t.right[p := y] else t.right)[y := r],
         t.nodes[k := y],
         map m | m in t.span.Keys + {y} && m != n :: if m == y then t.span[n] else t.span[m])
  }

  lemma ReplacedLinked(t: Topo, n: Addr, y: Addr, m: Addr)
    requires CanReplace(t, n, y) && Linked(t, m) && m != n
    ensures Linked(Replaced(t, n, y), m)
  {
  }

  lemma ReplacedSelf(t: Topo, n: Addr, y: Addr)
    requires CanReplace(t, n, y)
    ensures Linked(Replaced(t, n, y), y)
  {
  }

  lemma ReplacedListed(t: Topo, n: Addr, y: Addr)
    requires Shape(t) && CanReplace(t, n, y)
    ensures Listed(Replaced(t, n, y)) && RootOk(Replaced(t, n, y))
  {
    var t', k := Replaced(t, n, y), t.span[n].pos;
    if t.root != NULL && t.root != n { assert Linked(t, t.root); }
    forall i | 0 <= i < |t'.nodes| ensures t'.nodes[i] in t'.span && t'.span[t'.nodes[i]].pos == i {
      assert i != k ==> t'.nodes[i] == t.nodes[i];
    }
  }

  lemma ReplacedShape(t: Topo, n: Addr, y: Addr)
    requires Shape(t) && CanReplace(t, n, y)
    ensures Shape(Replaced(t, n, y))
  {
    var t' := Replaced(t, n, y);
    ReplacedListed(t, n, y);
    ReplacedSelf(t, n, y);
    forall m | m in t'.span ensures Linked(t', m) {
      if m != y {
        assert Linked(t, m);
        ReplacedLinked(t, n, y, m);
      }
    }
  }

  // ---------- Moving the in-order successor into a node's place ----------

  // What `transplant` writes.
  ghost function Transplanted(t: Topo, u: Addr, v: Addr): Topo {
    var p := Up(t, u);
    t.(root := if p == NULL then v else t.root,
       left := if p != NULL && Get(t.left, p) == u then t.left[p := v] else t.left,
       right := if p != NULL && Get(t.left, p) != u then t.right[p := v] else t.right,
       parent := if v == NULL then t.parent else t.parent[v := p])
  }

  // The writes that move the successor `y` of `n` into its place, in order.
  ghost function Moved(t: Topo, n: Addr, y: Addr): Topo {
    var x := Get(t.right, y);
    var t1 := if Up(t, y) == n then (if x == NULL then t else t.(parent := t.parent[x := y]))
              else var s := Transplanted(t, y, x);
                   s.(right := s.right[y := Get(s.right, n)], parent := s.parent[Get(s.right, n) := y]);
    var t2 := Transplanted(t1, n, y);
    t2.(left := t2.left[y := Get(t2.left, n)], parent := t2.parent[Get(t2.left, n) := y])
  }

  ghost predicate IsSuccessor(t: Topo, n: Addr, y: Addr) {
    && Linked(t, n) && Linked(t, y) && Get(t.left, n) != NULL && Get(t.right, n) != NULL
    && Get(t.left, y) == NULL && t.span[y].pos == t.span[n].pos + 1
    && Linked(t, Get(t.left, n)) && Linked(t, Get(t.right, n))
    && Up(t, y) != NULL && Linked(t, Up(t, y)) && (Up(t, n) != NULL ==> Linked(t, Up(t, n)))
    && (Up(t, n) == NULL <==> n == t.root)
  }

  // What the pointer writes need to know about the addresses involved.
  ghost predicate Apart(t: Topo, n: Addr, y: Addr) {
    var p := Up(t, y);
    && n != y && p != y && y != NULL && Up(t, n) !in {n, y} && Get(t.right, y) !in {n, y}
    && Get(t.left, n) !in {NULL, n, y}
    && Get(t.left, y) == NULL && Get(t.right, n) !in {NULL, n} && p != NULL
    && (Get(t.right, y) != NULL ==> Get(t.right, y) !in {Get(t.right, n), Get(t.left, n)})
    && (if p == n then Get(t.right, n) == y else Get(t.left, p) == y && p != Up(t, n))
    && y in t.span && 0 <= t.span[y].pos < |t.nodes|
    && n in Spliced(t, y).span && 0 <= Spliced(t, y).span[n].pos < |t.nodes| - 1
  }

  lemma SuccessorApart(t: Topo, n: Addr, y: Addr)
    requires IsSuccessor(t, n, y)
    ensures Apart(t, n, y)
  {
  }

  lemma MovedLeft(t: Topo, n: Addr, y: Addr, m: Addr)
    requires Apart(t, n, y)
    ensures Get(Moved(t, n, y).left, m) == Get(Replaced(Spliced(t, y), n, y).left, m)
  {
  }

  lemma MovedRight(t: Topo, n: Addr, y: Addr, m: Addr)
    requires Apart(t, n, y) && m != n
    ensures Get(Moved(t, n, y).right, m) == Get(Replaced(Spliced(t, y), n, y).right, m)
  {
  }

  lemma MovedUp(t: Topo, n: Addr, y: Addr, m: Addr)
    requires Apart(t, n, y) && m != n
    ensures Up(Moved(t, n, y), m) == Up(Replaced(Spliced(t, y), n, y), m)
    ensures Moved(t, n, y).root == Replaced(Spliced(t, y), n, y).root
  {
  }

  // Unlinking the successor and giving it the place of `n` removes `n` from the order.
  lemma SuccessorMoves(t: Topo, n: Addr, y: Addr)
    requires IsSuccessor(t, n, y) && CanSplice(t, y) && CanReplace(Spliced(t, y), n, y)
    ensures var t2, k := Replaced(Spliced(t, y), n, y), t.span[n].pos;
      t2.nodes == t.nodes[..k] + t.nodes[k + 1..] && t2.span.Keys == t.span.Keys - {n}
  {
  }

  // ---------- Links of nodes outside the tree do not matter ----------

  ghost predicate Agree(t: Topo, t': Topo) {
    && t'.root == t.root && t'.nodes == t.nodes && t'.span == t.span
    && forall n {:trigger Linked(t, n)} {:trigger SameLinks(t, t', n)} :: n in t.span ==> SameLinks(t, t', n)
  }

  ghost predicate SameLinks(t: Topo, t': Topo, n: Addr) {
    Get(t'.left, n) == Get(t.left, n) && Get(t'.right, n) == Get(t.right, n) && Up(t', n) == Up(t, n)
  }

  lemma AgreeShape(t: Topo, t': Topo)
    requires Shape(t) && Agree(t, t')
    ensures Shape(t')
  {
    if t.root != NULL { assert Linked(t, t.root); }
    forall n | n in t'.span ensures Linked(t', n) {
      assert Linked(t, n);
      if Up(t, n) != NULL { assert Linked(t, Up(t, n)); }
      if Get(t.left, n) != NULL { assert Linked(t, Get(t.left, n)); }
      if Get(t.right, n) != NULL { assert Linked(t, Get(t.right, n)); }
    }
  }

  // ---------- What a rotation changes, for either side ----------

  // `y`, the child of `x` on the side away from `d`, moved up into the place of `x`.
  ghost predicate Pivoted(t: Topo, t': Topo, x: Addr, d: Side) {
    var o := Other(d);
    var y := Kid(t, x, o);
    && x in t.span && y in t.span && x != y && t'.nodes == t.nodes && t'.span.Keys == t.span.Keys
    && t'.root == (if t.root == x then y else t.root)
    && Kid(t', x, d) == Kid(t, x, d) && Kid(t', x, o) == Kid(t, y, d) && Up(t', x) == y
    && Kid(t', y, d) == x && Kid(t', y, o) == Kid(t, y, o) && Up(t', y) == Up(t, x)
    && t'.span[y].lo == t.span[x].lo && t'.span[y].hi == t.span[x].hi
    && (forall n {:trigger Linked(t, n)} {:trigger Elsewhere(t, t', x, y, n)} :: n in t.span && n != x && n != y ==>
         Elsewhere(t, t', x, y, n))
  }

  ghost predicate Elsewhere(t: Topo, t': Topo, x: Addr, y: Addr, n: Addr) {
    && n in t.span && n in t'.span && t'.span[n] == t.span[n]
    && Get(t'.left, n) == (if Get(t.left, n) == x then y else Get(t.left, n))
    && Get(t'.right, n) == (if Get(t.right, n) == x then y else Get(t.right, n))
    && (Up(t, n) != y ==> Up(t', n) == Up(t, n))
  }

  lemma RotatedLeftPivots(t: Topo, x: Addr)
    requires Shape(t) && CanRotateLeft(t, x)
    ensures Pivoted(t, RotatedLeft(t, x), x, Left)
  {
    var t', y := RotatedLeft(t, x), Get(t.right, x);
    forall n | n in t.span && n != x && n != y ensures Elsewhere(t, t', x, y, n) {
      assert Linked(t, n);
    }
  }

  lemma RotatedRightPivots(t: Topo, x: Addr)
    requires Shape(t) && CanRotateRight(t, x)
    ensures Pivoted(t, RotatedRight(t, x), x, Right)
  {
    var t', y := RotatedRight(t, x), Get(t.left, x);
    forall n | n in t.span && n != x && n != y ensures Elsewhere(t, t', x, y, n) {
      assert Linked(t, n);
    }
  }
}
