/** The map of engine/pkg/utils/maps/maps.go, on linked nodes. */
module TreeMap {
  import opened TreeShape
  import opened TreeHeap
  import opened TreeOrder

  /** `compare` is the order of the key type, `zero` and `nil` the zero values of Go's types;
      `tree` and `nodes` are what the linked nodes represent. */
  class Map<K(!new), V> {
    const compare: (K, K) -> int
    const zero: K
    const nil: V
    var root: Node?<K, V>
    var size: nat
    ghost var nodes: set<Node<K, V>>
    ghost var tree: Tree<K, V>

    constructor (compare: (K, K) -> int, zero: K, nil: V)
      requires TotalOrder(compare)
      ensures Valid() && Contents() == map[] && size == 0 && nodes == {}
      ensures this.compare == compare && this.zero == zero && this.nil == nil
    {
      this.compare, this.zero, this.nil := compare, zero, nil;
      root, size, nodes, tree := null, 0, {}, Nil;
    }

    /** The search tree: links, order, balance and count. */
    ghost predicate Valid()
      reads this, nodes
    {
      && TotalOrder(compare) && At(Top, tree) && RedBlack(tree)
      && Sorted(compare, Entries(tree)) && size == |Entries(tree)|
    }

    /** The finite map it represents. */
    ghost function Contents(): map<K, V>
      reads this`tree
    {
      ToMap(Entries(tree))
    }

    /** What the nodes of the tree hold. */
    ghost function Heap(): Store<K, V>
      reads this`nodes, nodes
    {
      map n | n in nodes :: Cell(n.red, n.key, n.value, n.left, n.right, n.parent)
    }

    /** The nodes are the tree `Plug(c, t)`, seen from the focus `t`. */
    ghost predicate At(c: Path<K, V>, t: Tree<K, V>)
      reads this`root, this`nodes, nodes
    {
      root == RootOf(c, Ref(t)) && Stored(Heap(), c, t)
    }

    /** The four assignments to a node of the tree, as updates of the store. */
    method SetLeft(n: Node<K, V>, x: Node?<K, V>)
      requires n in nodes
      modifies n`left
      ensures Heap() == old(Heap())[n := old(Heap())[n].(left := x)]
    {
      n.left := x;
    }

    method SetRight(n: Node<K, V>, x: Node?<K, V>)
      requires n in nodes
      modifies n`right
      ensures Heap() == old(Heap())[n := old(Heap())[n].(right := x)]
    {
      n.right := x;
    }

    method SetParent(n: Node<K, V>, x: Node?<K, V>)
      requires n in nodes
      modifies n`parent
      ensures Heap() == old(Heap())[n := old(Heap())[n].(parent := x)]
    {
      n.parent := x;
    }

    method SetRed(n: Node<K, V>, x: bool)
      requires n in nodes
      modifies n`red
      ensures Heap() == old(Heap())[n := old(Heap())[n].(red := x)]
    {
      n.red := x;
    }

    method ReplaceNode(prior: Node<K, V>, next: Node?<K, V>, ghost c: Path<K, V>)
      requires prior in nodes && (next != null ==> next in nodes) && (c.Below? ==> c.node in nodes && c.node != next)
      requires prior.parent == ParentOf(c) && (c.Below? ==> (c.leftSide <==> prior == c.node.left))
      modifies this`root, nodes
      ensures Heap() == Replaced(old(Heap()), c, next)
      ensures root == if c.Top? then next else old(root)
    {
      if prior.parent == null {
        root := next;
      } else {
        if prior == prior.parent.left { SetLeft(prior.parent, next); } else { SetRight(prior.parent, next); }
      }
      if next != null { SetParent(next, prior.parent); }
    }

    /** The store holds the fields of the nodes. */
    lemma Fields(n: Node<K, V>)
      requires n in nodes
      ensures n in Heap() && Heap()[n] == Cell(n.red, n.key, n.value, n.left, n.right, n.parent)
    {
    }

    lemma AllNodes()
      ensures Heap().Keys == nodes
    {
    }

    method RotateLeft(node: Node<K, V>, ghost c: Path<K, V>, ghost t: Tree<K, V>)
      requires At(c, t) && t.Bin? && t.node == node && t.right.Bin?
      modifies this`root, nodes
      ensures At(c, TreeShape.RotateLeft(t))
    {
      hide Linked, PathLinked, Apart, PathNodes, Nodes, Replaced, Stored, RootOf, Heap;
      LeftRotatedStored(Heap(), c, t);
      LeftRotatedFacts(Heap(), c, t);
      RootMoved(c, t.node, t.right.node);
      AllNodes();
      Fields(node);
      if c.Below? { Fields(c.node); }
      var right := node.right;
      ReplaceNode(node, right, c);
      Fields(right);
      SetRight(node, right.left);
      Fields(right);
      if right.left != null { SetParent(right.left, node); }
      SetLeft(right, node);
      SetParent(node, right);
    }

    method RotateRight(node: Node<K, V>, ghost c: Path<K, V>, ghost t: Tree<K, V>)
      requires At(c, t) && t.Bin? && t.node == node && t.left.Bin?
      modifies this`root, nodes
      ensures At(c, TreeShape.RotateRight(t))
    {
      hide Linked, PathLinked, Apart, PathNodes, Nodes, Replaced, Stored, RootOf, Heap;
      RightRotatedStored(Heap(), c, t);
      RightRotatedFacts(Heap(), c, t);
      RootMoved(c, t.node, t.left.node);
      AllNodes();
      Fields(node);
      if c.Below? { Fields(c.node); }
      var left := node.left;
      ReplaceNode(node, left, c);
      Fields(left);
      SetLeft(node, left.right);
      Fields(left);
      if left.right != null { SetParent(left.right, node); }
      SetRight(left, node);
      SetParent(node, left);
    }

    // ---- Moving the focus

    lemma Climb(c: Path<K, V>, t: Tree<K, V>)
      requires c.Below?
      ensures At(c, t) <==> At(c.up, Join(c, t))
    {
      Moved(Heap(), c, t);
    }

    lemma Cross(c: Path<K, V>, t: Tree<K, V>)
      requires c.Below?
      ensures At(c, t) <==> At(Across(c, t), c.other)
    {
      assert Join(Across(c, t), c.other) == Join(c, t);
      Climb(c, t);
      Climb(Across(c, t), c.other);
    }

    lemma {:induction false} Whole(c: Path<K, V>, t: Tree<K, V>)
      ensures At(c, t) <==> At(Top, Plug(c, t))
    {
      if c.Below? {
        Climb(c, t);
        Whole(c.up, Join(c, t));
      }
    }

    /** The fields read around the focus. */
    lemma Look(c: Path<K, V>, t: Tree<K, V>)
      requires At(c, t) && t.Bin?
      ensures var n := t.node;
              && n in nodes && n.red == t.red && n.key == t.key && n.value == t.value && n.parent == ParentOf(c)
              && n.left == Ref(t.left) && n.right == Ref(t.right)
      ensures c.Below? ==>
                && c.node in nodes && c.node.red == c.red && c.node.key == c.key && c.node.value == c.value
                && c.node.parent == ParentOf(c.up)
                && (c.node.left == t.node <==> c.leftSide) && (c.node.right == t.node <==> !c.leftSide)
                && (if c.leftSide then c.node.right else c.node.left) == Ref(c.other)
      ensures c.Below? && c.other.Bin? ==>
                var s := c.other;
                s.node in nodes && s.node.red == s.red && s.node.left == Ref(s.left) && s.node.right == Ref(s.right)
    {
      hide Stored;
      Around(Heap(), c, t);
    }

    /** Colours read as nodeColor does: a missing node is black. */
    static function NodeRed(n: Node?<K, V>): bool
      reads n
    {
      n != null && n.red
    }

    method Paint(node: Node<K, V>, red: bool, ghost c: Path<K, V>, ghost t: Tree<K, V>)
      requires At(c, t) && t.Bin? && t.node == node
      modifies nodes
      ensures At(c, TreeShape.Paint(t, red)) && root == old(root)
    {
      hide Stored;
      Repainted(Heap(), c, t, TreeShape.Paint(t, red));
      Around(Heap(), c, t);
      SetRed(node, red);
    }

    // ---- Rebalancing after an insertion

    method InsertCase1(node: Node<K, V>, ghost c: Path<K, V>, ghost t: Tree<K, V>)
      requires At(c, t) && t.Bin? && t.node == node && BlackTop(c)
      modifies this`root, nodes
      ensures At(Top, InsertFix(c, t))
      decreases c, 5
    {
      Look(c, t);
      if node.parent == null {
        Paint(node, false, c, t);
      } else {
        InsertCase2(node, c, t);
      }
    }

    method InsertCase2(node: Node<K, V>, ghost c: Path<K, V>, ghost t: Tree<K, V>)
      requires At(c, t) && t.Bin? && t.node == node && BlackTop(c) && c.Below?
      modifies this`root, nodes
      ensures At(Top, InsertFix(c, t))
      decreases c, 4
    {
      Look(c, t);
      Whole(c, t);
      if !NodeRed(node.parent) { return; }
      InsertCase3(node, c, t);
    }

    /** The focus has a grandparent; its uncle is the sibling of its parent. */
    method Uncle(node: Node<K, V>, ghost c: Path<K, V>, ghost t: Tree<K, V>) returns (uncle: Node?<K, V>)
      requires At(c, t) && t.Bin? && t.node == node
      ensures uncle == if c.Below? && c.up.Below? then Ref(c.up.other) else null
    {
      Look(c, t);
      if node.parent == null || node.parent.parent == null { return null; }
      Climb(c, t);
      uncle := Sibling(node.parent, c.up, Join(c, t));
    }

    method Sibling(node: Node<K, V>, ghost c: Path<K, V>, ghost t: Tree<K, V>) returns (sibling: Node?<K, V>)
      requires At(c, t) && t.Bin? && t.node == node
      ensures sibling == if c.Below? then Ref(c.other) else null
    {
      Look(c, t);
      if node.parent == null { return null; }
      if node == node.parent.left { return node.parent.right; }
      return node.parent.left;
    }

    method InsertCase3(node: Node<K, V>, ghost c: Path<K, V>, ghost t: Tree<K, V>)
      requires At(c, t) && t.Bin? && t.node == node && BlackTop(c) && c.Below? && c.red
      modifies this`root, nodes
      ensures At(Top, InsertFix(c, t))
      decreases c, 3
    {
      hide Stored;
      var uncle := Uncle(node, c, t);
      Climb(c, t);
      Look(c, t);
      Look(c.up, Join(c, t));
      if NodeRed(uncle) {
        var grandparent := Recolour(node, uncle, c, t);
        assert BlackTop(c.up);
        InsertCase1(grandparent, c.up.up, Recoloured(c, t));
      } else {
        InsertCase4(node, c, t);
        Whole(c.up.up, Lifted(c.up, Outer(c, t)));
      }
    }

    /** insertCase3's assignments. */
    method Recolour(node: Node<K, V>, uncle: Node<K, V>, ghost c: Path<K, V>, ghost t: Tree<K, V>)
      returns (grandparent: Node<K, V>)
      requires At(c, t) && t.Bin? && t.node == node && c.Below? && c.up.Below? && c.up.other.Bin?
      requires c.up.other.node == uncle
      modifies this`root, nodes
      ensures At(c.up.up, Recoloured(c, t)) && grandparent == c.up.node
    {
      hide Stored;
      ghost var p := Join(c.(red := false), t);
      ghost var g := c.up.(other := TreeShape.Paint(c.up.other, false));
      Climb(c, t);
      Look(c, t);
      Paint(node.parent, false, c.up, Join(c, t));
      Cross(c.up, p);
      Paint(uncle, false, Across(c.up, p), c.up.other);
      Cross(Across(c.up, p), g.other);
      assert Across(Across(c.up, p), g.other) == g;
      Climb(g, p);
      Climb(c.(red := false, up := g), t);
      Look(c.(red := false, up := g), t);
      grandparent := node.parent.parent;
      Paint(grandparent, true, c.up.up, Join(g, p));
    }

    method InsertCase4(node: Node<K, V>, ghost c: Path<K, V>, ghost t: Tree<K, V>)
      requires At(c, t) && t.Bin? && t.node == node && c.Below? && c.up.Below?
      modifies this`root, nodes
      ensures At(c.up.up, Lifted(c.up, Outer(c, t)))
    {
      hide Stored;
      Look(c, t);
      Climb(c, t);
      Look(c.up, Join(c, t));
      var grandparent := node.parent.parent;
      ghost var p := Outer(c, t);
      if node == node.parent.right && node.parent == grandparent.left {
        RotateLeft(node.parent, c.up, Join(c, t));
        Look(c.up, p);
        Climb(Left(c.up, p), p.left);
        InsertCase5(node.left, Left(c.up, p), p.left);
      } else if node == node.parent.left && node.parent == grandparent.right {
        RotateRight(node.parent, c.up, Join(c, t));
        Look(c.up, p);
        Climb(Right(c.up, p), p.right);
        InsertCase5(node.right, Right(c.up, p), p.right);
      } else {
        InsertCase5(node, c, t);
      }
    }

    method InsertCase5(node: Node<K, V>, ghost c: Path<K, V>, ghost t: Tree<K, V>)
      requires At(c, t) && t.Bin? && t.node == node && c.Below? && c.up.Below? && c.leftSide == c.up.leftSide
      modifies this`root, nodes
      ensures At(c.up.up, Lifted(c.up, Join(c, t)))
    {
      hide Stored;
      ghost var p := Join(c.(red := false), t);
      Climb(c, t);
      Look(c, t);
      Paint(node.parent, false, c.up, Join(c, t));
      Climb(c.(red := false), t);
      Look(c.(red := false), t);
      var grandparent := node.parent.parent;
      Climb(c.up, p);
      Paint(grandparent, true, c.up.up, Join(c.up, p));
      Climb(c.up.(red := true), p);
      Climb(c.(red := false, up := c.up.(red := true)), t);
      Look(c.(red := false, up := c.up.(red := true)), t);
      Look(c.up.(red := true), p);
      if node == node.parent.left && node.parent == grandparent.left {
        RotateRight(grandparent, c.up.up, Join(c.up.(red := true), p));
      } else if node == node.parent.right && node.parent == grandparent.right {
        RotateLeft(grandparent, c.up.up, Join(c.up.(red := true), p));
      }
    }

    // ---- Rebalancing after a deletion

    method PaintParent(node: Node<K, V>, red: bool, ghost c: Path<K, V>, ghost t: Tree<K, V>)
      requires At(c, t) && t.Bin? && t.node == node && c.Below?
      modifies this`root, nodes
      ensures At(c.(red := red), t)
    {
      hide Stored;
      Look(c, t);
      Climb(c, t);
      Paint(node.parent, red, c.up, Join(c, t));
      Climb(c.(red := red), t);
    }

    method PaintSibling(sibling: Node<K, V>, red: bool, ghost c: Path<K, V>, ghost t: Tree<K, V>)
      requires At(c, t) && c.Below? && c.other.Bin? && c.other.node == sibling
      modifies this`root, nodes
      ensures At(c.(other := TreeShape.Paint(c.other, red)), t)
    {
      hide Stored;
      Cross(c, t);
      Paint(sibling, red, Across(c, t), c.other);
      Cross(c.(other := TreeShape.Paint(c.other, red)), t);
    }

    method BlackenLeft(node: Node<K, V>, ghost c: Path<K, V>, ghost t: Tree<K, V>)
      requires At(c, t) && t.Bin? && t.node == node && t.left.Bin?
      modifies this`root, nodes
      ensures At(c, t.(left := TreeShape.Paint(t.left, false)))
    {
      hide Stored;
      Look(c, t);
      Climb(Left(c, t), t.left);
      Paint(node.left, false, Left(c, t), t.left);
      Climb(Left(c, t), TreeShape.Paint(t.left, false));
    }

    method BlackenRight(node: Node<K, V>, ghost c: Path<K, V>, ghost t: Tree<K, V>)
      requires At(c, t) && t.Bin? && t.node == node && t.right.Bin?
      modifies this`root, nodes
      ensures At(c, t.(right := TreeShape.Paint(t.right, false)))
    {
      hide Stored;
      Look(c, t);
      Climb(Right(c, t), t.right);
      Paint(node.right, false, Right(c, t), t.right);
      Climb(Right(c, t), TreeShape.Paint(t.right, false));
    }

    method DeleteCase1(node: Node<K, V>, ghost c: Path<K, V>, ghost t: Tree<K, V>, ghost h: nat)
      requires At(c, t) && t.Bin? && t.node == node && Fits(c, h + 1, false)
      modifies this`root, nodes
      ensures At(DeleteFix(c, h), t)
      decreases Rank(c), 6
    {
      Look(c, t);
      if node.parent == null { return; }
      DeleteCase2(node, c, t, h);
    }

    method DeleteCase2(node: Node<K, V>, ghost c: Path<K, V>, ghost t: Tree<K, V>, ghost h: nat)
      requires At(c, t) && t.Bin? && t.node == node && Fits(c, h + 1, false) && c.Below?
      modifies this`root, nodes
      ensures At(DeleteFix(c, h), t)
      decreases Rank(c), 5
    {
      hide Stored;
      Look(c, t);
      var sibling := Sibling(node, c, t);
      if NodeRed(sibling) {
        LiftSiblingUp(node, sibling, c, t);
        assert Fits(LiftSibling(c), h + 1, false);
        DeleteCase3(node, LiftSibling(c), t, h);
      } else {
        DeleteCase3(node, c, t, h);
      }
    }

    /** deleteCase2's assignments. */
    method LiftSiblingUp(node: Node<K, V>, sibling: Node<K, V>, ghost c: Path<K, V>, ghost t: Tree<K, V>)
      requires At(c, t) && t.Bin? && t.node == node && c.Below? && c.other.Bin? && c.other.node == sibling
      modifies this`root, nodes
      ensures At(LiftSibling(c), t)
    {
      hide Stored;
      PaintParent(node, true, c, t);
      PaintSibling(sibling, false, c.(red := true), t);
      ghost var c' := c.(red := true, other := TreeShape.Paint(c.other, false));
      Look(c', t);
      Climb(c', t);
      if node == node.parent.left { RotateLeft(node.parent, c.up, Join(c', t)); }
      else { RotateRight(node.parent, c.up, Join(c', t)); }
      Climb(LiftSibling(c), t);
      Climb(LiftSibling(c).up, Join(LiftSibling(c), t));
    }

    method DeleteCase3(node: Node<K, V>, ghost c: Path<K, V>, ghost t: Tree<K, V>, ghost h: nat)
      requires At(c, t) && t.Bin? && t.node == node && Fits(c, h + 1, false) && c.Below? && !IsRed(c.other)
      modifies this`root, nodes
      ensures At(DeleteFix(c, h), t)
      decreases Rank(c), 4
    {
      hide Stored;
      Look(c, t);
      var sibling := Sibling(node, c, t);
      SeeNephews(c, t);
      if !NodeRed(node.parent) && !NodeRed(sibling) && !NodeRed(sibling.left) && !NodeRed(sibling.right) {
        PaintSibling(sibling, true, c, t);
        ghost var c' := c.(other := TreeShape.Paint(c.other, true));
        Look(c', t);
        Climb(c', t);
        DeleteCase1(node.parent, c.up, Join(c', t), h + 1);
        Climb(c'.(up := DeleteFix(c.up, h + 1)), t);
      } else {
        DeleteCase4(node, c, t, h);
      }
    }

    /** The colours of the sibling's children. */
    lemma SeeNephews(c: Path<K, V>, t: Tree<K, V>)
      requires At(c, t) && c.Below? && c.other.Bin?
      ensures var s := c.other; s.node.left == Ref(s.left) && s.node.right == Ref(s.right)
      ensures NodeRed(c.other.node.left) == IsRed(c.other.left) && NodeRed(c.other.node.right) == IsRed(c.other.right)
    {
      Cross(c, t);
      var c', s := Across(c, t), c.other;
      Look(c', s);
      if s.left.Bin? { Climb(Left(c', s), s.left); Look(Left(c', s), s.left); }
      if s.right.Bin? { Climb(Right(c', s), s.right); Look(Right(c', s), s.right); }
    }

    method DeleteCase4(node: Node<K, V>, ghost c: Path<K, V>, ghost t: Tree<K, V>, ghost h: nat)
      requires At(c, t) && t.Bin? && t.node == node && Fits(c, h + 1, false) && c.Below? && !IsRed(c.other)
      requires !c.red ==> !AllBlack(c.other)
      modifies this`root, nodes
      ensures At(DeleteEnd(c, h), t)
    {
      hide Stored;
      Look(c, t);
      var sibling := Sibling(node, c, t);
      SeeNephews(c, t);
      if NodeRed(node.parent) && !NodeRed(sibling) && !NodeRed(sibling.left) && !NodeRed(sibling.right) {
        PaintSibling(sibling, true, c, t);
        PaintParent(node, false, c.(other := TreeShape.Paint(c.other, true)), t);
      } else {
        DeleteCase5(node, c, t, h);
      }
    }

    method DeleteCase5(node: Node<K, V>, ghost c: Path<K, V>, ghost t: Tree<K, V>, ghost h: nat)
      requires At(c, t) && t.Bin? && t.node == node && Fits(c, h + 1, false) && c.Below? && !IsRed(c.other)
      requires !AllBlack(c.other)
      modifies this`root, nodes
      ensures At(Borrow(Straighten(c)), t)
    {
      hide Stored;
      StraightenFits(c, h);
      Look(c, t);
      var sibling := Sibling(node, c, t);
      SeeNephews(c, t);
      if node == node.parent.left && !NodeRed(sibling) && NodeRed(sibling.left) && !NodeRed(sibling.right) {
        PaintSibling(sibling, true, c, t);
        ghost var c', s := c.(other := TreeShape.Paint(c.other, true)), TreeShape.Paint(c.other, true);
        Cross(c', t);
        BlackenLeft(sibling, Across(c, t), s);
        RotateRight(sibling, Across(c, t), s.(left := TreeShape.Paint(s.left, false)));
        Cross(Straighten(c), t);
      } else if node == node.parent.right && !NodeRed(sibling) && NodeRed(sibling.right) && !NodeRed(sibling.left) {
        PaintSibling(sibling, true, c, t);
        ghost var c', s := c.(other := TreeShape.Paint(c.other, true)), TreeShape.Paint(c.other, true);
        Cross(c', t);
        BlackenRight(sibling, Across(c, t), s);
        RotateLeft(sibling, Across(c, t), s.(right := TreeShape.Paint(s.right, false)));
        Cross(Straighten(c), t);
      }
      DeleteCase6(node, Straighten(c), t);
    }

    method DeleteCase6(node: Node<K, V>, ghost c: Path<K, V>, ghost t: Tree<K, V>)
      requires At(c, t) && t.Bin? && t.node == node && c.Below? && c.other.Bin?
      requires if c.leftSide then IsRed(c.other.right) else IsRed(c.other.left)
      modifies this`root, nodes
      ensures At(Borrow(c), t)
    {
      hide Stored;
      Look(c, t);
      var sibling := Sibling(node, c, t);
      PaintSibling(sibling, NodeRed(node.parent), c, t);
      ghost var s := TreeShape.Paint(c.other, c.red);
      PaintParent(node, false, c.(other := s), t);
      ghost var c' := c.(other := s, red := false);
      Look(c', t);
      SeeNephews(c', t);
      Cross(c', t);
      if node == node.parent.left && NodeRed(sibling.right) {
        BlackenRight(sibling, Across(c', t), s);
        BorrowLeft(node, c, t);
      } else if NodeRed(sibling.left) {
        BlackenLeft(sibling, Across(c', t), s);
        BorrowRight(node, c, t);
      }
    }

    /** deleteCase6's rotations, with the focus taken back to the node. */
    method BorrowLeft(node: Node<K, V>, ghost c: Path<K, V>, ghost t: Tree<K, V>)
      requires t.Bin? && t.node == node && c.Below? && c.other.Bin? && c.leftSide && c.other.right.Bin?
      requires IsRed(c.other.right)
      requires At(Across(c.(red := false), t), c.other.(red := c.red, right := TreeShape.Paint(c.other.right, false)))
      modifies this`root, nodes
      ensures At(Borrow(c), t)
    {
      hide Stored;
      ghost var d := c.(red := false, other := c.other.(red := c.red, right := TreeShape.Paint(c.other.right, false)));
      Cross(d, t);
      Look(d, t);
      Climb(d, t);
      RotateLeft(node.parent, c.up, Join(d, t));
      Climb(Borrow(c), t);
      Climb(Borrow(c).up, Join(Borrow(c), t));
    }

    method BorrowRight(node: Node<K, V>, ghost c: Path<K, V>, ghost t: Tree<K, V>)
      requires t.Bin? && t.node == node && c.Below? && c.other.Bin? && !c.leftSide && c.other.left.Bin?
      requires IsRed(c.other.left)
      requires At(Across(c.(red := false), t), c.other.(red := c.red, left := TreeShape.Paint(c.other.left, false)))
      modifies this`root, nodes
      ensures At(Borrow(c), t)
    {
      hide Stored;
      ghost var d := c.(red := false, other := c.other.(red := c.red, left := TreeShape.Paint(c.other.left, false)));
      Cross(d, t);
      Look(d, t);
      Climb(d, t);
      RotateRight(node.parent, c.up, Join(d, t));
      Climb(Borrow(c), t);
      Climb(Borrow(c).up, Join(Borrow(c), t));
    }

    // ---- Searching

    /** The focus is where `key` belongs. */
    ghost predicate Bounds(c: Path<K, V>, key: K)
    {
      AllBelow(compare, Before(c), key) && AllAbove(compare, After(c), key)
    }

    /** One comparison narrows the place of the key. */
    lemma Narrow(c: Path<K, V>, t: Tree<K, V>, key: K)
      requires TotalOrder(compare) && Plug(c, t) == tree && Sorted(compare, Entries(tree)) && t.Bin? && Bounds(c, key)
      ensures Plug(Left(c, t), t.left) == tree && Plug(Right(c, t), t.right) == tree
      ensures compare(key, t.key) < 0 ==> Bounds(Left(c, t), key)
      ensures compare(key, t.key) > 0 ==> Bounds(Right(c, t), key)
    {
      SplitEntries(c, t);
      ChildSequences(c, t);
      hide Sorted, AllBelow, AllAbove, Before, After, Entries, Plug, TotalOrder;
      Beyond(compare, Before(c) + Entries(t.left), Entry(t.key, t.value), Entries(t.right) + After(c), key);
    }

    /** The entries around the one of the focus. */
    lemma SplitEntries(c: Path<K, V>, t: Tree<K, V>)
      requires t.Bin?
      ensures Entries(Plug(c, t)) == (Before(c) + Entries(t.left)) + [Entry(t.key, t.value)]
              + (Entries(t.right) + After(c))
    {
      PlugEntries(c, t);
      Regroup(Before(c), Entries(t.left), Entry(t.key, t.value), Entries(t.right), After(c));
    }

    method Lookup(key: K) returns (node: Node?<K, V>, ghost c: Path<K, V>, ghost t: Tree<K, V>)
      requires Valid()
      ensures At(c, t) && Plug(c, t) == tree && node == Ref(t) && Bounds(c, key)
      ensures node != null ==> t.key == key
      ensures node != null <==> key in Contents()
      ensures node != null ==> node in nodes && node.key == key && node.value == Contents()[key]
    {
      hide Stored, Sorted, RedBlack, ToMap;
      c, t := Top, tree;
      node := root;
      while node != null
        invariant At(c, t) && Plug(c, t) == tree && node == Ref(t) && Bounds(c, key)
        decreases t
      {
        Look(c, t);
        Narrow(c, t, key);
        var compared := compare(key, node.key);
        if compared == 0 {
          FoundEntry(c, t);
          return;
        }
        Climb(Left(c, t), t.left);
        Climb(Right(c, t), t.right);
        if compared < 0 {
          node := node.left;
          c, t := Left(c, t), t.left;
        } else {
          node := node.right;
          c, t := Right(c, t), t.right;
        }
      }
      MissingEntry(c, key);
    }

    method Get(key: K) returns (value: V, found: bool)
      requires Valid()
      ensures found <==> key in Contents()
      ensures value == if found then Contents()[key] else nil
    {
      var node, c, t := Lookup(key);
      if node != null { return node.value, true; }
      return nil, false;
    }

    lemma MissingEntry(c: Path<K, V>, key: K)
      requires TotalOrder(compare) && Plug(c, Nil) == tree && Bounds(c, key)
      ensures key !in Contents() && Entries(tree) == Before(c) + After(c)
    {
      PlugEntries(c, Nil);
      assert Before(c) + Entries<K, V>(Nil) + After(c) == Before(c) + After(c);
      ToMapConcat(Before(c), After(c));
      Absent(compare, Before(c), key);
      Absent(compare, After(c), key);
    }

    lemma FoundEntry(c: Path<K, V>, t: Tree<K, V>)
      requires TotalOrder(compare) && Plug(c, t) == tree && Sorted(compare, Entries(tree)) && t.Bin?
      ensures t.key in Contents() && Contents()[t.key] == t.value
    {
      SplitEntries(c, t);
      ToMapAt(compare, Entries(tree), |Before(c) + Entries(t.left)|);
    }

    // ---- Put

    method Put(key: K, value: V)
      requires Valid()
      modifies this, nodes
      ensures Valid() && Contents() == old(Contents())[key := value] && size == |Contents()|
      ensures old(nodes) <= nodes && fresh(nodes - old(nodes))
    {
      hide Stored, Sorted, RedBlack, ToMap, Entries, Plug, At, Heap, TotalOrder;
      var node, found, atLeft, c, t := Descend(key);
      if found { Overwrite(node, key, value, c, t); } else { Insert(node, atLeft, key, value, c); }
    }

    /** Put's search: the node of the key, or the node it has to hang below and on which side. */
    method Descend(key: K)
      returns (node: Node?<K, V>, found: bool, atLeft: bool, ghost c: Path<K, V>, ghost t: Tree<K, V>)
      requires Valid()
      ensures At(c, t) && Plug(c, t) == tree && Bounds(c, key)
      ensures if found then t.Bin? && node == t.node && t.key == key
              else t == Nil && node == ParentOf(c) && (c.Below? ==> c.leftSide == atLeft)
    {
      hide Stored, Sorted, RedBlack, ToMap;
      c, t := Top, tree;
      node, found, atLeft := root, false, false;
      var placed := node == null;
      while !placed && !found
        invariant At(c, t) && Plug(c, t) == tree && Bounds(c, key)
        invariant placed ==> !found && t == Nil && node == ParentOf(c) && (c.Below? ==> c.leftSide == atLeft)
        invariant !placed ==> node == Ref(t) && node != null && (found ==> t.key == key)
        decreases !placed && !found, t
      {
        Look(c, t);
        Narrow(c, t, key);
        Climb(Left(c, t), t.left);
        Climb(Right(c, t), t.right);
        var compared := compare(key, node.key);
        if compared == 0 {
          found := true;
        } else if compared < 0 {
          if node.left == null { placed, atLeft := true, true; } else { node := node.left; }
          c, t := Left(c, t), t.left;
        } else {
          if node.right == null { placed, atLeft := true, false; } else { node := node.right; }
          c, t := Right(c, t), t.right;
        }
      }
    }

    /** Put on a key that is there. */
    method Overwrite(node: Node<K, V>, key: K, value: V, ghost c: Path<K, V>, ghost t: Tree<K, V>)
      requires Valid() && At(c, t) && Plug(c, t) == tree && t.Bin? && t.node == node && t.key == key
      modifies this`tree, nodes
      ensures Valid() && Contents() == old(Contents())[key := value] && size == |Contents()|
    {
      hide Stored, Sorted, RedBlack, ToMap;
      ghost var t' := t.(key := key, value := value);
      SetEntry(node, key, value, c, t);
      Whole(c, t');
      tree := Plug(c, t');
      OverwriteFacts(c, t, t');
    }

    method SetEntry(node: Node<K, V>, key: K, value: V, ghost c: Path<K, V>, ghost t: Tree<K, V>)
      requires At(c, t) && t.Bin? && t.node == node
      modifies nodes
      ensures At(c, t.(key := key, value := value))
    {
      hide Stored;
      Repainted(Heap(), c, t, t.(key := key, value := value));
      Around(Heap(), c, t);
      node.key := key;
      node.value := value;
      assert Heap() == old(Heap())[node := old(Heap())[node].(red := t.red, key := key, value := value)];
    }

    lemma OverwriteFacts(c: Path<K, V>, t: Tree<K, V>, t': Tree<K, V>)
      requires TotalOrder(compare) && t.Bin? && t'.Bin? && t' == t.(value := t'.value)
      requires RedBlack(Plug(c, t)) && Sorted(compare, Entries(Plug(c, t)))
      ensures RedBlack(Plug(c, t')) && Sorted(compare, Entries(Plug(c, t')))
      ensures ToMap(Entries(Plug(c, t'))) == ToMap(Entries(Plug(c, t)))[t.key := t'.value]
      ensures |Entries(Plug(c, t'))| == |Entries(Plug(c, t))| == |ToMap(Entries(Plug(c, t')))|
    {
      PlugBalanced(c, t);
      PlugBalanced(c, t');
      SplitEntries(c, t);
      SplitEntries(c, t');
      hide Sorted, ToMap, Before, After, Entries, Plug, TotalOrder;
      Overwritten(compare, Before(c) + Entries(t.left), Entry(t.key, t.value), t'.value, Entries(t.right) + After(c));
    }

    /** Put on a key that is not there: hang a red node in and rebalance. */
    method Insert(parent: Node?<K, V>, atLeft: bool, key: K, value: V, ghost c: Path<K, V>)
      requires Valid() && At(c, Nil) && Plug(c, Nil) == tree && Bounds(c, key)
      requires parent == ParentOf(c) && (c.Below? ==> c.leftSide == atLeft)
      modifies this, nodes
      ensures Valid() && Contents() == old(Contents())[key := value] && size == |Contents()|
      ensures old(nodes) <= nodes && fresh(nodes - old(nodes))
    {
      hide Stored, Sorted, RedBlack, ToMap, Entries, Plug, Before, After, InsertFix, TotalOrder;
      var inserted := Attach(parent, atLeft, key, value, c);
      ghost var t := Bin(inserted, true, key, value, Nil, Nil);
      InsertFacts(c, t);
      InsertCase1(inserted, c, t);
      tree := InsertFix(c, t);
      size := size + 1;
    }

    method Attach(parent: Node?<K, V>, atLeft: bool, key: K, value: V, ghost c: Path<K, V>)
      returns (inserted: Node<K, V>)
      requires At(c, Nil) && parent == ParentOf(c) && (c.Below? ==> c.leftSide == atLeft)
      modifies this`root, this`nodes, nodes
      ensures At(c, Bin(inserted, true, key, value, Nil, Nil))
      ensures fresh(inserted) && nodes == old(nodes) + {inserted}
    {
      ghost var h := Heap();
      assert c.Below? ==> c.node in h;
      hide Stored;
      inserted := new Node(key, value);
      GrownStored(h, c, inserted, key, value);
      nodes := nodes + {inserted};
      assert Heap() == h[inserted := Cell(true, key, value, null, null, null)];
      if parent == null {
        root := inserted;
      } else {
        if atLeft { SetLeft(parent, inserted); } else { SetRight(parent, inserted); }
        SetParent(inserted, parent);
      }
      assert Heap() == Grown(h, c, inserted, key, value);
    }

    lemma InsertFacts(c: Path<K, V>, t: Tree<K, V>)
      requires TotalOrder(compare) && IsRed(t) && t.left.Nil? && t.right.Nil? && Bounds(c, t.key)
      requires RedBlack(Plug(c, Nil)) && Sorted(compare, Entries(Plug(c, Nil)))
      ensures BlackTop(c) && RedBlack(InsertFix(c, t)) && Sorted(compare, Entries(InsertFix(c, t)))
      ensures ToMap(Entries(InsertFix(c, t))) == ToMap(Entries(Plug(c, Nil)))[t.key := t.value]
      ensures |Entries(InsertFix(c, t))| == |Entries(Plug(c, Nil))| + 1 == |ToMap(Entries(InsertFix(c, t)))|
    {
      PlugBalanced(c, Nil);
      FitsBlackTop(c, 0, false);
      InsertFixBalanced(c, t);
      InsertFixEntries(c, t);
      InsertOrder(c, t);
    }

    lemma InsertOrder(c: Path<K, V>, t: Tree<K, V>)
      requires TotalOrder(compare) && t.Bin? && t.left.Nil? && t.right.Nil? && Bounds(c, t.key)
      requires Sorted(compare, Entries(Plug(c, Nil)))
      ensures Sorted(compare, Entries(Plug(c, t)))
      ensures ToMap(Entries(Plug(c, t))) == ToMap(Entries(Plug(c, Nil)))[t.key := t.value]
      ensures |Entries(Plug(c, t))| == |Entries(Plug(c, Nil))| + 1 == |ToMap(Entries(Plug(c, t)))|
    {
      LeafEntries(c, t);
      hide Sorted, ToMap, Before, After, Entries, Plug, TotalOrder;
      Inserted(compare, Before(c), Entry(t.key, t.value), After(c));
    }

    lemma LeafEntries(c: Path<K, V>, t: Tree<K, V>)
      requires t.Bin? && t.left.Nil? && t.right.Nil?
      ensures Entries(Plug(c, Nil)) == Before(c) + After(c)
      ensures Entries(Plug(c, t)) == Before(c) + [Entry(t.key, t.value)] + After(c)
    {
      PlugEntries(c, Nil);
      PlugEntries(c, t);
      assert Before(c) + [] == Before(c);
      assert Entries(t) == [Entry(t.key, t.value)];
    }

    // ---- Remove

    lemma Refocus(c: Path<K, V>, t: Tree<K, V>, c': Path<K, V>, t': Tree<K, V>)
      requires Plug(c, t) == Plug(c', t')
      ensures At(c, t) <==> At(c', t')
    {
      Whole(c, t);
      Whole(c', t');
    }

    method MaximumNode(start: Node<K, V>, ghost c: Path<K, V>, ghost t: Tree<K, V>) returns (node: Node<K, V>)
      requires At(c, t) && t.Bin? && t.node == start
      ensures node == MaxTree(t).node
    {
      hide Stored;
      node := start;
      ghost var d, u := c, t;
      Look(d, u);
      while node.right != null
        invariant At(d, u) && u.Bin? && u.node == node && MaxTree(u) == MaxTree(t) && node.right == Ref(u.right)
        decreases u
      {
        Climb(Right(d, u), u.right);
        d, u := Right(d, u), u.right;
        node := node.right;
        Look(d, u);
      }
    }

    /** Takes out a node with at most one child. */
    method TakeOut(node: Node<K, V>, ghost c: Path<K, V>, ghost t: Tree<K, V>)
      requires At(c, t) && t.Bin? && t.node == node && Balanced(t) && Fits(c, Height(t), t.red)
      requires (t.left.Nil? || t.right.Nil?)
      modifies this`root, this`nodes, nodes
      ensures At(Top, Deleted(c, t)) && nodes == old(nodes) - {node}
    {
      hide Stored;
      Look(c, t);
      var child := if node.right == null then node.left else node.right;
      ghost var x := OnlyChild(t);
      ghost var u := t;
      ghost var d := c;
      if !node.red {
        var red := ChildRed(child, c, t);
        Paint(node, red, c, t);
        u := TreeShape.Paint(t, red);
        DeleteCase1(node, c, u, Height(x));
        d := DeleteFix(c, Height(x));
      }
      Unlink(node, child, d, u);
      Whole(d, x);
      if node.parent == null && child != null { Paint(child, false, Top, x); }
    }

    method ChildRed(child: Node?<K, V>, ghost c: Path<K, V>, ghost t: Tree<K, V>) returns (red: bool)
      requires At(c, t) && t.Bin? && (t.left.Nil? || t.right.Nil?) && child == Ref(OnlyChild(t))
      ensures red == IsRed(OnlyChild(t))
    {
      if child != null {
        if t.right.Nil? { Climb(Left(c, t), t.left); Look(Left(c, t), t.left); }
        else { Climb(Right(c, t), t.right); Look(Right(c, t), t.right); }
      }
      red := NodeRed(child);
    }

    method Unlink(node: Node<K, V>, child: Node?<K, V>, ghost c: Path<K, V>, ghost t: Tree<K, V>)
      requires At(c, t) && t.Bin? && t.node == node && (t.left.Nil? || t.right.Nil?) && child == Ref(OnlyChild(t))
      modifies this`root, this`nodes, nodes
      ensures At(c, OnlyChild(t)) && nodes == old(nodes) - {node} && node.parent == ParentOf(c)
    {
      hide Linked, PathLinked, Stored, Nodes, PathNodes, Apart, RootOf, Heap;
      UnlinkedStored(Heap(), c, t);
      RootMoved(c, t.node, child);
      Look(c, t);
      UnlinkFacts(c, t);
      Fields(node);
      ReplaceNode(node, child, c);
      Fields(node);
      Forget(node);
    }

    /** A node that left the tree. */
    ghost method Forget(node: Node<K, V>)
      modifies this`nodes
      ensures nodes == old(nodes) - {node} && Heap() == old(Heap()) - {node}
    {
      nodes := nodes - {node};
    }

    lemma UnlinkFacts(c: Path<K, V>, t: Tree<K, V>)
      requires At(c, t) && t.Bin? && (t.left.Nil? || t.right.Nil?)
      ensures var x := OnlyChild(t); x.Bin? ==> x.node in nodes && x.node != t.node && x.node != ParentOf(c)
    {
      assert Nodes(t) == {t.node} + Nodes(OnlyChild(t));
    }

    /** Taking out the focus `t` of `c` removes `key` from the entries `s`. */
    ghost predicate Removes(c: Path<K, V>, t: Tree<K, V>, s: seq<Entry<K, V>>, key: K)
    {
      && t.Bin? && Balanced(t) && Fits(c, Height(t), t.red) && (t.left.Nil? || t.right.Nil?)
      && var r := Deleted(c, t);
         RedBlack(r) && Sorted(compare, Entries(r)) && ToMap(Entries(r)) == ToMap(s) - {key}
           && |ToMap(Entries(r))| == |Entries(r)| == |s| - 1
    }

    /** Remove on a node with at most one child. */
    lemma RemoveOuter(c: Path<K, V>, t: Tree<K, V>)
      requires TotalOrder(compare) && t.Bin? && RedBlack(Plug(c, t)) && Sorted(compare, Entries(Plug(c, t)))
      requires (t.left.Nil? || t.right.Nil?)
      ensures Removes(c, t, Entries(Plug(c, t)), t.key)
    {
      hide Sorted, ToMap;
      var b, e, a := Before(c) + Entries(t.left), Entry(t.key, t.value), Entries(t.right) + After(c);
      PlugBalanced(c, t);
      DeletedBalanced(c, t);
      DeletedEntries(c, t);
      assert Entries(Deleted(c, t)) == b + a;
      SplitEntries(c, t);
      Dropped(compare, b, e, a);
    }

    /** Remove on a node with two children, after it took over the entry of its predecessor. */
    lemma RemoveInner(c: Path<K, V>, t: Tree<K, V>, t': Tree<K, V>)
      requires TotalOrder(compare) && t.Bin? && t.left.Bin? && RedBlack(Plug(c, t))
      requires Sorted(compare, Entries(Plug(c, t)))
      requires var u := MaxTree(t.left); t' == t.(key := u.key, value := u.value)
      ensures Plug(MaxPath(Left(c, t'), t.left), MaxTree(t.left)) == Plug(c, t')
      ensures Removes(MaxPath(Left(c, t'), t.left), MaxTree(t.left), Entries(Plug(c, t)), t.key)
    {
      hide Sorted, ToMap;
      var u, d := MaxTree(t.left), MaxPath(Left(c, t'), t.left);
      MaxPlug(Left(c, t'), t.left);
      PlugBalanced(c, t);
      PlugBalanced(c, t');
      PlugBalanced(d, u);
      DeletedBalanced(d, u);
      RemoveInnerEntries(c, t, t');
      SplitEntries(c, t);
      Dropped(compare, Before(c) + Entries(t.left), Entry(t.key, t.value), Entries(t.right) + After(c));
    }

    lemma RemoveInnerEntries(c: Path<K, V>, t: Tree<K, V>, t': Tree<K, V>)
      requires t.Bin? && t.left.Bin?
      requires var u := MaxTree(t.left); t' == t.(key := u.key, value := u.value)
      requires var u, d := MaxTree(t.left), MaxPath(Left(c, t'), t.left); Balanced(u) && Fits(d, Height(u), u.red)
      ensures Entries(Deleted(MaxPath(Left(c, t'), t.left), MaxTree(t.left))) == (Before(c) + Entries(t.left))
              + (Entries(t.right) + After(c))
    {
      var u, d := MaxTree(t.left), MaxPath(Left(c, t'), t.left);
      var e := Entry(u.key, u.value);
      MaxPlug(Left(c, t'), t.left);
      DeletedEntries(d, u);
      assert After(d) == [e] + Entries(t.right) + After(c);
      assert Entries(u) == Entries(u.left) + [e];
      JoinPred(Before(d), Entries(u.left), e, Before(c) + Entries(t.left), Entries(t.right), After(c));
    }

    lemma JoinPred(b: seq<Entry<K, V>>, l: seq<Entry<K, V>>, e: Entry<K, V>, bl: seq<Entry<K, V>>, r: seq<Entry<K, V>>,
                   a: seq<Entry<K, V>>)
      requires b + (l + [e]) == bl
      ensures b + l + ([e] + r + a) == bl + (r + a)
    {
    }

    method Remove(key: K)
      requires Valid()
      modifies this, nodes
      ensures Valid() && Contents() == old(Contents()) - {key} && size == |Contents()| && nodes <= old(nodes)
    {
      hide Stored, Sorted, RedBlack, ToMap, Bounds, At, Heap, TotalOrder, Plug, Entries;
      var node, c, t := Lookup(key);
      if node == null {
        ToMapSize(compare, Entries(tree));
        return;
      }
      RemoveFound(node, c, t);
    }

    /** Remove on a key that is there. */
    method RemoveFound(found: Node<K, V>, ghost c0: Path<K, V>, ghost t0: Tree<K, V>)
      requires Valid() && At(c0, t0) && Plug(c0, t0) == tree && t0.Bin? && t0.node == found
      modifies this, nodes
      ensures Valid() && Contents() == old(Contents()) - {t0.key} && size == |Contents()| && nodes <= old(nodes)
    {
      hide Stored, Sorted, RedBlack, ToMap, Balanced, Fits, At, Heap, Entries, Plug, Deleted, TotalOrder, Nodes;
      var node := found;
      ghost var c, t := c0, t0;
      Look(c, t);
      if node.left != null && node.right != null {
        node, c, t := TakeOver(node, c, t);
      } else {
        RemoveOuter(c, t);
      }
      TakeOut(node, c, t);
      tree := Deleted(c, t);
      size := size - 1;
    }

    /** A node with two children takes over the entry of its predecessor, which is then to be
        taken out instead. */
    method TakeOver(node: Node<K, V>, ghost c: Path<K, V>, ghost t: Tree<K, V>)
      returns (pred: Node<K, V>, ghost d: Path<K, V>, ghost u: Tree<K, V>)
      requires TotalOrder(compare) && RedBlack(Plug(c, t)) && Sorted(compare, Entries(Plug(c, t)))
      requires At(c, t) && t.Bin? && t.node == node && t.left.Bin?
      modifies nodes
      ensures At(d, u) && u.Bin? && u.node == pred && Removes(d, u, Entries(Plug(c, t)), t.key)
    {
      hide Stored, Sorted, RedBlack, Removes;
      Look(c, t);
      u := MaxTree(t.left);
      Climb(Left(c, t), t.left);
      pred := MaximumNode(node.left, Left(c, t), t.left);
      MaxPlug(Left(c, t), t.left);
      Refocus(Left(c, t), t.left, MaxPath(Left(c, t), t.left), u);
      Look(MaxPath(Left(c, t), t.left), u);
      SetEntry(node, pred.key, pred.value, c, t);
      ghost var t' := t.(key := u.key, value := u.value);
      d := MaxPath(Left(c, t'), t.left);
      RemoveInner(c, t, t');
      Refocus(c, t', d, u);
    }

    // ---- Floor and Ceiling

    method Floor(key: K) returns (floor: Node?<K, V>, found: bool)
      requires Valid()
      ensures found <==> floor != null
      ensures found <==> exists k :: k in Contents() && compare(k, key) <= 0
      ensures found ==>
                && floor in nodes && IsFloor(compare, Contents(), floor.key, key)
                && floor.value == Contents()[floor.key]
    {
      ghost var c, t := Top, tree;
      assert Bounds(c, key) && Plug(c, t) == tree && Before(c) == [] && After(c) == [];
      hide Stored, RedBlack, ToMap, Sorted, Before, After, Entries, Plug, Nodes, PathNodes, IsFloor, Ends;
      var node := root;
      floor, found := null, false;
      while node != null
        invariant At(c, t) && Plug(c, t) == tree && node == Ref(t) && Bounds(c, key)
        invariant found <==> floor != null
        invariant if found then floor in nodes && Ends(Before(c), Entry(floor.key, floor.value)) else Before(c) == []
        decreases t
      {
        Look(c, t);
        Narrow(c, t, key);
        ChildEdges(c, t);
        Climb(Left(c, t), t.left);
        Climb(Right(c, t), t.right);
        var compared := compare(key, node.key);
        if compared == 0 {
          FoundNearest(c, t, key);
          return node, true;
        } else if compared < 0 {
          node := node.left;
          c, t := Left(c, t), t.left;
        } else {
          floor, found := node, true;
          node := node.right;
          c, t := Right(c, t), t.right;
        }
      }
      MissingEntry(c, key);
      FloorEntry(compare, Before(c), After(c), key);
    }

    method Ceiling(key: K) returns (ceiling: Node?<K, V>, found: bool)
      requires Valid()
      ensures found <==> ceiling != null
      ensures found <==> exists k :: k in Contents() && compare(k, key) >= 0
      ensures found ==>
                && ceiling in nodes && IsCeiling(compare, Contents(), ceiling.key, key)
                && ceiling.value == Contents()[ceiling.key]
    {
      ghost var c, t := Top, tree;
      assert Bounds(c, key) && Plug(c, t) == tree && Before(c) == [] && After(c) == [];
      hide Stored, RedBlack, ToMap, Sorted, Before, After, Entries, Plug, Nodes, PathNodes, IsCeiling, Begins;
      var node := root;
      ceiling, found := null, false;
      while node != null
        invariant At(c, t) && Plug(c, t) == tree && node == Ref(t) && Bounds(c, key)
        invariant found <==> ceiling != null
        invariant if found then ceiling in nodes && Begins(After(c), Entry(ceiling.key, ceiling.value))
                  else After(c) == []
        decreases t
      {
        Look(c, t);
        Narrow(c, t, key);
        ChildEdges(c, t);
        Climb(Left(c, t), t.left);
        Climb(Right(c, t), t.right);
        var compared := compare(key, node.key);
        if compared == 0 {
          FoundNearest(c, t, key);
          return node, true;
        } else if compared < 0 {
          ceiling, found := node, true;
          node := node.left;
          c, t := Left(c, t), t.left;
        } else {
          node := node.right;
          c, t := Right(c, t), t.right;
        }
      }
      MissingEntry(c, key);
      CeilingEntry(compare, Before(c), After(c), key);
    }

    /** A key that is there is its own floor and ceiling. */
    lemma FoundNearest(c: Path<K, V>, t: Tree<K, V>, key: K)
      requires TotalOrder(compare) && Plug(c, t) == tree && Sorted(compare, Entries(tree)) && t.Bin?
      requires compare(key, t.key) == 0
      ensures IsFloor(compare, Contents(), t.key, key) && IsCeiling(compare, Contents(), t.key, key)
      ensures Contents()[t.key] == t.value
      ensures t.key in Contents() && compare(t.key, key) == 0
    {
      hide Sorted, ToMap;
      FoundEntry(c, t);
    }

    // ---- The ends, the count, and emptying

    /** The focus holds the entry at its index. */
    lemma IndexEntry(c: Path<K, V>, t: Tree<K, V>)
      requires t.Bin? && Plug(c, t) == tree
      ensures Index(c, t) < |Entries(tree)| && Entries(tree)[Index(c, t)] == Entry(t.key, t.value)
    {
      SplitEntries(c, t);
    }

    /** Comparing keys compares indices. */
    lemma IndexOrder(c: Path<K, V>, t: Tree<K, V>, d: Path<K, V>, u: Tree<K, V>)
      requires TotalOrder(compare) && Sorted(compare, Entries(tree)) && t.Bin? && Plug(c, t) == tree && u.Bin?
      requires Plug(d, u) == tree
      ensures Index(c, t) < Index(d, u) ==> compare(t.key, u.key) < 0
      ensures Index(c, t) > Index(d, u) ==> compare(t.key, u.key) > 0
    {
      IndexEntry(c, t);
      IndexEntry(d, u);
    }

    method MinimumBelow(start: Node<K, V>, ghost c: Path<K, V>, ghost t: Tree<K, V>)
      returns (node: Node<K, V>, ghost d: Path<K, V>, ghost u: Tree<K, V>)
      requires At(c, t) && t.Bin? && t.node == start
      ensures At(d, u) && u.Bin? && u.node == node && Plug(d, u) == Plug(c, t) && Index(d, u) == |Before(c)|
    {
      node, d, u := start, c, t;
      hide Stored, Plug, Before, Entries;
      Look(d, u);
      while node.left != null
        invariant At(d, u) && u.Bin? && u.node == node && node.left == Ref(u.left) && Plug(d, u) == Plug(c, t)
        invariant |Before(d)| == |Before(c)|
        decreases u
      {
        IndexSteps(d, u);
        Climb(Left(d, u), u.left);
        d, u := Left(d, u), u.left;
        node := node.left;
        Look(d, u);
      }
      EmptyEntries(u.left);
    }

    method MaximumBelow(start: Node<K, V>, ghost c: Path<K, V>, ghost t: Tree<K, V>)
      returns (node: Node<K, V>, ghost d: Path<K, V>, ghost u: Tree<K, V>)
      requires At(c, t) && t.Bin? && t.node == start
      ensures At(d, u) && u.Bin? && u.node == node && Plug(d, u) == Plug(c, t)
      ensures Index(d, u) + 1 == |Before(c)| + |Entries(t)|
    {
      node, d, u := start, c, t;
      hide Stored, Plug, Before, Entries;
      Look(d, u);
      while node.right != null
        invariant At(d, u) && u.Bin? && u.node == node && node.right == Ref(u.right) && Plug(d, u) == Plug(c, t)
        invariant |Before(d)| + |Entries(u)| == |Before(c)| + |Entries(t)|
        decreases u
      {
        IndexSteps(d, u);
        Climb(Right(d, u), u.right);
        d, u := Right(d, u), u.right;
        node := node.right;
        Look(d, u);
      }
      IndexSteps(d, u);
      EmptyEntries(u.right);
    }

    lemma EmptyEntries(t: Tree<K, V>)
      ensures t.Nil? <==> |Entries(t)| == 0
    {
    }

    /** The nearest ancestor with a key not below the one of `start`, which has no right child: the
        next entry, if any. */
    method ClimbNext(start: Node<K, V>, ghost c: Path<K, V>, ghost t: Tree<K, V>)
      returns (node: Node?<K, V>, ghost d: Path<K, V>, ghost u: Tree<K, V>)
      requires Valid() && At(c, t) && Plug(c, t) == tree && t.Bin? && t.node == start && t.right.Nil?
      ensures node == null ==> Index(c, t) + 1 == |Entries(tree)|
      ensures node != null ==>
                && At(d, u) && Plug(d, u) == tree && u.Bin? && u.node == node
                && Index(d, u) == Index(c, t) + 1
    {
      d, u := c, t;
      hide Stored, Plug, Before, Entries, Sorted, RedBlack, Index, TotalOrder;
      IndexSteps(c, t);
      EmptyEntries(t.right);
      IndexIs(c, t);
      var at := start;
      Look(d, u);
      while at.parent != null
        invariant At(d, u) && Plug(d, u) == tree && u.Bin? && u.node == at && at.parent == ParentOf(d)
        invariant |Before(d)| + |Entries(u)| == Index(c, t) + 1
        decreases d
      {
        IndexSteps(d, u);
        Climb(d, u);
        IndexOrder(c, t, d.up, Join(d, u));
        Look(c, t);
        d, u := d.up, Join(d, u);
        at := at.parent;
        Look(d, u);
        if compare(start.key, at.key) <= 0 { return at, d, u; }
      }
      IndexSteps(d, u);
      return null, d, u;
    }

    /** The nearest ancestor with a key not above the one of `start`, which has no left child: the
        previous entry, if any. */
    method ClimbPrev(start: Node<K, V>, ghost c: Path<K, V>, ghost t: Tree<K, V>)
      returns (node: Node?<K, V>, ghost d: Path<K, V>, ghost u: Tree<K, V>)
      requires Valid() && At(c, t) && Plug(c, t) == tree && t.Bin? && t.node == start && t.left.Nil?
      ensures node == null ==> Index(c, t) == 0
      ensures node != null ==>
                && At(d, u) && Plug(d, u) == tree && u.Bin? && u.node == node
                && Index(d, u) + 1 == Index(c, t)
    {
      d, u := c, t;
      TopBefore();
      hide Stored, Plug, Before, Entries, Sorted, RedBlack, Index, TotalOrder;
      EmptyEntries(t.left);
      IndexIs(c, t);
      var at := start;
      Look(d, u);
      while at.parent != null
        invariant At(d, u) && Plug(d, u) == tree && u.Bin? && u.node == at && at.parent == ParentOf(d)
        invariant |Before(d)| == Index(c, t)
        decreases d
      {
        IndexSteps(d, u);
        EmptyEntries(u);
        Climb(d, u);
        IndexOrder(c, t, d.up, Join(d, u));
        Look(c, t);
        d, u := d.up, Join(d, u);
        at := at.parent;
        Look(d, u);
        if compare(start.key, at.key) >= 0 { return at, d, u; }
      }
      return null, d, u;
    }

    /** The entry after `start`, if any: the least one below its right child, or up. */
    method Following(start: Node<K, V>, ghost c: Path<K, V>, ghost t: Tree<K, V>)
      returns (node: Node?<K, V>, ghost d: Path<K, V>, ghost u: Tree<K, V>)
      requires Valid() && At(c, t) && Plug(c, t) == tree && t.Bin? && t.node == start
      ensures node == null ==> Index(c, t) + 1 == |Entries(tree)|
      ensures node != null ==> && At(d, u) && Plug(d, u) == tree && u.Bin? && u.node == node
                               && Index(d, u) == Index(c, t) + 1
    {
      hide Stored, Plug, Before, Entries, Sorted, RedBlack, Index, TotalOrder, Heap;
      Look(c, t);
      IndexSteps(c, t);
      if start.right != null {
        Climb(Right(c, t), t.right);
        node, d, u := MinimumBelow(start.right, Right(c, t), t.right);
      } else {
        node, d, u := ClimbNext(start, c, t);
      }
    }

    /** The entry before `start`, if any. */
    method Preceding(start: Node<K, V>, ghost c: Path<K, V>, ghost t: Tree<K, V>)
      returns (node: Node?<K, V>, ghost d: Path<K, V>, ghost u: Tree<K, V>)
      requires Valid() && At(c, t) && Plug(c, t) == tree && t.Bin? && t.node == start
      ensures node == null ==> Index(c, t) == 0
      ensures node != null ==> && At(d, u) && Plug(d, u) == tree && u.Bin? && u.node == node
                               && Index(d, u) + 1 == Index(c, t)
    {
      hide Stored, Plug, Before, Entries, Sorted, RedBlack, Index, TotalOrder, Heap;
      Look(c, t);
      IndexSteps(c, t);
      IndexIs(c, t);
      if start.left != null {
        Climb(Left(c, t), t.left);
        node, d, u := MaximumBelow(start.left, Left(c, t), t.left);
      } else {
        node, d, u := ClimbPrev(start, c, t);
      }
    }

    lemma TopBefore()
      ensures |Before<K, V>(Top)| == 0
    {
    }

    /** The least and the greatest node. */
    method Leftmost() returns (parent: Node?<K, V>, ghost c: Path<K, V>, ghost t: Tree<K, V>)
      requires Valid()
      ensures parent == null <==> Entries(tree) == []
      ensures parent != null ==> At(c, t) && Plug(c, t) == tree && t.Bin? && t.node == parent && Index(c, t) == 0
    {
      var current := root;
      parent := null;
      c, t := Top, tree;
      ghost var d, u := c, t;
      EmptyEntries(tree);
      while current != null
        invariant At(d, u) && Plug(d, u) == tree && current == Ref(u) && |Before(d)| == 0
        invariant parent == null ==> d.Top?
        invariant parent != null ==>
                    && tree.Bin? && At(c, t) && Plug(c, t) == tree && t.Bin? && t.node == parent
                    && d == Left(c, t) && u == t.left
        decreases u
      {
        Look(d, u);
        IndexSteps(d, u);
        Climb(Left(d, u), u.left);
        parent, c, t := current, d, u;
        d, u := Left(d, u), u.left;
        current := current.left;
      }
    }

    method Rightmost() returns (parent: Node?<K, V>, ghost c: Path<K, V>, ghost t: Tree<K, V>)
      requires Valid()
      ensures parent == null <==> Entries(tree) == []
      ensures parent != null ==>
                && At(c, t) && Plug(c, t) == tree && t.Bin? && t.node == parent
                && Index(c, t) + 1 == |Entries(tree)|
    {
      var current := root;
      parent := null;
      c, t := Top, tree;
      ghost var d, u := c, t;
      EmptyEntries(tree);
      while current != null
        invariant At(d, u) && Plug(d, u) == tree && current == Ref(u) && |Before(d)| + |Entries(u)| == |Entries(tree)|
        invariant parent == null ==> d.Top?
        invariant parent != null ==>
                    && tree.Bin? && At(c, t) && Plug(c, t) == tree && t.Bin? && t.node == parent
                    && d == Right(c, t) && u == t.right
        decreases u
      {
        Look(d, u);
        IndexSteps(d, u);
        Climb(Right(d, u), u.right);
        parent, c, t := current, d, u;
        d, u := Right(d, u), u.right;
        current := current.right;
      }
      if parent != null { IndexSteps(c, t); }
    }

    lemma IndexIs(c: Path<K, V>, t: Tree<K, V>)
      requires t.Bin?
      ensures Index(c, t) == |Before(c)| + |Entries(t.left)|
    {
    }

    function Empty(): (empty: bool)
      requires Valid()
      reads this, nodes
      ensures empty <==> Contents() == map[]
    {
      ToMapSize(compare, Entries(tree));
      size == 0
    }

    method Clear()
      requires Valid()
      modifies this
      ensures Valid() && Contents() == map[] && size == 0
    {
      root, size, nodes, tree := null, 0, {}, Nil;
    }
  }
}
