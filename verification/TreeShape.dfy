/** Red-black trees as values (engine/pkg/utils/maps/maps.go): the shape of the tree, a focus
    inside it, its in-order entries and the balance conditions. A tree remembers the heap node of
    each of its places, so that a heap can be compared with it. */
module TreeShape {
  import opened Bits

  /** A node of the source's tree; the colour is a flag, red when true. */
  class Node<K, V> {
    var key: K
    var value: V
    var red: bool
    var left: Node?<K, V>
    var right: Node?<K, V>
    var parent: Node?<K, V>

    constructor (key: K, value: V)
      ensures this.key == key && this.value == value && red && left == null && right == null && parent == null
    {
      this.key, this.value, red, left, right, parent := key, value, true, null, null, null;
    }
  }

  datatype Tree<K, V> =
    | Nil
    | Bin(node: Node<K, V>, red: bool, key: K, value: V, left: Tree<K, V>, right: Tree<K, V>)

  /** The way from a focus up to the root: at each step the focus is the left or the right child
      of `node`, whose other child is `other`. */
  datatype Path<K, V> =
    | Top
    | Below(leftSide: bool, node: Node<K, V>, red: bool, key: K, value: V, other: Tree<K, V>, up: Path<K, V>)

  datatype Entry<K, V> = Entry(key: K, value: V)

  /** The parent of the focus, with the focus in its place. */
  ghost function Join<K, V>(c: Path<K, V>, t: Tree<K, V>): Tree<K, V>
    requires c.Below?
  {
    if c.leftSide then Bin(c.node, c.red, c.key, c.value, t, c.other)
    else Bin(c.node, c.red, c.key, c.value, c.other, t)
  }

  /** The whole tree. */
  ghost function Plug<K, V>(c: Path<K, V>, t: Tree<K, V>): Tree<K, V>
  {
    if c.Top? then t else Plug(c.up, Join(c, t))
  }

  /** The focus moved to a child. */
  ghost function Left<K, V>(c: Path<K, V>, t: Tree<K, V>): Path<K, V>
    requires t.Bin?
  {
    Below(true, t.node, t.red, t.key, t.value, t.right, c)
  }

  ghost function Right<K, V>(c: Path<K, V>, t: Tree<K, V>): Path<K, V>
    requires t.Bin?
  {
    Below(false, t.node, t.red, t.key, t.value, t.left, c)
  }

  /** The path of the sibling of the focus. */
  ghost function Across<K, V>(c: Path<K, V>, t: Tree<K, V>): Path<K, V>
    requires c.Below?
  {
    c.(leftSide := !c.leftSide, other := t)
  }

  // ---- In-order entries

  ghost function Entries<K, V>(t: Tree<K, V>): seq<Entry<K, V>>
  {
    if t.Nil? then [] else Entries(t.left) + [Entry(t.key, t.value)] + Entries(t.right)
  }

  ghost function Before<K, V>(c: Path<K, V>): seq<Entry<K, V>>
  {
    if c.Top? then [] else if c.leftSide then Before(c.up)
    else Before(c.up) + Entries(c.other) + [Entry(c.key, c.value)]
  }

  ghost function After<K, V>(c: Path<K, V>): seq<Entry<K, V>>
  {
    if c.Top? then [] else if c.leftSide then [Entry(c.key, c.value)] + Entries(c.other) + After(c.up) else After(c.up)
  }

  /** The children of the focus seen from the whole tree. */
  lemma ChildSequences<K, V>(c: Path<K, V>, t: Tree<K, V>)
    requires t.Bin?
    ensures var b, e, a := Before(c) + Entries(t.left), Entry(t.key, t.value), Entries(t.right) + After(c);
            && Before(Left(c, t)) == Before(c) && After(Left(c, t)) == [e] + a
            && Before(Right(c, t)) == b + [e] && After(Right(c, t)) == After(c)
    ensures Plug(Left(c, t), t.left) == Plug(c, t) && Plug(Right(c, t), t.right) == Plug(c, t)
  {
    assert After(Left(c, t)) == [Entry(t.key, t.value)] + Entries(t.right) + After(c);
  }

  ghost predicate Ends<K, V>(s: seq<Entry<K, V>>, e: Entry<K, V>) { s != [] && s[|s| - 1] == e }

  ghost predicate Begins<K, V>(s: seq<Entry<K, V>>, e: Entry<K, V>) { s != [] && s[0] == e }

  /** What comes just before and just after the children of the focus. */
  lemma ChildEdges<K, V>(c: Path<K, V>, t: Tree<K, V>)
    requires t.Bin?
    ensures Before(Left(c, t)) == Before(c) && After(Right(c, t)) == After(c)
    ensures Ends(Before(Right(c, t)), Entry(t.key, t.value)) && Begins(After(Left(c, t)), Entry(t.key, t.value))
  {
  }

  lemma {:induction false} PlugEntries<K, V>(c: Path<K, V>, t: Tree<K, V>)
    ensures Entries(Plug(c, t)) == Before(c) + Entries(t) + After(c)
  {
    if c.Below? {
      PlugEntries(c.up, Join(c, t));
      Regroup(Before(c.up), Entries(t), Entry(c.key, c.value), Entries(c.other), After(c.up));
    }
  }

  /** Concatenation is associative, for five parts in both orders. */
  lemma Regroup<K, V>(
    b: seq<Entry<K, V>>, t: seq<Entry<K, V>>, e: Entry<K, V>, o: seq<Entry<K, V>>, a: seq<Entry<K, V>>)
    ensures b + (t + [e] + o) + a == b + t + ([e] + o + a)
    ensures b + (o + [e] + t) + a == (b + o + [e]) + t + a
    ensures b + (t + [e] + o) + a == (b + t) + [e] + (o + a)
  {
  }

  /** The place of the focus in the in-order entries. */
  ghost function Index<K, V>(c: Path<K, V>, t: Tree<K, V>): nat
    requires t.Bin?
  {
    |Before(c)| + |Entries(t.left)|
  }

  /** Just below the focus, and just above it. */
  lemma IndexSteps<K, V>(c: Path<K, V>, t: Tree<K, V>)
    ensures |Entries(Plug(c, t))| == |Before(c)| + |Entries(t)| + |After(c)|
    ensures t.Bin? ==> && |Entries(t)| == |Entries(t.left)| + 1 + |Entries(t.right)|
                       && |Before(Left(c, t))| == |Before(c)| && |Before(Right(c, t))| == Index(c, t) + 1
                       && Plug(Left(c, t), t.left) == Plug(c, t) && Plug(Right(c, t), t.right) == Plug(c, t)
    ensures c.Below? ==> && Plug(c.up, Join(c, t)) == Plug(c, t)
                         && Index(c.up, Join(c, t)) == (if c.leftSide then |Before(c)| + |Entries(t)|
                                                        else |Before(c)| - 1)
                         && |Before(c.up)| + |Entries(Join(c, t))| ==
                            |Before(c)| + |Entries(t)| + (if c.leftSide then 1 + |Entries(c.other)| else 0)
                         && |Before(c.up)| == |Before(c)| - (if c.leftSide then 0 else 1 + |Entries(c.other)|)
  {
    PlugEntries(c, t);
  }

  // ---- Colours and balance

  ghost predicate IsRed<K, V>(t: Tree<K, V>) { t.Bin? && t.red }

  ghost function Paint<K, V>(t: Tree<K, V>, red: bool): Tree<K, V>
    requires t.Bin?
  {
    t.(red := red)
  }

  /** Black nodes on the leftmost way down. */
  ghost function Height<K, V>(t: Tree<K, V>): nat
  {
    if t.Nil? then 0 else Height(t.left) + (if t.red then 0 else 1)
  }

  /** No red node has a red child, and both sides of every node have the same black height. */
  ghost predicate Balanced<K, V>(t: Tree<K, V>)
  {
    t.Bin? ==>
      && Balanced(t.left) && Balanced(t.right) && Height(t.left) == Height(t.right)
      && (t.red ==> !IsRed(t.left) && !IsRed(t.right))
  }

  /** What the rest of the tree must be for a focus of black height `h`, red or not. */
  ghost predicate Fits<K, V>(c: Path<K, V>, h: nat, red: bool)
  {
    if c.Top? then !red
    else
      && Balanced(c.other) && Height(c.other) == h
      && (c.red ==> !IsRed(c.other) && !red)
      && Fits(c.up, if c.red then h else h + 1, c.red)
  }

  ghost predicate RedBlack<K, V>(t: Tree<K, V>) { Balanced(t) && !IsRed(t) }

  /** A tree is red-black exactly when the focus is balanced and the rest fits it. */
  lemma {:induction false} PlugBalanced<K, V>(c: Path<K, V>, t: Tree<K, V>)
    ensures RedBlack(Plug(c, t)) <==> Balanced(t) && Fits(c, Height(t), IsRed(t))
  {
    if c.Below? { PlugBalanced(c.up, Join(c, t)); }
  }

  /** The longest way down. */
  ghost function Levels<K, V>(t: Tree<K, V>): nat
  {
    if t.Nil? then 0
    else 1 + if Levels(t.left) >= Levels(t.right) then Levels(t.left) else Levels(t.right)
  }

  /** A balanced tree is at most twice as deep as its black height, and has at least 2^h - 1 entries. */
  lemma {:induction false} BalancedDepth<K, V>(t: Tree<K, V>)
    requires Balanced(t)
    ensures Levels(t) <= 2 * Height(t) + (if IsRed(t) then 1 else 0)
    ensures |Entries(t)| + 1 >= Pow2(Height(t))
  {
    if t.Bin? {
      BalancedDepth(t.left);
      BalancedDepth(t.right);
    }
  }

  /** A red-black tree with n entries has at most 2 log2(n + 1) levels: 2^(levels / 2) <= n + 1. */
  lemma LogarithmicDepth<K, V>(t: Tree<K, V>)
    requires RedBlack(t)
    ensures Pow2((Levels(t) + 1) / 2) <= |Entries(t)| + 1
  {
    hide Balanced, Levels, Height, Entries, Pow2;
    BalancedDepth(t);
    Pow2Monotone((Levels(t) + 1) / 2, Height(t));
  }

  // ---- Insertion

  /** Paths on which a red node is never the root. */
  ghost predicate BlackTop<K, V>(c: Path<K, V>)
  {
    c.Below? ==> (c.red ==> c.up.Below?) && BlackTop(c.up)
  }

  lemma {:induction false} FitsBlackTop<K, V>(c: Path<K, V>, h: nat, red: bool)
    requires Fits(c, h, red)
    ensures BlackTop(c)
  {
    if c.Below? { FitsBlackTop(c.up, if c.red then h else h + 1, c.red); }
  }

  /** rotateLeft and rotateRight. */
  ghost function RotateLeft<K, V>(t: Tree<K, V>): Tree<K, V>
    requires t.Bin? && t.right.Bin?
  {
    t.right.(left := t.(right := t.right.left))
  }

  ghost function RotateRight<K, V>(t: Tree<K, V>): Tree<K, V>
    requires t.Bin? && t.left.Bin?
  {
    t.left.(right := t.(left := t.left.right))
  }

  /** insertCase4: the parent of the focus after making the focus an outer grandchild. */
  ghost function Outer<K, V>(c: Path<K, V>, t: Tree<K, V>): Tree<K, V>
    requires c.Below? && c.up.Below? && t.Bin?
  {
    var p := Join(c, t);
    if c.leftSide == c.up.leftSide then p else if c.up.leftSide then RotateLeft(p) else RotateRight(p)
  }

  /** insertCase5: parent black, grandparent red, and a rotation at the grandparent. */
  ghost function Lifted<K, V>(g: Path<K, V>, p: Tree<K, V>): Tree<K, V>
    requires g.Below? && p.Bin?
  {
    var top := Paint(Join(g, Paint(p, false)), true);
    if g.leftSide then RotateRight(top) else RotateLeft(top)
  }

  /** insertCase3: parent and uncle black, grandparent red. */
  ghost function Recoloured<K, V>(c: Path<K, V>, t: Tree<K, V>): Tree<K, V>
    requires c.Below? && c.up.Below? && c.up.other.Bin?
  {
    Paint(Join(c.up.(other := Paint(c.up.other, false)), Join(c.(red := false), t)), true)
  }

  /** insertCase1 to insertCase5 on a red focus: the resulting tree. */
  ghost function InsertFix<K, V>(c: Path<K, V>, t: Tree<K, V>): Tree<K, V>
    requires t.Bin? && BlackTop(c)
  {
    if c.Top? then Paint(t, false)
    else if !c.red then Plug(c, t)
    else if IsRed(c.up.other) then
      assert BlackTop(c.up);
      InsertFix(c.up.up, Recoloured(c, t))
    else Plug(c.up.up, Lifted(c.up, Outer(c, t)))
  }

  /** Rebalancing after an insertion keeps the entries. */
  lemma {:induction false} InsertFixEntries<K, V>(c: Path<K, V>, t: Tree<K, V>)
    requires t.Bin? && BlackTop(c)
    ensures Entries(InsertFix(c, t)) == Entries(Plug(c, t))
  {
    if c.Top? {
    } else if !c.red {
    } else if IsRed(c.up.other) {
      var t' := Recoloured(c, t);
      InsertFixEntries(c.up.up, t');
      assert Entries(t') == Entries(Join(c.up, Join(c, t)));
      PlugEntries(c.up.up, t');
      PlugEntries(c.up.up, Join(c.up, Join(c, t)));
    } else {
      LiftedEntries(c, t);
      PlugEntries(c.up.up, Lifted(c.up, Outer(c, t)));
      PlugEntries(c.up.up, Join(c.up, Join(c, t)));
    }
  }

  lemma RotationEntries<K, V>(t: Tree<K, V>)
    requires t.Bin?
    ensures t.right.Bin? ==> Entries(RotateLeft(t)) == Entries(t)
    ensures t.left.Bin? ==> Entries(RotateRight(t)) == Entries(t)
  {
    hide Entries;
    BinEntries(t);
    if t.right.Bin? {
      var u := RotateLeft(t);
      BinEntries(t.right);
      BinEntries(u);
      BinEntries(u.left);
    }
    if t.left.Bin? {
      var u := RotateRight(t);
      BinEntries(t.left);
      BinEntries(u);
      BinEntries(u.right);
    }
  }

  lemma JoinEntries<K, V>(c: Path<K, V>, t: Tree<K, V>, u: Tree<K, V>)
    requires c.Below? && Entries(t) == Entries(u)
    ensures Entries(Join(c, t)) == Entries(Join(c, u))
  {
  }

  lemma LiftedEntries<K, V>(c: Path<K, V>, t: Tree<K, V>)
    requires t.Bin? && c.Below? && c.up.Below?
    ensures Entries(Lifted(c.up, Outer(c, t))) == Entries(Join(c.up, Join(c, t)))
  {
    var p := Outer(c, t);
    RotationEntries(Join(c, t));
    assert Entries(p) == Entries(Join(c, t));
    assert Entries(Paint(p, false)) == Entries(p);
    var top := Paint(Join(c.up, Paint(p, false)), true);
    RotationEntries(top);
    JoinEntries(c.up, Paint(p, false), Join(c, t));
  }

  /** From a tree that is red-black but for the colours of a red focus and its parent, the
      rebalancing makes a red-black tree. */
  lemma {:induction false} InsertFixBalanced<K, V>(c: Path<K, V>, t: Tree<K, V>)
    requires IsRed(t) && Balanced(t) && BlackTop(c) && Fits(c, Height(t), false)
    ensures RedBlack(InsertFix(c, t))
  {
    if c.Top? {
    } else if !c.red {
      PlugBalanced(c, t);
    } else if IsRed(c.up.other) {
      var t' := Recoloured(c, t);
      InsertFixBalanced(c.up.up, t');
    } else {
      LiftedBalanced(c, t);
      PlugBalanced(c.up.up, Lifted(c.up, Outer(c, t)));
    }
  }

  lemma LiftedBalanced<K, V>(c: Path<K, V>, t: Tree<K, V>)
    requires IsRed(t) && Balanced(t) && c.Below? && c.red && c.up.Below? && Fits(c, Height(t), false)
    requires !IsRed(c.up.other)
    ensures var p := Lifted(c.up, Outer(c, t));
            Balanced(p) && !IsRed(p) && Height(p) == Height(t) + 1 && Fits(c.up.up, Height(p), false)
  {
  }

  // ---- Deletion

  /** deleteCase3's condition on the sibling. */
  ghost predicate AllBlack<K, V>(t: Tree<K, V>)
    requires t.Bin?
  {
    !t.red && !IsRed(t.left) && !IsRed(t.right)
  }

  /** deleteCase2 when the sibling is red: parent red, sibling black, and a rotation that lifts
      the sibling. */
  ghost function LiftSibling<K, V>(c: Path<K, V>): Path<K, V>
    requires c.Below? && c.other.Bin?
  {
    var s := c.other;
    if c.leftSide then
      Below(true, c.node, true, c.key, c.value, s.left, Below(true, s.node, false, s.key, s.value, s.right, c.up))
    else
      Below(false, c.node, true, c.key, c.value, s.right, Below(false, s.node, false, s.key, s.value, s.left, c.up))
  }

  /** deleteCase5: an inner red child of the sibling takes its place. */
  ghost function Straighten<K, V>(c: Path<K, V>): Path<K, V>
    requires c.Below? && c.other.Bin?
  {
    var s := c.other;
    if c.leftSide && !s.red && IsRed(s.left) && !IsRed(s.right) then
      c.(other := RotateRight(Paint(s.(left := Paint(s.left, false)), true)))
    else if !c.leftSide && !s.red && IsRed(s.right) && !IsRed(s.left) then
      c.(other := RotateLeft(Paint(s.(right := Paint(s.right, false)), true)))
    else c
  }

  /** deleteCase6: the sibling takes the parent's colour and place, its outer red child turns
      black. */
  ghost function Borrow<K, V>(c: Path<K, V>): Path<K, V>
    requires c.Below? && c.other.Bin? && (if c.leftSide then IsRed(c.other.right) else IsRed(c.other.left))
  {
    var s := c.other;
    if c.leftSide then
      Below(true, c.node, false, c.key, c.value, s.left,
            Below(true, s.node, c.red, s.key, s.value, Paint(s.right, false), c.up))
    else
      Below(false, c.node, false, c.key, c.value, s.right,
            Below(false, s.node, c.red, s.key, s.value, Paint(s.left, false), c.up))
  }

  /** deleteCase4 to deleteCase6, which end the rebalancing. `h` is the black height the focus
      has; the rest of the tree expects one more. */
  ghost function DeleteEnd<K, V>(c: Path<K, V>, h: nat): Path<K, V>
    requires c.Below? && Fits(c, h + 1, false) && !IsRed(c.other) && (!c.red ==> !AllBlack(c.other))
  {
    if c.red && AllBlack(c.other) then c.(red := false, other := Paint(c.other, true))
    else Borrow(Straighten(c))
  }

  /** Steps left for the rebalancing: none above a red parent. */
  ghost function Rank<K, V>(c: Path<K, V>): nat { if c.Top? || c.red then 0 else Depth(c) }

  ghost function Depth<K, V>(c: Path<K, V>): nat { if c.Top? then 0 else 1 + Depth(c.up) }

  /** deleteCase1 to deleteCase6: the path of the focus after the rebalancing. */
  ghost function DeleteFix<K, V>(c: Path<K, V>, h: nat): Path<K, V>
    requires Fits(c, h + 1, false)
    decreases c
  {
    if c.Top? then Top
    else if IsRed(c.other) then DeleteEnd(LiftSibling(c), h)
    else if !c.red && AllBlack(c.other) then c.(other := Paint(c.other, true), up := DeleteFix(c.up, h + 1))
    else DeleteEnd(c, h)
  }

  /** The rest of the tree then fits a focus of black height `h`, even a red one unless it is the
      root. */
  lemma {:induction false} DeleteFixFits<K, V>(c: Path<K, V>, h: nat)
    requires Fits(c, h + 1, false)
    ensures var d := DeleteFix(c, h); d.Top? || Fits(d, h, true)
    decreases c
  {
    if c.Below? {
      if IsRed(c.other) { DeleteEndFits(LiftSibling(c), h); }
      else if !c.red && AllBlack(c.other) { DeleteFixFits(c.up, h + 1); }
      else { DeleteEndFits(c, h); }
    }
  }

  lemma DeleteEndFits<K, V>(c: Path<K, V>, h: nat)
    requires c.Below? && Fits(c, h + 1, false) && !IsRed(c.other) && (!c.red ==> !AllBlack(c.other))
    ensures var d := DeleteEnd(c, h); d.Below? && Fits(d, h, true)
  {
    if !(c.red && AllBlack(c.other)) { StraightenFits(c, h); BorrowFits(Straighten(c), h); }
  }

  /** Its sibling then has a red outer child. */
  lemma StraightenFits<K, V>(c: Path<K, V>, h: nat)
    requires c.Below? && Fits(c, h + 1, false) && !IsRed(c.other) && !AllBlack(c.other)
    ensures var d := Straighten(c);
            && d.Below? && d.leftSide == c.leftSide && Fits(d, h + 1, false) && d.other.Bin? && !d.other.red
            && (if d.leftSide then IsRed(d.other.right) else IsRed(d.other.left))
  {
    var s := c.other;
    assert Balanced(s.left) && Balanced(s.right) && Height(s.left) == h && Height(s.right) == h;
    if c.leftSide && !IsRed(s.right) {
      assert Balanced(s.left.left) && Balanced(s.left.right) && Height(s.left.left) == h && Height(s.left.right) == h;
    } else if !c.leftSide && !IsRed(s.left) {
      assert Balanced(s.right.left) && Balanced(s.right.right) && Height(s.right.left) == h
             && Height(s.right.right) == h;
    }
  }

  lemma BorrowFits<K, V>(c: Path<K, V>, h: nat)
    requires c.Below? && Fits(c, h + 1, false) && c.other.Bin? && !c.other.red
    requires if c.leftSide then IsRed(c.other.right) else IsRed(c.other.left)
    ensures var d := Borrow(c); d.Below? && Fits(d, h, true)
  {
    var s := c.other;
    assert Balanced(s.left) && Balanced(s.right) && Height(s.left) == h && Height(s.right) == h;
    var d := Borrow(c);
    assert Height(d.up.other) == h + 1 && Balanced(d.up.other);
    assert Fits(d.up, h + 1, false);
  }

  /** The rebalancing keeps what comes before and after the focus. */
  lemma {:induction false} DeleteFixEntries<K, V>(c: Path<K, V>, h: nat)
    requires Fits(c, h + 1, false)
    ensures var d := DeleteFix(c, h); Before(d) == Before(c) && After(d) == After(c)
    decreases c
  {
    if c.Below? {
      if IsRed(c.other) { DeleteEndEntries(LiftSibling(c), h); LiftSiblingEntries(c); }
      else if !c.red && AllBlack(c.other) { DeleteFixEntries(c.up, h + 1); }
      else { DeleteEndEntries(c, h); }
    }
  }

  lemma LiftSiblingEntries<K, V>(c: Path<K, V>)
    requires c.Below? && c.other.Bin?
    ensures var d := LiftSibling(c); Before(d) == Before(c) && After(d) == After(c)
  {
    hide Before, After, Entries;
    var d, s := LiftSibling(c), c.other;
    StepEntries(c);
    StepEntries(d);
    StepEntries(d.up);
    BinEntries(s);
    Regroup4(Before(c.up), Entries(s.left), Entry(s.key, s.value), Entries(s.right), [Entry(c.key, c.value)]);
    Regroup4([Entry(c.key, c.value)], Entries(s.left), Entry(s.key, s.value), Entries(s.right), After(c.up));
  }

  lemma Regroup4<K, V>(
    b: seq<Entry<K, V>>, l: seq<Entry<K, V>>, e: Entry<K, V>, r: seq<Entry<K, V>>, a: seq<Entry<K, V>>)
    ensures b + (l + [e] + r) + a == (b + l + [e]) + r + a
    ensures b + (l + [e] + r) + a == b + l + ([e] + r + a)
  {
  }

  lemma StepEntries<K, V>(c: Path<K, V>)
    requires c.Below?
    ensures Before(c) == if c.leftSide then Before(c.up) else Before(c.up) + Entries(c.other) + [Entry(c.key, c.value)]
    ensures After(c) == if c.leftSide then [Entry(c.key, c.value)] + Entries(c.other) + After(c.up) else After(c.up)
  {
  }

  lemma BinEntries<K, V>(t: Tree<K, V>)
    requires t.Bin?
    ensures Entries(t) == Entries(t.left) + [Entry(t.key, t.value)] + Entries(t.right)
  {
  }

  lemma StraightenEntries<K, V>(c: Path<K, V>)
    requires c.Below? && c.other.Bin?
    ensures var d := Straighten(c); Before(d) == Before(c) && After(d) == After(c)
  {
    var s, d := c.other, Straighten(c);
    if d != c {
      var u := if c.leftSide then Paint(s.(left := Paint(s.left, false)), true)
               else Paint(s.(right := Paint(s.right, false)), true);
      assert Entries(u) == Entries(s);
      RotationEntries(u);
    }
  }

  lemma BorrowEntries<K, V>(c: Path<K, V>)
    requires c.Below? && c.other.Bin? && (if c.leftSide then IsRed(c.other.right) else IsRed(c.other.left))
    ensures var d := Borrow(c); Before(d) == Before(c) && After(d) == After(c)
  {
    var s := c.other;
    if c.leftSide { assert Entries(Paint(s.right, false)) == Entries(s.right); }
    else { assert Entries(Paint(s.left, false)) == Entries(s.left); }
    LiftSiblingEntries(c);
  }

  lemma DeleteEndEntries<K, V>(c: Path<K, V>, h: nat)
    requires c.Below? && Fits(c, h + 1, false) && !IsRed(c.other) && (!c.red ==> !AllBlack(c.other))
    ensures var d := DeleteEnd(c, h); Before(d) == Before(c) && After(d) == After(c)
  {
    if !(c.red && AllBlack(c.other)) { StraightenEntries(c); BorrowEntries(Straighten(c)); }
  }

  /** The only child of a node that has not two, or nothing. */
  ghost function OnlyChild<K, V>(t: Tree<K, V>): Tree<K, V>
    requires t.Bin?
  {
    if t.right.Nil? then t.left else t.right
  }

  /** The path above a node with at most one child once the node may be taken out. */
  ghost function Relieved<K, V>(c: Path<K, V>, t: Tree<K, V>): Path<K, V>
    requires t.Bin? && Balanced(t) && Fits(c, Height(t), t.red) && (t.left.Nil? || t.right.Nil?)
  {
    if t.red then c else DeleteFix(c, Height(OnlyChild(t)))
  }

  /** Remove's second half: the tree without the focus, which has at most one child. */
  ghost function Deleted<K, V>(c: Path<K, V>, t: Tree<K, V>): Tree<K, V>
    requires t.Bin? && Balanced(t) && Fits(c, Height(t), t.red) && (t.left.Nil? || t.right.Nil?)
  {
    var d, x := Relieved(c, t), OnlyChild(t);
    if d.Top? && x.Bin? then Paint(x, false) else Plug(d, x)
  }

  lemma DeletedBalanced<K, V>(c: Path<K, V>, t: Tree<K, V>)
    requires t.Bin? && Balanced(t) && Fits(c, Height(t), t.red) && (t.left.Nil? || t.right.Nil?)
    ensures RedBlack(Deleted(c, t))
  {
    var d, x := Relieved(c, t), OnlyChild(t);
    if t.red {
      assert x.Nil?;
    } else {
      DeleteFixFits(c, Height(x));
    }
    if d.Below? { FitsEither(d, Height(x), IsRed(x)); }
    PlugBalanced(d, x);
  }

  lemma FitsEither<K, V>(c: Path<K, V>, h: nat, red: bool)
    requires Fits(c, h, true)
    ensures Fits(c, h, red)
  {
  }

  lemma DeletedEntries<K, V>(c: Path<K, V>, t: Tree<K, V>)
    requires t.Bin? && Balanced(t) && Fits(c, Height(t), t.red) && (t.left.Nil? || t.right.Nil?)
    ensures Entries(Deleted(c, t)) == Before(c) + Entries(OnlyChild(t)) + After(c)
  {
    var d, x := Relieved(c, t), OnlyChild(t);
    if !t.red { DeleteFixEntries(c, Height(x)); }
    PlugEntries(d, x);
    if x.Bin? { assert Entries(Paint(x, false)) == Entries(x); }
  }

  // ---- The rightmost node of a subtree

  ghost function MaxPath<K, V>(c: Path<K, V>, t: Tree<K, V>): Path<K, V>
    requires t.Bin?
    decreases t
  {
    if t.right.Nil? then c else MaxPath(Right(c, t), t.right)
  }

  ghost function MaxTree<K, V>(t: Tree<K, V>): (u: Tree<K, V>)
    requires t.Bin?
    ensures u.Bin? && u.right.Nil?
  {
    if t.right.Nil? then t else MaxTree(t.right)
  }

  lemma {:induction false} MaxPlug<K, V>(c: Path<K, V>, t: Tree<K, V>)
    requires t.Bin?
    ensures Plug(MaxPath(c, t), MaxTree(t)) == Plug(c, t)
    ensures After(MaxPath(c, t)) == After(c)
    ensures Before(MaxPath(c, t)) + Entries(MaxTree(t)) == Before(c) + Entries(t)
    decreases t
  {
    if t.right.Bin? {
      MaxPlug(Right(c, t), t.right);
      assert Before(Right(c, t)) + Entries(t.right) == Before(c) + Entries(t);
    }
  }
}
