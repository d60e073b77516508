/** When a heap of linked nodes is a given tree, seen from a focus. */
module TreeHeap {
  import opened TreeShape

  ghost function Ref<K, V>(t: Tree<K, V>): Node?<K, V> { if t.Nil? then null else t.node }

  ghost function ParentOf<K, V>(c: Path<K, V>): Node?<K, V> { if c.Top? then null else c.node }

  ghost function RootOf<K, V>(c: Path<K, V>, focus: Node?<K, V>): Node?<K, V>
  {
    if c.Top? then focus else RootOf(c.up, c.node)
  }

  /** Another focus changes the root only at the top. */
  lemma RootMoved<K, V>(c: Path<K, V>, focus: Node?<K, V>, next: Node?<K, V>)
    ensures RootOf(c, next) == if c.Top? then next else RootOf(c, focus)
  {
  }

  ghost function Nodes<K, V>(t: Tree<K, V>): (nodes: set<Node<K, V>>)
    ensures t.Bin? ==> t.node in nodes
  {
    if t.Nil? then {} else {t.node} + Nodes(t.left) + Nodes(t.right)
  }

  ghost function PathNodes<K, V>(c: Path<K, V>): (nodes: set<Node<K, V>>)
    ensures c.Below? ==> c.node in nodes
  {
    if c.Top? then {} else {c.node} + Nodes(c.other) + PathNodes(c.up)
  }

  /** No node occurs twice. */
  ghost predicate Distinct<K, V>(t: Tree<K, V>)
  {
    t.Bin? ==>
      && t.node !in Nodes(t.left) && t.node !in Nodes(t.right) && Nodes(t.left) !! Nodes(t.right)
      && Distinct(t.left) && Distinct(t.right)
  }

  ghost predicate PathDistinct<K, V>(c: Path<K, V>)
  {
    c.Below? ==>
      && c.node !in Nodes(c.other) && c.node !in PathNodes(c.up) && Nodes(c.other) !! PathNodes(c.up)
      && Distinct(c.other) && PathDistinct(c.up)
  }

  ghost predicate Apart<K, V>(c: Path<K, V>, t: Tree<K, V>)
  {
    Distinct(t) && PathDistinct(c) && Nodes(t) !! PathNodes(c)
  }

  /** What a node holds, and what a set of nodes holds. */
  datatype Cell<K, V> = Cell(red: bool, key: K, value: V, left: Node?<K, V>, right: Node?<K, V>, parent: Node?<K, V>)

  type Store<K, V> = map<Node<K, V>, Cell<K, V>>

  /** The nodes from the focus downwards are the tree `t`. */
  ghost predicate Linked<K, V>(h: Store<K, V>, t: Tree<K, V>, parent: Node?<K, V>)
  {
    t.Bin? ==>
      && t.node in h && h[t.node] == Cell(t.red, t.key, t.value, Ref(t.left), Ref(t.right), parent)
      && Linked(h, t.left, t.node) && Linked(h, t.right, t.node)
  }

  /** What the lowest node of a path holds when `focus` is its child. */
  ghost function Holding<K, V>(c: Path<K, V>, focus: Node?<K, V>): Cell<K, V>
    requires c.Below?
  {
    if c.leftSide then Cell(c.red, c.key, c.value, focus, Ref(c.other), ParentOf(c.up))
    else Cell(c.red, c.key, c.value, Ref(c.other), focus, ParentOf(c.up))
  }

  /** The nodes from the focus upwards are the path `c`. */
  ghost predicate PathLinked<K, V>(h: Store<K, V>, c: Path<K, V>, focus: Node?<K, V>)
  {
    c.Below? ==>
      && c.node in h && h[c.node] == Holding(c, focus)
      && Linked(h, c.other, c.node) && PathLinked(h, c.up, c.node)
  }

  /** The store is the tree `Plug(c, t)` and nothing else. */
  ghost predicate Stored<K, V>(h: Store<K, V>, c: Path<K, V>, t: Tree<K, V>)
  {
    && h.Keys == PathNodes(c) + Nodes(t) && Apart(c, t)
    && Linked(h, t, ParentOf(c)) && PathLinked(h, c, Ref(t))
  }

  /** Moving the focus changes nothing. */
  lemma Moved<K, V>(h: Store<K, V>, c: Path<K, V>, t: Tree<K, V>)
    requires c.Below?
    ensures Stored(h, c, t) <==> Stored(h, c.up, Join(c, t))
    ensures RootOf(c, Ref(t)) == RootOf(c.up, Ref(Join(c, t)))
  {
  }

  /** The store read around the focus. */
  lemma Around<K, V>(h: Store<K, V>, c: Path<K, V>, t: Tree<K, V>)
    requires Stored(h, c, t) && t.Bin?
    ensures t.node in h && h[t.node] == Cell(t.red, t.key, t.value, Ref(t.left), Ref(t.right), ParentOf(c))
    ensures c.Below? ==> c.node in h && c.node != t.node && h[c.node] == Holding(c, t.node) && Ref(c.other) != t.node
    ensures c.Below? && c.other.Bin? ==>
              var s := c.other;
              && s.node in h && s.node != c.node
              && h[s.node] == Cell(s.red, s.key, s.value, Ref(s.left), Ref(s.right), c.node)
  {
  }

  // ---- What changes elsewhere leave alone

  ghost predicate Agree<K, V>(h: Store<K, V>, h': Store<K, V>, nodes: set<Node<K, V>>)
  {
    forall n :: n in nodes ==> n in h && n in h' && h[n] == h'[n]
  }

  lemma {:induction false} LinkedKept<K, V>(h: Store<K, V>, h': Store<K, V>, t: Tree<K, V>, parent: Node?<K, V>)
    requires Linked(h, t, parent) && Agree(h, h', Nodes(t))
    ensures Linked(h', t, parent)
  {
    if t.Bin? {
      LinkedKept(h, h', t.left, t.node);
      LinkedKept(h, h', t.right, t.node);
    }
  }

  /** A subtree whose root changed. */
  lemma LinkedBelow<K, V>(h: Store<K, V>, h': Store<K, V>, t: Tree<K, V>, parent: Node?<K, V>, root: Cell<K, V>,
                          t': Tree<K, V>)
    requires Linked(h, t, parent) && Distinct(t) && t.Bin? && t.node in h'
    requires Agree(h, h', Nodes(t) - {t.node})
    requires t'.Bin? && t'.node == t.node && t'.left == t.left && t'.right == t.right
    requires h'[t.node] == root && root == Cell(t'.red, t'.key, t'.value, Ref(t.left), Ref(t.right), root.parent)
    ensures Linked(h', t', root.parent)
  {
    LinkedKept(h, h', t.left, t.node);
    LinkedKept(h, h', t.right, t.node);
  }

  lemma {:induction false} PathKept<K, V>(h: Store<K, V>, h': Store<K, V>, c: Path<K, V>, focus: Node?<K, V>)
    requires PathLinked(h, c, focus) && Agree(h, h', PathNodes(c))
    ensures PathLinked(h', c, focus)
  {
    if c.Below? {
      LinkedKept(h, h', c.other, c.node);
      PathKept(h, h', c.up, c.node);
    }
  }

  /** A path whose lowest node changed. */
  lemma PathAbove<K, V>(h: Store<K, V>, h': Store<K, V>, c: Path<K, V>, focus: Node?<K, V>, c': Path<K, V>,
                        focus': Node?<K, V>)
    requires PathLinked(h, c, focus) && PathDistinct(c) && Agree(h, h', PathNodes(c) - {ParentOf(c)})
    requires c.Top? ==> c'.Top?
    requires c.Below? ==>
               && c'.Below? && c'.node == c.node && c'.other == c.other && c'.up == c.up && c.node in h'
               && h'[c.node] == Holding(c', focus')
    ensures PathLinked(h', c', focus')
  {
    if c.Below? {
      LinkedKept(h, h', c.other, c.node);
      PathKept(h, h', c.up, c.node);
    }
  }

  /** A node that changed its colour or its entry. */
  lemma Repainted<K, V>(h: Store<K, V>, c: Path<K, V>, t: Tree<K, V>, t': Tree<K, V>)
    requires Stored(h, c, t) && t.Bin? && t'.Bin? && t' == t.(red := t'.red, key := t'.key, value := t'.value)
    ensures t.node in h && Stored(h[t.node := h[t.node].(red := t'.red, key := t'.key, value := t'.value)], c, t')
  {
    var h' := h[t.node := h[t.node].(red := t'.red, key := t'.key, value := t'.value)];
    assert Agree(h, h', Nodes(t.left)) && Agree(h, h', Nodes(t.right)) && Agree(h, h', PathNodes(c));
    LinkedKept(h, h', t.left, t.node);
    LinkedKept(h, h', t.right, t.node);
    PathKept(h, h', c, t.node);
  }

  // ---- Rotations

  /** replaceNode: the store after the parent of the focus was made to point to `next`. */
  ghost function Replaced<K, V>(h: Store<K, V>, c: Path<K, V>, next: Node?<K, V>): Store<K, V>
    requires c.Below? ==> c.node in h
    requires next != null ==> next in h
  {
    var h1 := if c.Top? then h
              else h[c.node := if c.leftSide then h[c.node].(left := next) else h[c.node].(right := next)];
    if next == null then h1 else h1[next := h1[next].(parent := ParentOf(c))]
  }

  /** rotateLeft at `t`. */
  ghost function LeftRotated<K, V>(h: Store<K, V>, c: Path<K, V>, t: Tree<K, V>): Store<K, V>
    requires Stored(h, c, t) && t.Bin? && t.right.Bin?
  {
    var n, m, b := t.node, t.right.node, t.right.left;
    var h1 := Replaced(h, c, m);
    var h2 := h1[n := h1[n].(right := Ref(b))];
    var h3 := if b.Bin? then h2[b.node := h2[b.node].(parent := n)] else h2;
    var h4 := h3[m := h3[m].(left := n)];
    h4[n := h4[n].(parent := m)]
  }

  /** rotateRight at `t`. */
  ghost function RightRotated<K, V>(h: Store<K, V>, c: Path<K, V>, t: Tree<K, V>): Store<K, V>
    requires Stored(h, c, t) && t.Bin? && t.left.Bin?
  {
    var n, m, b := t.node, t.left.node, t.left.right;
    var h1 := Replaced(h, c, m);
    var h2 := h1[n := h1[n].(left := Ref(b))];
    var h3 := if b.Bin? then h2[b.node := h2[b.node].(parent := n)] else h2;
    var h4 := h3[m := h3[m].(right := n)];
    h4[n := h4[n].(parent := m)]
  }

  /** Two nodes and four sets of nodes that do not overlap. */
  ghost predicate Parts<K, V>(n: Node<K, V>, m: Node<K, V>, a: set<Node<K, V>>, b: set<Node<K, V>>,
                              d: set<Node<K, V>>, rest: set<Node<K, V>>)
  {
    && n != m && n !in a && n !in b && n !in d && n !in rest && m !in a && m !in b && m !in d && m !in rest
    && a !! b && a !! d && b !! d && a !! rest && b !! rest && d !! rest
  }

  /** Two adjacent nodes, the upper one left of the lower one. */
  lemma RightParts<K, V>(c: Path<K, V>, t: Tree<K, V>)
    requires t.Bin? && t.right.Bin?
    ensures Nodes(t) == {t.node, t.right.node} + Nodes(t.left) + Nodes(t.right.left) + Nodes(t.right.right)
    ensures Apart(c, t) <==>
              && Parts(t.node, t.right.node, Nodes(t.left), Nodes(t.right.left), Nodes(t.right.right), PathNodes(c))
              && Distinct(t.left) && Distinct(t.right.left) && Distinct(t.right.right) && PathDistinct(c)
  {
    var m, b, d := t.right.node, t.right.left, t.right.right;
    assert Nodes(t.right) == {m} + Nodes(b) + Nodes(d);
    assert Distinct(t.right) <==>
             && m !in Nodes(b) && m !in Nodes(d) && Nodes(b) !! Nodes(d) && Distinct(b)
             && Distinct(d);
    assert Nodes(t.left) !! Nodes(t.right) <==>
             && m !in Nodes(t.left) && Nodes(t.left) !! Nodes(b)
             && Nodes(t.left) !! Nodes(d);
  }

  lemma LeftParts<K, V>(c: Path<K, V>, t: Tree<K, V>)
    requires t.Bin? && t.left.Bin?
    ensures Nodes(t) == {t.node, t.left.node} + Nodes(t.left.left) + Nodes(t.left.right) + Nodes(t.right)
    ensures Apart(c, t) <==>
              && Parts(t.left.node, t.node, Nodes(t.left.left), Nodes(t.left.right), Nodes(t.right), PathNodes(c))
              && Distinct(t.left.left) && Distinct(t.left.right) && Distinct(t.right) && PathDistinct(c)
  {
    var m, a, b := t.left.node, t.left.left, t.left.right;
    assert Nodes(t.left) == {m} + Nodes(a) + Nodes(b);
    assert Distinct(t.left) <==> m !in Nodes(a) && m !in Nodes(b) && Nodes(a) !! Nodes(b) && Distinct(a) && Distinct(b);
    assert Nodes(t.left) !! Nodes(t.right) <==>
             && m !in Nodes(t.right) && Nodes(a) !! Nodes(t.right)
             && Nodes(b) !! Nodes(t.right);
  }

  lemma LeftRotatedStored<K, V>(h: Store<K, V>, c: Path<K, V>, t: Tree<K, V>)
    requires Stored(h, c, t) && t.Bin? && t.right.Bin?
    ensures Stored(LeftRotated(h, c, t), c, RotateLeft(t))
  {
    RightParts(c, t);
    LeftParts(c, RotateLeft(t));
    LeftRotatedLinked(h, c, t);
  }

  /** What each node holds after rotateLeft. */
  lemma LeftRotatedCells<K, V>(h: Store<K, V>, c: Path<K, V>, t: Tree<K, V>)
    requires Stored(h, c, t) && t.Bin? && t.right.Bin?
    requires Parts(t.node, t.right.node, Nodes(t.left), Nodes(t.right.left), Nodes(t.right.right), PathNodes(c))
    ensures var h', n, m, b := LeftRotated(h, c, t), t.node, t.right.node, t.right.left;
            && h'.Keys == h.Keys && n in h
            && h'[n] == Cell(t.red, t.key, t.value, Ref(t.left), Ref(t.right.left), t.right.node)
            && m in h && h'[m] == Cell(t.right.red, t.right.key, t.right.value, t.node, Ref(t.right.right), ParentOf(c))
            && (b.Bin? ==> b.node in h && h'[b.node] == h[b.node].(parent := n))
            && (c.Below? ==> c.node in h && h'[c.node] == Holding(c, m))
            && forall x :: x in h && x != n && x != m && x != Ref(b) && x != ParentOf(c) ==> h'[x] == h[x]
  {
    hide Distinct, PathDistinct, Nodes, PathNodes;
    assert Linked(h, t.right, t.node) && Linked(h, t.right.left, t.right.node);
  }

  lemma LeftRotatedLinked<K, V>(h: Store<K, V>, c: Path<K, V>, t: Tree<K, V>)
    requires Stored(h, c, t) && t.Bin? && t.right.Bin?
    requires Parts(t.node, t.right.node, Nodes(t.left), Nodes(t.right.left), Nodes(t.right.right), PathNodes(c))
    requires Distinct(t.right.left) && PathDistinct(c)
    requires Nodes(t) == {t.node, t.right.node} + Nodes(t.left) + Nodes(t.right.left) + Nodes(t.right.right)
    ensures var h' := LeftRotated(h, c, t);
            && h'.Keys == h.Keys && Linked(h', RotateLeft(t), ParentOf(c)) && PathLinked(h', c, t.right.node)
  {
    hide Distinct, PathDistinct, Nodes, PathNodes, LeftRotated, Replaced;
    var n, m, a, b, d := t.node, t.right.node, t.left, t.right.left, t.right.right;
    var h' := LeftRotated(h, c, t);
    LeftRotatedCells(h, c, t);
    assert Linked(h, t.right, n);
    LinkedKept(h, h', a, n);
    LinkedKept(h, h', d, m);
    if b.Bin? { LinkedBelow(h, h', b, m, h[b.node].(parent := n), b); }
    PathAbove(h, h', c, n, c, m);
    assert Linked(h', t.(right := b), m);
  }

  lemma RightRotatedStored<K, V>(h: Store<K, V>, c: Path<K, V>, t: Tree<K, V>)
    requires Stored(h, c, t) && t.Bin? && t.left.Bin?
    ensures Stored(RightRotated(h, c, t), c, RotateRight(t))
  {
    LeftParts(c, t);
    RightParts(c, RotateRight(t));
    RightRotatedLinked(h, c, t);
  }

  /** What each node holds after rotateRight. */
  lemma RightRotatedCells<K, V>(h: Store<K, V>, c: Path<K, V>, t: Tree<K, V>)
    requires Stored(h, c, t) && t.Bin? && t.left.Bin?
    requires Parts(t.left.node, t.node, Nodes(t.left.left), Nodes(t.left.right), Nodes(t.right), PathNodes(c))
    ensures var h', n, m, b := RightRotated(h, c, t), t.node, t.left.node, t.left.right;
            && h'.Keys == h.Keys && n in h
            && h'[n] == Cell(t.red, t.key, t.value, Ref(t.left.right), Ref(t.right), t.left.node)
            && m in h && h'[m] == Cell(t.left.red, t.left.key, t.left.value, Ref(t.left.left), t.node, ParentOf(c))
            && (b.Bin? ==> b.node in h && h'[b.node] == h[b.node].(parent := n))
            && (c.Below? ==> c.node in h && h'[c.node] == Holding(c, m))
            && forall x :: x in h && x != n && x != m && x != Ref(b) && x != ParentOf(c) ==> h'[x] == h[x]
  {
    hide Distinct, PathDistinct, Nodes, PathNodes;
    assert Linked(h, t.left, t.node) && Linked(h, t.left.right, t.left.node);
  }

  lemma RightRotatedLinked<K, V>(h: Store<K, V>, c: Path<K, V>, t: Tree<K, V>)
    requires Stored(h, c, t) && t.Bin? && t.left.Bin?
    requires Parts(t.left.node, t.node, Nodes(t.left.left), Nodes(t.left.right), Nodes(t.right), PathNodes(c))
    requires Distinct(t.left.right) && PathDistinct(c)
    requires Nodes(t) == {t.node, t.left.node} + Nodes(t.left.left) + Nodes(t.left.right) + Nodes(t.right)
    ensures var h' := RightRotated(h, c, t);
            && h'.Keys == h.Keys && Linked(h', RotateRight(t), ParentOf(c)) && PathLinked(h', c, t.left.node)
  {
    hide Distinct, PathDistinct, Nodes, PathNodes, RightRotated, Replaced;
    var n, m, a, b, d := t.node, t.left.node, t.right, t.left.right, t.left.left;
    var h' := RightRotated(h, c, t);
    RightRotatedCells(h, c, t);
    assert Linked(h, t.left, n);
    LinkedKept(h, h', a, n);
    LinkedKept(h, h', d, m);
    if b.Bin? { LinkedBelow(h, h', b, m, h[b.node].(parent := n), b); }
    PathAbove(h, h', c, n, c, m);
    assert Linked(h', t.(left := b), m);
  }

  /** What the store says before and during a rotation. */
  lemma LeftRotatedFacts<K, V>(h: Store<K, V>, c: Path<K, V>, t: Tree<K, V>)
    requires Stored(h, c, t) && t.Bin? && t.right.Bin?
    ensures var n, m, b := t.node, t.right.node, t.right.left;
            && n in h && m in h && n != m && (b.Bin? ==> b.node in h)
            && h[n].right == m && h[n].parent == ParentOf(c)
            && (c.Below? ==> c.node in h && c.node != m && (c.leftSide <==> h[c.node].left == n))
            && Replaced(h, c, m).Keys == h.Keys && Replaced(h, c, m)[m].left == Ref(b)
  {
    RightParts(c, t);
    assert Linked(h, t.right, t.node);
  }

  lemma RightRotatedFacts<K, V>(h: Store<K, V>, c: Path<K, V>, t: Tree<K, V>)
    requires Stored(h, c, t) && t.Bin? && t.left.Bin?
    ensures var n, m, b := t.node, t.left.node, t.left.right;
            && n in h && m in h && n != m && (b.Bin? ==> b.node in h)
            && h[n].left == m && h[n].parent == ParentOf(c)
            && (c.Below? ==> c.node in h && c.node != m && (c.leftSide <==> h[c.node].left == n))
            && Replaced(h, c, m).Keys == h.Keys && Replaced(h, c, m)[m].right == Ref(b)
  {
    LeftParts(c, t);
    assert Linked(h, t.left, t.node);
  }

  // ---- Hanging a new node in, taking one out

  /** The store with a new leaf node at an empty focus. */
  ghost function Grown<K, V>(h: Store<K, V>, c: Path<K, V>, n: Node<K, V>, key: K, value: V): Store<K, V>
    requires c.Below? ==> c.node in h
  {
    var h1 := h[n := Cell(true, key, value, null, null, null)];
    if c.Top? then h1 else
    var h2 := h1[c.node := if c.leftSide then h1[c.node].(left := n) else h1[c.node].(right := n)];
    h2[n := h2[n].(parent := c.node)]
  }

  lemma GrownStored<K, V>(h: Store<K, V>, c: Path<K, V>, n: Node<K, V>, key: K, value: V)
    requires Stored(h, c, Nil) && n !in h
    ensures Stored(Grown(h, c, n, key, value), c, Bin(n, true, key, value, Nil, Nil))
  {
    PathAbove(h, Grown(h, c, n, key, value), c, null, c, n);
  }

  /** replaceNode puts the only child in the place of the focus. */
  lemma UnlinkedStored<K, V>(h: Store<K, V>, c: Path<K, V>, t: Tree<K, V>)
    requires Stored(h, c, t) && t.Bin? && (t.left.Nil? || t.right.Nil?)
    ensures var x := Ref(OnlyChild(t));
            && (c.Below? ==> c.node in h) && (x != null ==> x in h)
            && Stored(Replaced(h, c, x) - {t.node}, c, OnlyChild(t))
  {
    var x := OnlyChild(t);
    var h' := Replaced(h, c, Ref(x)) - {t.node};
    assert Nodes(t) == {t.node} + Nodes(x);
    PathAbove(h, h', c, t.node, c, Ref(x));
    if x.Bin? { LinkedBelow(h, h', x, t.node, h[x.node].(parent := ParentOf(c)), x); }
  }
}
