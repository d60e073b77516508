/** The stateful iterator of engine/pkg/utils/maps/iterator.go, and Keys and Values. */
module TreeIterator {
  import opened TreeShape
  import opened TreeHeap
  import opened TreeOrder
  import opened TreeMap

  datatype Position = Begin | Between | End

  /** `path` and `focus` say where the current node is in the tree. */
  class Iterator<K(!new), V> {
    const maps: Map<K, V>
    var node: Node?<K, V>
    var position: Position
    ghost var path: Path<K, V>
    ghost var focus: Tree<K, V>

    constructor (maps: Map<K, V>)
      requires maps.Valid()
      ensures Valid() && this.maps == maps && Place() == -1
    {
      this.maps, node, position, path, focus := maps, null, Begin, Top, Nil;
    }

    ghost predicate Valid()
      reads this, maps, maps.nodes
    {
      && maps.Valid()
      && (position.Between? <==> node != null)
      && (position.Between? ==>
           && focus.Bin? && focus.node == node && maps.At(path, focus)
           && Plug(path, focus) == maps.tree)
    }

    /** The entries it runs over. */
    ghost function All(): seq<Entry<K, V>>
      reads this, maps
    {
      Entries(maps.tree)
    }

    /** The index of the current entry: -1 one before the first, |All()| one past the last. */
    ghost function Place(): int
      requires Valid()
      reads this, maps, maps.nodes
    {
      match position
      case Begin => -1
      case Between => Index(path, focus)
      case End => |All()|
    }

    method Next() returns (more: bool)
      requires Valid()
      modifies this
      ensures Valid() && Place() == if old(Place()) < |All()| then old(Place()) + 1 else |All()|
      ensures more <==> Place() < |All()|
    {
      hide Entries, Before, Plug, Index, Stored, Sorted, RedBlack, TotalOrder, Nodes, PathNodes, Map.At, Map.Heap;
      if position.Begin? {
        node, path, focus := maps.Leftmost();
      } else if position.Between? {
        maps.IndexEntry(path, focus);
        node, path, focus := maps.Following(node, path, focus);
      }
      more := node != null;
      position := if more then Between else End;
      if more { maps.IndexEntry(path, focus); }
    }

    method Prev() returns (more: bool)
      requires Valid()
      modifies this
      ensures Valid() && Place() == if old(Place()) >= 0 then old(Place()) - 1 else -1
      ensures more <==> Place() >= 0
    {
      hide Entries, Before, Plug, Index, Stored, Sorted, RedBlack, TotalOrder, Nodes, PathNodes, Map.At, Map.Heap;
      if position.End? {
        node, path, focus := maps.Rightmost();
      } else if position.Between? {
        node, path, focus := maps.Preceding(node, path, focus);
      }
      more := node != null;
      position := if more then Between else Begin;
    }

    method ToBegin()
      requires Valid()
      modifies this
      ensures Valid() && Place() == -1
    {
      node, position := null, Begin;
    }

    method ToEnd()
      requires Valid()
      modifies this
      ensures Valid() && Place() == |All()|
    {
      node, position := null, End;
    }

    method First() returns (more: bool)
      requires Valid()
      modifies this
      ensures Valid() && Place() == 0 && (more <==> All() != [])
    {
      ToBegin();
      more := Next();
    }

    method Last() returns (more: bool)
      requires Valid()
      modifies this
      ensures Valid() && Place() == |All()| - 1 && (more <==> All() != [])
    {
      ToEnd();
      more := Prev();
    }

    method Key() returns (key: K)
      requires Valid() && position.Between?
      ensures 0 <= Place() < |All()| && key == All()[Place()].key
    {
      maps.Look(path, focus);
      maps.IndexEntry(path, focus);
      key := node.key;
    }

    method Value() returns (value: V)
      requires Valid() && position.Between?
      ensures 0 <= Place() < |All()| && value == All()[Place()].value
    {
      maps.Look(path, focus);
      maps.IndexEntry(path, focus);
      value := node.value;
    }
  }

  method Keys<K(!new), V>(m: Map<K, V>) returns (keys: array<K>)
    requires m.Valid()
    ensures fresh(keys) && keys.Length == |Entries(m.tree)| && forall i :: 0 <= i < keys.Length ==>
              keys[i] == Entries(m.tree)[i].key
  {
    hide Entries, Before, Plug, Index, Stored, Sorted, RedBlack, TotalOrder, Nodes, PathNodes, Map.At, Map.Heap;
    keys := new K[m.size](_ => m.zero);
    var it := new Iterator(m);
    var i := 0;
    var more := it.Next();
    while more
      invariant fresh(it) && it.maps == m && it.Valid() && it.Place() == i && (more <==> i < |Entries(m.tree)|)
      invariant i <= |Entries(m.tree)|
      invariant forall k :: 0 <= k < i ==> keys[k] == Entries(m.tree)[k].key
      decreases |Entries(m.tree)| - i
    {
      var key := it.Key();
      keys[i] := key;
      i := i + 1;
      more := it.Next();
    }
  }
}
