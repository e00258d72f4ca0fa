/** The host's node store, seen only through the calls the plugin makes:
    `actions.getCollection`, `collection.data()`, `collection.updateNode` and
    `store.createReference`. */
module Host {
  import opened Js

  /** A content node: its id and its other fields. */
  datatype Node = Node(id: Id, fields: map<string, Value>)

  /** `node[key]`; a missing field reads as undefined. */
  function Field(n: Node, key: string): Value
  {
    if key in n.fields then n.fields[key] else Undefined
  }

  /** `{...node, [key]: v}`: a shallow copy with one field assigned. */
  function WithField(n: Node, key: string, v: Value): (r: Node)
    ensures r.id == n.id
    ensures Field(r, key) == v
    ensures forall k :: k != key ==> Field(r, k) == Field(n, k)
  {
    n.(fields := n.fields[key := v])
  }

  /** `store.createReference(typeName, id)`. */
  function CreateReference(typeName: string, id: Id): Value
  {
    Ref(typeName, id)
  }

  predicate Distinct<T(==)>(s: seq<T>)
  {
    forall i, j :: 0 <= i < j < |s| ==> s[i] != s[j]
  }

  /** The value of one collection: its node ids in `data()` order and the nodes by id. */
  datatype CollectionState = CollectionState(order: seq<Id>, nodes: map<Id, Node>)

  ghost predicate WellFormed(c: CollectionState)
  {
    && Distinct(c.order)
    && (forall id :: id in c.nodes <==> id in c.order)
    && (forall id :: id in c.nodes ==> c.nodes[id].id == id)
  }

  ghost predicate WorldWellFormed(world: map<string, CollectionState>)
  {
    forall typeName :: typeName in world ==> WellFormed(world[typeName])
  }

  /** The nodes in the given order. */
  function NodesAt(order: seq<Id>, nodes: map<Id, Node>): (r: seq<Node>)
    requires forall id :: id in order ==> id in nodes
    ensures |r| == |order|
    ensures forall i :: 0 <= i < |order| ==> r[i] == nodes[order[i]]
  {
    if order == [] then [] else [nodes[order[0]]] + NodesAt(order[1..], nodes)
  }

  /** `data()` of a collection in the given state. */
  function Snapshot(c: CollectionState): (r: seq<Node>)
    requires WellFormed(c)
    ensures |r| == |c.order|
    ensures forall i :: 0 <= i < |r| ==> r[i] == c.nodes[c.order[i]] && r[i].id == c.order[i]
  {
    NodesAt(c.order, c.nodes)
  }

  /** The host's store: every collection's state by type name. A collection
      handle (`actions.getCollection(typeName)`) is its type name, so two
      handles for one type name address the same nodes. */
  class Store {
    var collections: map<string, CollectionState>

    ghost predicate Valid()
      reads this
    {
      WorldWellFormed(collections)
    }

    constructor (collections: map<string, CollectionState>)
      requires WorldWellFormed(collections)
      ensures Valid() && this.collections == collections
    {
      this.collections := collections;
    }

    /** `actions.getCollection(typeName)` finds a collection. */
    predicate Has(typeName: string)
      reads this
    {
      typeName in collections
    }

    /** `collection.data()`. */
    function Data(typeName: string): (r: seq<Node>)
      reads this
      requires Valid() && Has(typeName)
      ensures |r| == |collections[typeName].order|
      ensures r == Snapshot(collections[typeName])
    {
      Snapshot(collections[typeName])
    }

    /** `collection.updateNode(node)`: replaces the stored node with the same id. */
    method UpdateNode(typeName: string, n: Node)
      requires Valid() && Has(typeName) && n.id in collections[typeName].nodes
      modifies this
      ensures Valid()
      ensures collections == old(collections)[typeName := old(collections[typeName]).(nodes := old(collections[typeName].nodes)[n.id := n])]
    {
      var c := collections[typeName];
      collections := collections[typeName := c.(nodes := c.nodes[n.id := n])];
    }
  }
}
