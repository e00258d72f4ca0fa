/** Choosing a node's relation list and writing it onto the node:
    the backfill decision of `createCollectionRelations`,
    `fillWithRandomRelations`, `createNodeRelations`, and one pass of
    `createCollectionRelations` over a whole collection, all as functions of
    the options, the trained engine and the random draws. */
module Relations {
  import opened Js
  import opened Host
  import opened Documents
  import opened Sampling
  import opened PluginOptions

  /** Backfill only when fillWithRandom is truthy and the engine found fewer than minRelations. */
  predicate Backfill(s: Settings, found: nat)
  {
    s.fillWithRandom && Below(found, s.minRelations)
  }

  /** `fillWithRandomRelations(collection, relations, id)`: asks for
      `minRelations - relations.length` fillers and appends them. */
  function FillWithRandom(minRelations: Number, ids: seq<Id>, rels: seq<Relation>, excludedId: Id, draws: seq<nat>): (r: Filling)
    requires |ids| > 0
    ensures var sub := SubsetExcluding(ids, rels, Minus(minRelations, |rels|), excludedId, draws);
            && (r.Sampled? <==> sub.Sampled?)
            && (r.Sampled? ==> rels <= r.relations && r.relations[|rels|..] == sub.relations && r.rest == sub.rest)
  {
    match SubsetExcluding(ids, rels, Minus(minRelations, |rels|), excludedId, draws)
    case Unfinished => Unfinished
    case Sampled(fillers, rest) => Sampled(rels + fillers, rest)
  }

  /** The relations found stay first and unchanged; after them come fillers
      without a score, pairwise distinct, from the collection, neither the
      node itself nor one of the relations found, as many as requested
      (rounded up) when that number is positive. */
  lemma FillWithRandomSound(minRelations: Number, ids: seq<Id>, rels: seq<Relation>, excludedId: Id, draws: seq<nat>)
    requires |ids| > 0
    ensures var r := FillWithRandom(minRelations, ids, rels, excludedId, draws);
            var nf := NumberFillers(ids, rels, Minus(minRelations, |rels|));
            r.Sampled? ==>
              && rels <= r.relations
              && var fillers := r.relations[|rels|..];
              && AllFillers(fillers) && DistinctIds(fillers)
              && IdsOf(fillers) <= Elems(ids)
              && excludedId !in IdsOf(fillers)
              && IdsOf(fillers) !! IdsOf(rels)
              && (nf.Finite? && nf.r > 0.0 ==> nf.r <= |fillers| as real < nf.r + 1.0)
              && (!(nf.Finite? && nf.r > 0.0) ==> |fillers| <= 1)
  {
    var r := FillWithRandom(minRelations, ids, rels, excludedId, draws);
    var sub := SubsetExcluding(ids, rels, Minus(minRelations, |rels|), excludedId, draws);
    SubsetExcludingSound(ids, rels, Minus(minRelations, |rels|), excludedId, draws);
    if r.Sampled? {
      assert r.relations[|rels|..] == sub.relations;
    }
  }

  /** With an integral minRelations and enough nodes in the collection, a
      backfill that stops yields exactly minRelations relations. */
  lemma BackfillReachesMinRelations(m: nat, ids: seq<Id>, rels: seq<Relation>, excludedId: Id, draws: seq<nat>)
    requires |rels| < m <= |ids|
    ensures var r := FillWithRandom(Finite(m as real), ids, rels, excludedId, draws);
            r.Sampled? ==> |r.relations| == m
  {
    FillWithRandomSound(Finite(m as real), ids, rels, excludedId, draws);
  }

  /** The relation list of one node (lines 142-147): the engine's list, backfilled when the options ask for it. */
  function NodeRelations(s: Settings, found: seq<Relation>, ids: seq<Id>, id: Id, draws: seq<nat>): (r: Filling)
    requires |ids| > 0
    ensures !Backfill(s, |found|) ==> r == Sampled(found, draws)
    ensures Backfill(s, |found|) ==> r == FillWithRandom(s.minRelations, ids, found, id, draws)
    ensures r.Sampled? ==> found <= r.relations
  {
    if Backfill(s, |found|) then FillWithRandom(s.minRelations, ids, found, id, draws)
    else Sampled(found, draws)
  }

  /** When the engine's list has distinct ids and does not contain the node
      itself, neither does the final list; fillers appear only after a backfill. */
  lemma NodeRelationsWellFormed(s: Settings, found: seq<Relation>, ids: seq<Id>, id: Id, draws: seq<nat>)
    requires |ids| > 0
    requires DistinctIds(found) && id !in IdsOf(found)
    ensures var r := NodeRelations(s, found, ids, id, draws);
            r.Sampled? ==>
              && DistinctIds(r.relations) && id !in IdsOf(r.relations)
              && (|r.relations| > |found| ==> Backfill(s, |found|))
  {
    var r := NodeRelations(s, found, ids, id, draws);
    if r.Sampled? && Backfill(s, |found|) {
      FillWithRandomSound(s.minRelations, ids, found, id, draws);
      var rs := r.relations;
      var fillers := rs[|found|..];
      assert rs == found + fillers;
      forall i, j | 0 <= i < j < |rs| ensures rs[i].id != rs[j].id {
        if j >= |found| && i < |found| {
          assert rs[i].id in IdsOf(found);
          assert rs[j] == fillers[j - |found|];
        } else if i >= |found| {
          assert rs[i] == fillers[i - |found|] && rs[j] == fillers[j - |found|];
        }
      }
      forall x | x in IdsOf(rs) ensures x != id {
        var k :| 0 <= k < |rs| && rs[k].id == x;
        if k >= |found| { assert rs[k] == fillers[k - |found|]; }
      }
    }
  }

  /** The type the references are created with (line 275): the reference
      collection's type for a node of the primary collection in
      two-collection mode, the primary type otherwise. */
  function TargetType(s: Settings, reversed: bool): string
  {
    if !reversed && s.reference.Some? then s.reference.value else s.typeName
  }

  /** The field the references are written into (line 270). */
  function RelatedKey(s: Settings, reversed: bool): string
  {
    if !reversed then s.relatedFieldName else s.referenceRelatedFieldName
  }

  /** `documentRelations.map(relation => store.createReference(typeName, relation.id))`. */
  function References(typeName: string, rels: seq<Relation>): (r: seq<Value>)
    ensures |r| == |rels|
    ensures forall i :: 0 <= i < |rels| ==> r[i] == Ref(typeName, rels[i].id)
  {
    seq(|rels|, i requires 0 <= i < |rels| => CreateReference(typeName, rels[i].id))
  }

  /** The node `createNodeRelations` hands to `updateNode`: the node with its
      relation field replaced by one reference per relation, in order, and
      every other field as it was. */
  function NodeUpdate(s: Settings, node: Node, rels: seq<Relation>, reversed: bool): (r: Node)
    ensures r.id == node.id
    ensures Field(r, RelatedKey(s, reversed)) == Arr(References(TargetType(s, reversed), rels))
    ensures forall k :: k != RelatedKey(s, reversed) ==> Field(r, k) == Field(node, k)
  {
    WithField(node, RelatedKey(s, reversed), Arr(References(TargetType(s, reversed), rels)))
  }

  /** Field and type selection of `createNodeRelations`: a forward pass
      writes `relatedFieldName` with references typed as the reference
      collection when there is one and as the primary otherwise; a reversed
      pass writes `referenceRelatedFieldName` with references typed as the
      primary. One reference per relation, in order. */
  lemma FieldAndTypeSelection(s: Settings, node: Node, rels: seq<Relation>, reversed: bool)
    ensures var r := NodeUpdate(s, node, rels, reversed);
            var refs := Field(r, if reversed then s.referenceRelatedFieldName else s.relatedFieldName).elems;
            && |refs| == |rels|
            && forall i :: 0 <= i < |rels| ==>
                 refs[i] == Ref(if !reversed && s.reference.Some? then s.reference.value else s.typeName, rels[i].id)
  {
  }

  /** `after` is `before` with its relation field written by a pass in the given direction. */
  ghost predicate Written(s: Settings, before: Node, after: Node, reversed: bool)
  {
    && after.id == before.id
    && (forall k :: k != RelatedKey(s, reversed) ==> Field(after, k) == Field(before, k))
    && Field(after, RelatedKey(s, reversed)).Arr?
    && forall e :: e in Field(after, RelatedKey(s, reversed)).elems ==> e.Ref? && e.typeName == TargetType(s, reversed)
  }

  lemma NodeUpdateWritten(s: Settings, node: Node, rels: seq<Relation>, reversed: bool)
    ensures Written(s, node, NodeUpdate(s, node, rels, reversed), reversed)
  {
    var refs := References(TargetType(s, reversed), rels);
    forall e | e in refs ensures e.Ref? && e.typeName == TargetType(s, reversed) {
      var i :| 0 <= i < |refs| && refs[i] == e;
    }
  }

  /** What the relation list of the node `id` is made of: the engine's
      answers first and unchanged; after them, and only after a backfill,
      pairwise distinct fillers without a score drawn from the collection
      `ids`, never the node itself nor one of the engine's answers, and after
      a backfill that asks for a positive `numberFillers`, that many of them
      (rounded up), and at most one otherwise; no duplicate and no self-relation when the engine's
      answers have none. */
  ghost predicate RelationList(s: Settings, ix: Index, ids: seq<Id>, id: Id, rels: seq<Relation>)
  {
    var found := FetchDocumentRelations(ix, id, s.maxRelations);
    && found <= rels
    && (|rels| > |found| ==> Backfill(s, |found|))
    && AllFillers(rels[|found|..]) && IdsOf(rels[|found|..]) <= Elems(ids) && id !in IdsOf(rels[|found|..])
    && IdsOf(rels[|found|..]) !! IdsOf(found) && DistinctIds(rels[|found|..])
    && (|ids| > 0 && Backfill(s, |found|) ==>
          var nf := NumberFillers(ids, found, Minus(s.minRelations, |found|));
          nf.Finite? && nf.r > 0.0 ==> nf.r <= (|rels| - |found|) as real < nf.r + 1.0)
    && (|ids| > 0 && Backfill(s, |found|) ==>
          var nf := NumberFillers(ids, found, Minus(s.minRelations, |found|));
          !(nf.Finite? && nf.r > 0.0) ==> |rels| - |found| <= 1)
    && (DistinctIds(found) && id !in IdsOf(found) ==> DistinctIds(rels) && id !in IdsOf(rels))
  }

  /** `after` carries, in the relation field of the pass's direction, one
      reference per entry of a relation list of `before`. */
  ghost predicate Related(s: Settings, ix: Index, ids: seq<Id>, before: Node, after: Node, reversed: bool)
  {
    exists rels :: RelationList(s, ix, ids, before.id, rels)
                   && Field(after, RelatedKey(s, reversed)) == Arr(References(TargetType(s, reversed), rels))
  }

  /** Every list `NodeRelations` settles on for the engine's answers is a relation list of the node. */
  lemma NodeRelationsListed(s: Settings, ix: Index, ids: seq<Id>, id: Id, draws: seq<nat>)
    requires |ids| > 0
    requires NodeRelations(s, FetchDocumentRelations(ix, id, s.maxRelations), ids, id, draws).Sampled?
    ensures RelationList(s, ix, ids, id, NodeRelations(s, FetchDocumentRelations(ix, id, s.maxRelations), ids, id, draws).relations)
  {
    var found := FetchDocumentRelations(ix, id, s.maxRelations);
    var rels := NodeRelations(s, found, ids, id, draws).relations;
    if Backfill(s, |found|) {
      FillWithRandomSound(s.minRelations, ids, found, id, draws);
    } else {
      assert rels[|found|..] == [];
    }
    if DistinctIds(found) && id !in IdsOf(found) {
      NodeRelationsWellFormed(s, found, ids, id, draws);
    }
  }

  /** The node written from the list `NodeRelations` settles on carries its relation field, written from a relation list of its own. */
  lemma NodeUpdateRelated(s: Settings, ix: Index, ids: seq<Id>, node: Node, draws: seq<nat>, reversed: bool)
    requires |ids| > 0
    requires NodeRelations(s, FetchDocumentRelations(ix, node.id, s.maxRelations), ids, node.id, draws).Sampled?
    ensures var rels := NodeRelations(s, FetchDocumentRelations(ix, node.id, s.maxRelations), ids, node.id, draws).relations;
            && Written(s, node, NodeUpdate(s, node, rels, reversed), reversed)
            && Related(s, ix, ids, node, NodeUpdate(s, node, rels, reversed), reversed)
  {
    var rels := NodeRelations(s, FetchDocumentRelations(ix, node.id, s.maxRelations), ids, node.id, draws).relations;
    NodeUpdateWritten(s, node, rels, reversed);
    NodeRelationsListed(s, ix, ids, node.id, draws);
    assert RelationList(s, ix, ids, node.id, rels);
  }

  /** In two-collection mode a primary node's fillers are drawn from the
      primary collection itself, yet they are written as references into the
      reference collection. */
  lemma FillersTypedAsReference(s: Settings, node: Node, found: seq<Relation>, ids: seq<Id>, draws: seq<nat>, i: nat)
    requires |ids| > 0 && s.reference.Some?
    requires NodeRelations(s, found, ids, node.id, draws).Sampled?
    requires var rs := NodeRelations(s, found, ids, node.id, draws).relations; |found| <= i < |rs|
    ensures var rs := NodeRelations(s, found, ids, node.id, draws).relations;
            && rs[i].id in Elems(ids)
            && Field(NodeUpdate(s, node, rs, false), s.relatedFieldName).elems[i] == Ref(s.reference.value, rs[i].id)
  {
    var rs := NodeRelations(s, found, ids, node.id, draws).relations;
    FillWithRandomSound(s.minRelations, ids, found, node.id, draws);
    assert rs[i] == rs[|found|..][i - |found|];
  }

  /** The mirror image on the reversed pass: a reference node's fillers are
      drawn from the reference collection, yet they are written as references
      into the primary collection. */
  lemma FillersTypedAsPrimary(s: Settings, node: Node, found: seq<Relation>, ids: seq<Id>, draws: seq<nat>, i: nat)
    requires |ids| > 0 && s.reference.Some?
    requires NodeRelations(s, found, ids, node.id, draws).Sampled?
    requires var rs := NodeRelations(s, found, ids, node.id, draws).relations; |found| <= i < |rs|
    ensures var rs := NodeRelations(s, found, ids, node.id, draws).relations;
            && rs[i].id in Elems(ids)
            && Field(NodeUpdate(s, node, rs, true), s.referenceRelatedFieldName).elems[i] == Ref(s.typeName, rs[i].id)
  {
    var rs := NodeRelations(s, found, ids, node.id, draws).relations;
    FillWithRandomSound(s.minRelations, ids, found, node.id, draws);
    assert rs[i] == rs[|found|..][i - |found|];
  }

  /** The state after one `createCollectionRelations` pass: the nodes, the ids
      passed to `updateNode` in call order, and the unused draws (None when
      the pass got stuck in a backfill that never stops). */
  datatype PassResult = PassResult(nodes: map<Id, Node>, updated: seq<Id>, rest: Option<seq<nat>>)

  function IdsOfNodes(ns: seq<Node>): (r: seq<Id>)
    ensures |r| == |ns|
    ensures forall i :: 0 <= i < |ns| ==> r[i] == ns[i].id
  {
    seq(|ns|, i requires 0 <= i < |ns| => ns[i].id)
  }

  /** `createCollectionRelations` from the k-th node of `data` on. `data` is the
      collection's node list when the pass starts (backfill draws from the
      same ids), `nodes` the collection's current nodes by id. */
  function PassFrom(s: Settings, ix: Index, data: seq<Node>, k: nat, nodes: map<Id, Node>,
                    reversed: bool, draws: seq<nat>, updated: seq<Id>): (r: PassResult)
    requires k <= |data|
    requires forall i :: 0 <= i < |data| ==> data[i].id in nodes
    decreases |data| - k
  {
    if k == |data| then PassResult(nodes, updated, Some(draws))
    else
      var node := data[k];
      var found := FetchDocumentRelations(ix, node.id, s.maxRelations);
      match NodeRelations(s, found, IdsOfNodes(data), node.id, draws)
      case Unfinished => PassResult(nodes, updated, None)
      case Sampled(rels, rest) =>
        PassFrom(s, ix, data, k + 1, nodes[node.id := NodeUpdate(s, node, rels, reversed)],
                 reversed, rest, updated + [node.id])
  }

  /** A pass replaces nodes and never adds or removes one; each node it
      writes keeps its id. */
  lemma {:induction false} PassKeepsNodes(s: Settings, ix: Index, data: seq<Node>, k: nat,
                                          nodes: map<Id, Node>, reversed: bool, draws: seq<nat>, updated: seq<Id>)
    requires k <= |data|
    requires forall i :: 0 <= i < |data| ==> data[i].id in nodes
    ensures var r := PassFrom(s, ix, data, k, nodes, reversed, draws, updated);
            && (forall id :: id in r.nodes <==> id in nodes)
            && ((forall id :: id in nodes ==> nodes[id].id == id) ==> (forall id :: id in r.nodes ==> r.nodes[id].id == id))
    decreases |data| - k
  {
    if k < |data| {
      var node := data[k];
      var nr := NodeRelations(s, FetchDocumentRelations(ix, node.id, s.maxRelations), IdsOfNodes(data), node.id, draws);
      if nr.Sampled? {
        var nodes' := nodes[node.id := NodeUpdate(s, node, nr.relations, reversed)];
        PassKeepsNodes(s, ix, data, k + 1, nodes', reversed, nr.rest, updated + [node.id]);
        assert PassFrom(s, ix, data, k, nodes, reversed, draws, updated)
            == PassFrom(s, ix, data, k + 1, nodes', reversed, nr.rest, updated + [node.id]);
      }
    }
  }

  /** Every node of the collection receives at most one `updateNode` call, in
      collection order: the calls of a pass are a prefix of the collection. */
  lemma {:induction false} PassUpdatesInOrder(s: Settings, ix: Index, data: seq<Node>, k: nat,
                                              nodes: map<Id, Node>, reversed: bool, draws: seq<nat>, updated: seq<Id>)
    requires k <= |data|
    requires forall i :: 0 <= i < |data| ==> data[i].id in nodes
    ensures var r := PassFrom(s, ix, data, k, nodes, reversed, draws, updated);
            && |updated| <= |r.updated| <= |updated| + |data| - k
            && (forall i :: 0 <= i < |updated| ==> r.updated[i] == updated[i])
            && (forall i :: |updated| <= i < |r.updated| ==> r.updated[i] == data[k + i - |updated|].id)
    decreases |data| - k
  {
    if k < |data| {
      var node := data[k];
      var nr := NodeRelations(s, FetchDocumentRelations(ix, node.id, s.maxRelations), IdsOfNodes(data), node.id, draws);
      if nr.Sampled? {
        var nodes' := nodes[node.id := NodeUpdate(s, node, nr.relations, reversed)];
        PassUpdatesInOrder(s, ix, data, k + 1, nodes', reversed, nr.rest, updated + [node.id]);
        assert PassFrom(s, ix, data, k, nodes, reversed, draws, updated)
            == PassFrom(s, ix, data, k + 1, nodes', reversed, nr.rest, updated + [node.id]);
      }
    }
  }

  /** A pass finishes exactly when every node of the collection has received
      its `updateNode` call; a pass stuck in a backfill has updated fewer. */
  lemma {:induction false} PassFinishesIffAllUpdated(s: Settings, ix: Index, data: seq<Node>, k: nat,
                                                     nodes: map<Id, Node>, reversed: bool, draws: seq<nat>, updated: seq<Id>)
    requires k <= |data|
    requires forall i :: 0 <= i < |data| ==> data[i].id in nodes
    ensures var r := PassFrom(s, ix, data, k, nodes, reversed, draws, updated);
            r.rest.Some? <==> |r.updated| == |updated| + |data| - k
    decreases |data| - k
  {
    if k < |data| {
      var node := data[k];
      var nr := NodeRelations(s, FetchDocumentRelations(ix, node.id, s.maxRelations), IdsOfNodes(data), node.id, draws);
      if nr.Sampled? {
        var nodes' := nodes[node.id := NodeUpdate(s, node, nr.relations, reversed)];
        PassFinishesIffAllUpdated(s, ix, data, k + 1, nodes', reversed, nr.rest, updated + [node.id]);
        assert PassFrom(s, ix, data, k, nodes, reversed, draws, updated)
            == PassFrom(s, ix, data, k + 1, nodes', reversed, nr.rest, updated + [node.id]);
      }
    }
  }

  /** After a pass that completes over a collection with distinct ids, every
      node of the pass carries its relation field with references of the
      direction's type and keeps all its other fields; nodes outside the
      pass are untouched. */
  lemma PassWritesEveryNode(s: Settings, ix: Index, data: seq<Node>, nodes: map<Id, Node>, reversed: bool, draws: seq<nat>)
    requires forall i :: 0 <= i < |data| ==> data[i].id in nodes
    requires forall i, j :: 0 <= i < j < |data| ==> data[i].id != data[j].id
    ensures var r := PassFrom(s, ix, data, 0, nodes, reversed, draws, []);
            r.rest.Some? ==>
              forall i :: 0 <= i < |data| ==>
                && data[i].id in r.nodes && Written(s, data[i], r.nodes[data[i].id], reversed)
                && Related(s, ix, IdsOfNodes(data), data[i], r.nodes[data[i].id], reversed)
  {
    forall i | 0 <= i < |data|
      ensures var r := PassFrom(s, ix, data, 0, nodes, reversed, draws, []);
              r.rest.Some? ==>
                && data[i].id in r.nodes && Written(s, data[i], r.nodes[data[i].id], reversed)
                && Related(s, ix, IdsOfNodes(data), data[i], r.nodes[data[i].id], reversed)
    {
      PassWritesNode(s, ix, data, 0, nodes, reversed, draws, [], i);
    }
  }

  /** The i-th node of a pass that finishes carries its relation field, written from a relation list of its own. */
  lemma {:induction false} PassWritesNode(s: Settings, ix: Index, data: seq<Node>, k: nat,
                                          nodes: map<Id, Node>, reversed: bool, draws: seq<nat>, updated: seq<Id>, i: nat)
    requires k <= i < |data|
    requires forall i :: 0 <= i < |data| ==> data[i].id in nodes
    requires forall i, j :: 0 <= i < j < |data| ==> data[i].id != data[j].id
    ensures var r := PassFrom(s, ix, data, k, nodes, reversed, draws, updated);
            r.rest.Some? ==>
              && data[i].id in r.nodes && Written(s, data[i], r.nodes[data[i].id], reversed)
              && Related(s, ix, IdsOfNodes(data), data[i], r.nodes[data[i].id], reversed)
    decreases |data| - k
  {
    var node := data[k];
    var nr := NodeRelations(s, FetchDocumentRelations(ix, node.id, s.maxRelations), IdsOfNodes(data), node.id, draws);
    if nr.Sampled? {
      var nodes' := nodes[node.id := NodeUpdate(s, node, nr.relations, reversed)];
      var r := PassFrom(s, ix, data, k + 1, nodes', reversed, nr.rest, updated + [node.id]);
      assert PassFrom(s, ix, data, k, nodes, reversed, draws, updated) == r;
      if i == k {
        PassLeavesOthers(s, ix, data, k + 1, nodes', reversed, nr.rest, updated + [node.id]);
        assert forall j :: k + 1 <= j < |data| ==> data[j].id != node.id;
        NodeUpdateRelated(s, ix, IdsOfNodes(data), node, draws, reversed);
      } else {
        PassWritesNode(s, ix, data, k + 1, nodes', reversed, nr.rest, updated + [node.id], i);
      }
    }
  }

  /** A pass touches only the nodes it visits: a node whose id does not come
      up from position k on is left as it was, whether or not the pass finishes. */
  lemma {:induction false} PassLeavesOthers(s: Settings, ix: Index, data: seq<Node>, k: nat,
                                            nodes: map<Id, Node>, reversed: bool, draws: seq<nat>, updated: seq<Id>)
    requires k <= |data|
    requires forall i :: 0 <= i < |data| ==> data[i].id in nodes
    ensures var r := PassFrom(s, ix, data, k, nodes, reversed, draws, updated);
            forall id :: id in nodes && (forall i :: k <= i < |data| ==> data[i].id != id) ==> id in r.nodes && r.nodes[id] == nodes[id]
    decreases |data| - k
  {
    if k < |data| {
      var node := data[k];
      var nr := NodeRelations(s, FetchDocumentRelations(ix, node.id, s.maxRelations), IdsOfNodes(data), node.id, draws);
      if nr.Sampled? {
        var nodes' := nodes[node.id := NodeUpdate(s, node, nr.relations, reversed)];
        PassLeavesOthers(s, ix, data, k + 1, nodes', reversed, nr.rest, updated + [node.id]);
        assert PassFrom(s, ix, data, k, nodes, reversed, draws, updated)
            == PassFrom(s, ix, data, k + 1, nodes', reversed, nr.rest, updated + [node.id]);
      }
    }
  }

}
